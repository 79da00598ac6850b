/** Single scans: what a scan that returns nil leaves behind, and why repeating it is quiet. */
module ForwardScans {
  import opened Options
  import opened ForwardState
  import opened Forward
  import opened ForwardGuarantees

  /** This snapshot needs no more work: acknowledged, not yet classifiable, or without chunks. */
  predicate Handled(s: ForwardState, path: CleanPath, snapshot: Snapshot) {
    || (path in s.progress && s.progress[path] == snapshot.digest)
    || Classify(snapshot.inspection, s.cutoff) == Wait
    || (Classify(snapshot.inspection, s.cutoff) == Accept && snapshot.chunks == Some([]))
  }

  /** Nothing more is owed for this file. */
  predicate Settled(s: ForwardState, v: Visit) {
    Candidate(v) ==> ExcludedVisit(s, v) || (v.snapshot.Some? && Handled(s, v.path, v.snapshot.value))
  }

  predicate LastVisit(visits: seq<Visit>, i: nat)
    requires i < |visits|
  {
    forall j :: i < j < |visits| ==> visits[j].path != visits[i].path
  }

  lemma VisitSettles(m: Machine, v: Visit, seen: nat)
    requires VisitOne(m, v, seen).result == Done
    ensures Settled(VisitOne(m, v, seen).machine.state, v)
  {
    hide FirstStale, Classify, ContainsExcluded, ReliableSessions;
  }

  lemma SettledStays(m: Machine, v: Visit, w: Visit, seen: nat)
    requires Settled(m.state, v) && w.path != v.path
    ensures Settled(VisitOne(m, w, seen).machine.state, v)
  {
    VisitGrows(m, w, seen);
  }

  lemma {:induction false} SettledThroughScan(m: Machine, visits: seq<Visit>, seen: nat, v: Visit)
    requires Settled(m.state, v)
    requires forall j :: 0 <= j < |visits| ==> visits[j].path != v.path
    ensures Settled(ScanFrom(m, visits, seen).machine.state, v)
    decreases |visits|
  {
    if visits != [] {
      SettledStays(m, v, visits[0], seen);
      var head := VisitOne(m, visits[0], seen);
      if !head.result.Failed? {
        SettledThroughScan(head.machine, visits[1..], head.seen, v);
      }
    }
  }

  /** A scan that returns nil drops nothing: each path it saw is settled as it was last seen. */
  lemma {:induction false} CompleteScanDropsNothing(m: Machine, visits: seq<Visit>, seen: nat, i: nat)
    requires i < |visits| && LastVisit(visits, i)
    requires ScanFrom(m, visits, seen).result == Done
    ensures Settled(ScanFrom(m, visits, seen).machine.state, visits[i])
    decreases |visits|
  {
    var head := VisitOne(m, visits[0], seen);
    if i == 0 {
      VisitSettles(m, visits[0], seen);
      assert forall j :: 0 <= j < |visits[1..]| ==> visits[1..][j] == visits[j + 1];
      SettledThroughScan(head.machine, visits[1..], head.seen, visits[0]);
    } else {
      assert LastVisit(visits[1..], i - 1);
      CompleteScanDropsNothing(head.machine, visits[1..], head.seen, i - 1);
    }
  }

  /** The limit: a scan handles 1024 files and fails at the next one. */
  lemma ScanLimitIsMet(m: Machine, v: Visit, seen: nat)
    requires Candidate(v) && !ExcludedVisit(m.state, v) && v.identity.Some?
    ensures VisitOne(m, v, seen).result == Failed(ScanLimit) <==> seen >= 1024
    ensures VisitOne(m, v, seen).seen == seen + 1
  {
    hide Dispatching, RefuseClosed, Classify, ContainsExcluded;
    ProcessingMeetsNoLimit(m, v, v.identity.value);
  }

  lemma ProcessingMeetsNoLimit(m: Machine, v: Visit, id: Identity)
    ensures ProcessPath(m, v, id).1 != Failed(ScanLimit)
  {
    hide FirstStale, Classify, ContainsExcluded, Refusing;
  }

  // ---- Repeating a scan over an unchanged tree ------------------------------------------------

  /** The file tree answers the same; the context, sink and state writes may answer differently. */
  predicate SameEntry(v: Visit, w: Visit) {
    && v.walked == w.walked && v.entry == w.entry && v.path == w.path && v.detection == w.detection
    && v.identity == w.identity && v.snapshot == w.snapshot
  }

  predicate SameEntries(visits: seq<Visit>, again: seq<Visit>) {
    |visits| == |again| && forall i :: 0 <= i < |visits| ==> SameEntry(visits[i], again[i])
  }

  /** One tree: a path reached twice, through overlapping roots, shows the same file. */
  predicate OneTree(visits: seq<Visit>) {
    forall i, j :: 0 <= i < j < |visits| && visits[i].path == visits[j].path ==>
      SameEntry(visits[i], visits[j]) && visits[i].live == visits[j].live
  }

  function Live(v: Visit): Visit {
    v.(live := true)
  }

  predicate AllSettled(s: ForwardState, visits: seq<Visit>) {
    forall i :: 0 <= i < |visits| ==> Settled(s, Live(visits[i]))
  }

  lemma {:induction false} LastVisitExists(visits: seq<Visit>, i: nat) returns (j: nat)
    requires i < |visits|
    ensures i <= j < |visits| && visits[j].path == visits[i].path && LastVisit(visits, j)
    decreases |visits| - i
  {
    if LastVisit(visits, i) {
      j := i;
    } else {
      var k :| i < k < |visits| && visits[k].path == visits[i].path;
      j := LastVisitExists(visits, k);
    }
  }

  lemma {:induction false} CompleteScanWasLive(m: Machine, visits: seq<Visit>, seen: nat, i: nat)
    requires i < |visits|
    requires ScanFrom(m, visits, seen).result == Done
    ensures visits[i].live && visits[i].walked
    decreases |visits|
  {
    if i > 0 {
      var head := VisitOne(m, visits[0], seen);
      CompleteScanWasLive(head.machine, visits[1..], head.seen, i - 1);
    }
  }

  lemma CompleteScanSettlesAll(m: Machine, visits: seq<Visit>, seen: nat)
    requires ScanFrom(m, visits, seen).result == Done && OneTree(visits)
    ensures AllSettled(ScanFrom(m, visits, seen).machine.state, visits)
  {
    var s := ScanFrom(m, visits, seen).machine.state;
    forall i | 0 <= i < |visits| ensures Settled(s, Live(visits[i])) {
      var j := LastVisitExists(visits, i);
      CompleteScanDropsNothing(m, visits, seen, j);
      CompleteScanWasLive(m, visits, seen, j);
    }
  }

  predicate NoUpsertsSince(log: seq<Event>, later: seq<Event>) {
    log <= later && forall i :: |log| <= i < |later| ==> !later[i].Upserted?
  }

  lemma QuietVisit(m: Machine, v: Visit, seen: nat)
    requires Settled(m.state, Live(v))
    ensures NoUpsertsSince(m.log, VisitOne(m, v, seen).machine.log)
    ensures var s := VisitOne(m, v, seen).machine.state;
            ExclusionsWithin(m.state, s) && s.cutoff == m.state.cutoff && s.progress == m.state.progress
  {
    hide Upload, FirstStale, Classify, ContainsExcluded, ReliableSessions;
  }

  lemma {:induction false} QuietScan(m: Machine, visits: seq<Visit>, seen: nat)
    requires AllSettled(m.state, visits)
    ensures NoUpsertsSince(m.log, ScanFrom(m, visits, seen).machine.log)
    ensures var s := ScanFrom(m, visits, seen).machine.state;
            ExclusionsWithin(m.state, s) && s.cutoff == m.state.cutoff && s.progress == m.state.progress
    decreases |visits|
  {
    if visits != [] {
      QuietVisit(m, visits[0], seen);
      var head := VisitOne(m, visits[0], seen);
      if !head.result.Failed? {
        assert forall i :: 0 <= i < |visits[1..]| ==> visits[1..][i] == visits[i + 1];
        QuietScan(head.machine, visits[1..], head.seen);
      }
    }
  }

  lemma SettledForSameEntries(s: ForwardState, s': ForwardState, visits: seq<Visit>, again: seq<Visit>)
    requires AllSettled(s, visits) && SameEntries(visits, again)
    requires ExclusionsWithin(s, s') && s'.cutoff == s.cutoff && s'.progress == s.progress
    ensures AllSettled(s', again)
  {
  }

  /** The files counted against the limit only become fewer as exclusions grow. */
  lemma {:induction false} CountDoesNotGrow(m: Machine, visits: seq<Visit>, seen: nat,
                                            m': Machine, again: seq<Visit>, seen': nat)
    requires ScanFrom(m, visits, seen).result == Done
    requires SameEntries(visits, again) && seen' <= seen
    requires ExclusionsWithin(ScanFrom(m, visits, seen).machine.state, m'.state)
    ensures ScanFrom(m', again, seen').result != Failed(ScanLimit)
    decreases |visits|
  {
    if visits != [] {
      assert SameEntry(visits[0], again[0]);
      var head := VisitOne(m, visits[0], seen);
      var head' := VisitOne(m', again[0], seen');
      ScanGrows(m, visits, seen);
      VisitGrows(m', again[0], seen');
      if !head'.result.Failed? {
        assert SameEntries(visits[1..], again[1..]) by {
          forall i | 0 <= i < |visits[1..]| ensures SameEntry(visits[1..][i], again[1..][i]) {
            assert SameEntry(visits[i + 1], again[i + 1]);
          }
        }
        CountDoesNotGrow(head.machine, visits[1..], head.seen, head'.machine, again[1..], head'.seen);
      }
    }
  }

  function Rescan(m: Machine, scans: seq<seq<Visit>>): Machine
    decreases |scans|
  {
    if scans == [] then m
    else ScanFrom(Rescan(m, scans[..|scans| - 1]), scans[|scans| - 1], 0).machine
  }

  /** After a scan returns nil over a tree that then stays unchanged, no number of further scans makes
      an upsert or newly meets the file limit, whatever their contexts, sinks and writes answer. */
  lemma {:induction false} RescansAreQuiet(m: Machine, visits: seq<Visit>, scans: seq<seq<Visit>>)
    requires ScanFrom(m, visits, 0).result == Done && OneTree(visits)
    requires forall k :: 0 <= k < |scans| ==> SameEntries(visits, scans[k])
    ensures var first := ScanFrom(m, visits, 0).machine;
            var last := Rescan(first, scans);
            && NoUpsertsSince(first.log, last.log)
            && ExclusionsWithin(first.state, last.state)
            && last.state.cutoff == first.state.cutoff && last.state.progress == first.state.progress
    ensures scans != [] ==>
              ScanFrom(Rescan(ScanFrom(m, visits, 0).machine, scans[..|scans| - 1]), scans[|scans| - 1], 0).result
              != Failed(ScanLimit)
    decreases |scans|
  {
    if scans != [] {
      var first := ScanFrom(m, visits, 0).machine;
      var n := |scans| - 1;
      RescansAreQuiet(m, visits, scans[..n]);
      var mid := Rescan(first, scans[..n]);
      CompleteScanSettlesAll(m, visits, 0);
      SettledForSameEntries(first.state, mid.state, visits, scans[n]);
      QuietScan(mid, scans[n], 0);
      CountDoesNotGrow(m, visits, 0, mid, scans[n], 0);
    }
  }
}
