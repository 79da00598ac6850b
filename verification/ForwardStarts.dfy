/** Uploads against the exclusions their own producer started from.

    A producer starts from a baseline it stored or from a state it loaded.  The loaded state may come
    from a write that was never acknowledged, so this covers baselines that the permanence results for
    acknowledged exclusions do not. */
module ForwardStarts {
  import opened Chunk
  import opened DurableSlot
  import opened ForwardState
  import opened Forward
  import opened ForwardRuns

  predicate IsStart(e: Event) {
    e.Loaded? || (e.Baselined? && e.outcome.Confirmed?)
  }

  /** The event at i is the last start before position k. */
  predicate StartOf(log: seq<Event>, i: nat, k: nat) {
    && i < k <= |log| && IsStart(log[i])
    && forall j :: i < j < k ==> !IsStart(log[j])
  }

  predicate ClearOf(u: Event, s: ForwardState)
    requires u.Upserted?
  {
    Clear(u, s.excludedPaths, s.excludedObjects, s.excludedSessions)
  }

  ghost predicate UploadsClearOfStart(log: seq<Event>) {
    forall i: nat, k: nat :: k < |log| && log[k].Upserted? && StartOf(log, i, k) ==> ClearOf(log[k], log[i].state)
  }

  /** The producer started at i and has only grown its exclusions since. */
  ghost predicate Since(m: Machine, i: nat) {
    && StartOf(m.log, i, |m.log|)
    && ExclusionsWithin(m.log[i].state, m.state)
    && UploadsClearOfStart(m.log)
  }

  lemma SameStart(log: seq<Event>, e: Event, i: nat, k: nat)
    requires k <= |log|
    ensures StartOf(log + [e], i, k) <==> StartOf(log, i, k)
  {
    hide IsStart;
    assert forall j :: 0 <= j < |log| ==> (log + [e])[j] == log[j];
  }

  lemma OneStart(log: seq<Event>, i: nat, i': nat, k: nat)
    requires StartOf(log, i, k) && StartOf(log, i', k)
    ensures i == i'
  {
  }

  lemma Appended(log: seq<Event>, e: Event, i: nat)
    requires StartOf(log, i, |log|) && UploadsClearOfStart(log) && !IsStart(e)
    requires e.Upserted? ==> ClearOf(e, log[i].state)
    ensures StartOf(log + [e], i, |log| + 1) && UploadsClearOfStart(log + [e])
  {
    hide ClearOf;
    var next := log + [e];
    forall i': nat, k: nat | k < |next| && next[k].Upserted? && StartOf(next, i', k)
      ensures ClearOf(next[k], next[i'].state)
    {
      SameStart(log, e, i', k);
      if k == |log| {
        OneStart(log, i, i', k);
      }
    }
  }

  lemma PersistSince(m: Machine, next: ForwardState, e: Event, outcome: WriteOutcome, i: nat)
    requires Since(m, i) && ExclusionsWithin(m.state, next) && !IsStart(e) && !e.Upserted?
    ensures Since(Persist(m, next, e, outcome).0, i)
  {
    hide UploadsClearOfStart, IsStart;
    Appended(m.log, e, i);
  }

  lemma ClearOfLess(u: Event, a: ForwardState, b: ForwardState)
    requires u.Upserted? && ClearOf(u, b) && ExclusionsWithin(a, b)
    ensures ClearOf(u, a)
  {
  }

  lemma UploadSince(m: Machine, v: Visit, s: Snapshot, chunks: seq<Chunk>, i: nat)
    requires Since(m, i)
    requires ClearOf(Upserted(v.path, s.identity, s, chunks, v.accepted, m.state.cutoff), m.state)
    ensures Since(Upload(m, v, s, chunks).0, i)
  {
    hide UploadsClearOfStart, ClearOf, Persist;
    var u := Upserted(v.path, s.identity, s, chunks, v.accepted, m.state.cutoff);
    ClearOfLess(u, m.log[i].state, m.state);
    Appended(m.log, u, i);
    var sent := m.(log := m.log + [u]);
    if v.accepted {
      PersistSince(sent, m.state.(progress := m.state.progress[v.path := s.digest]),
                   Acknowledged(v.path, s.digest, v.write), v.write, i);
    }
  }

  lemma RefuseSince(m: Machine, path: CleanPath, id: Identity, sessions: seq<Session>, outcome: WriteOutcome, i: nat)
    requires Since(m, i)
    ensures Since(RefusePath(m, path, id, sessions, outcome).0, i)
  {
    hide UploadsClearOfStart, Persist;
    PersistSince(m, Refusing(m.state, path, id, sessions), Refused(path, id, sessions, outcome), outcome, i);
  }

  lemma VisitSince(m: Machine, v: Visit, seen: nat, i: nat)
    requires Since(m, i)
    ensures Since(VisitOne(m, v, seen).machine, i)
  {
    hide Since, RefusePath, Upload, FirstStale, Classify, ContainsExcluded;
    if Candidate(v) && !ExcludedVisit(m.state, v) && v.identity.Some? && v.snapshot.Some? {
      var s := v.snapshot.value;
      RefuseSince(m, v.path, s.identity, Sessions(s.inspection), v.write, i);
      if s.chunks.Some? && s.chunks.value != [] {
        var chunks := s.chunks.value;
        var bad := FirstStale(chunks, m.state);
        if bad < |chunks| {
          RefuseSince(m, v.path, s.identity, Sessions(s.inspection) + [chunks[bad].sessionID], v.write, i);
        } else if s.identity == v.identity.value
                  && !ContainsExcluded(m.state.excludedSessions, Sessions(s.inspection)) {
          UploadSince(m, v, s, chunks, i);
        }
      }
    }
  }

  lemma {:induction false} ScanSince(m: Machine, visits: seq<Visit>, seen: nat, i: nat)
    requires Since(m, i)
    ensures Since(ScanFrom(m, visits, seen).machine, i)
    decreases |visits|
  {
    hide Since, VisitOne;
    if visits != [] {
      VisitSince(m, visits[0], seen, i);
      var head := VisitOne(m, visits[0], seen);
      if !head.result.Failed? {
        ScanSince(head.machine, visits[1..], head.seen, i);
      }
    }
  }

  ghost predicate Started(s: System) {
    && UploadsClearOfStart(s.log)
    && (s.tracker.Some? ==> exists i: nat :: Since(Machine(s.tracker.value, s.slot, s.log), i))
  }

  lemma PlainAppend(log: seq<Event>, e: Event)
    requires UploadsClearOfStart(log) && !e.Upserted?
    ensures UploadsClearOfStart(log + [e])
  {
    hide ClearOf;
    var next := log + [e];
    forall i: nat, k: nat | k < |next| && next[k].Upserted? && StartOf(next, i, k) ensures ClearOf(next[k], next[i].state) {
      SameStart(log, e, i, k);
    }
  }

  /** A producer's own start event. */
  lemma StartsHere(log: seq<Event>, e: Event, slot: Slot<ForwardState>)
    requires UploadsClearOfStart(log) && IsStart(e)
    ensures Since(Machine(e.state, slot, log + [e]), |log|)
  {
    hide ClearOf;
    PlainAppend(log, e);
  }

  lemma EnableStarts(s: System, c: Command)
    requires Started(s) && c.Enable?
    ensures Started(Enabled(s, c))
  {
    hide UploadsClearOfStart, Since, BaselineFrom, ValidState, OrderedRoots;
    var s' := Enabled(s, c);
    if s'.log != s.log {
      var e := s'.log[|s.log|];
      assert s'.log == s.log + [e];
      PlainAppend(s.log, e);
      if s'.tracker.Some? {
        StartsHere(s.log, e, s'.slot);
        assert Since(Machine(s'.tracker.value, s'.slot, s'.log), |s.log|);
      }
    }
  }

  lemma ScanStarts(s: System, visits: seq<Visit>)
    requires Started(s)
    ensures Started(Apply(s, Scan(visits)))
  {
    hide UploadsClearOfStart, ScanFrom;
    if s.tracker.Some? {
      var m := Machine(s.tracker.value, s.slot, s.log);
      var i: nat :| Since(m, i);
      ScanSince(m, visits, 0, i);
      assert Since(ScanFrom(m, visits, 0).machine, i);
    }
  }

  lemma {:induction false} RunStarts(commands: seq<Command>)
    ensures Started(Execute(FIRST_BOOT, commands))
    decreases |commands|
  {
    if commands != [] {
      hide Since, UploadsClearOfStart, ScanFrom, Enabled;
      var n := |commands| - 1;
      RunStarts(commands[..n]);
      var s := Execute(FIRST_BOOT, commands[..n]);
      match commands[n] {
        case Enable(_, _, _, _, _, _) => EnableStarts(s, commands[n]);
        case Scan(visits) => ScanStarts(s, visits);
        case _ =>
      }
    }
  }

  /** In every run each upsert is clear of every path, object and session its producer started with,
      whether that start was a confirmed baseline or a loaded state. */
  lemma UploadsAvoidTheirStart(commands: seq<Command>, i: nat, k: nat)
    requires k < |Execute(FIRST_BOOT, commands).log| && Execute(FIRST_BOOT, commands).log[k].Upserted?
    requires StartOf(Execute(FIRST_BOOT, commands).log, i, k)
    ensures ClearOf(Execute(FIRST_BOOT, commands).log[k], Execute(FIRST_BOOT, commands).log[i].state)
  {
    hide Execute, ClearOf;
    RunStarts(commands);
  }
}
