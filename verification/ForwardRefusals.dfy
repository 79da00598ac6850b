/** What becomes of a refusal whose state write was not acknowledged
    (internal/history/watch/forward.go:451-465).  Memory never learned of it, so it lasts until the
    tracker's next write reaches the directory. */
module ForwardRefusals {
  import opened Options
  import opened Chunk
  import opened DurableSlot
  import opened ForwardState
  import opened Forward
  import opened ForwardRuns
  import opened ForwardGuarantees
  import opened ForwardCutoff

  function AsSystem(m: Machine): System {
    System(Some(m.state), m.slot, m.log)
  }

  /** The state file names the path. */
  predicate Recorded(slot: Slot<ForwardState>, path: CleanPath) {
    slot.visible.Some? && path in slot.visible.value.excludedPaths
  }

  // ---- Until the next visible write -----------------------------------------------------------

  /** A state write that reached the directory. */
  predicate Reached(e: Event) {
    (e.Acknowledged? || e.Refused?) && e.outcome != Unwritten
  }

  predicate NoneReached(log: seq<Event>, from: nat) {
    forall j :: from <= j < |log| ==> !Reached(log[j])
  }

  /** After the step: memory still lacks the path, and the file has it as before unless a write reached it. */
  ghost predicate Lasts(m: Machine, m': Machine, path: CleanPath) {
    && path !in m'.state.excludedPaths && m.log <= m'.log
    && (Recorded(m'.slot, path) <==> Recorded(m.slot, path) && NoneReached(m'.log, |m.log|))
  }

  lemma LastsTransitive(a: Machine, b: Machine, c: Machine, path: CleanPath)
    requires Lasts(a, b, path) && Lasts(b, c, path)
    ensures Lasts(a, c, path)
  {
    hide Recorded, Reached;
    assert forall j :: 0 <= j < |b.log| ==> b.log[j] == c.log[j];
  }

  lemma PersistLasts(m: Machine, next: ForwardState, e: Event, outcome: WriteOutcome, path: CleanPath)
    requires path !in m.state.excludedPaths && path !in next.excludedPaths
    requires (e.Acknowledged? || e.Refused?) && e.outcome == outcome
    ensures Lasts(m, Persist(m, next, e, outcome).0, path)
  {
    assert (m.log + [e])[|m.log|] == e;
  }

  lemma UploadLasts(m: Machine, v: Visit, s: Snapshot, chunks: seq<Chunk>, path: CleanPath)
    requires path !in m.state.excludedPaths
    ensures Lasts(m, Upload(m, v, s, chunks).0, path)
  {
    hide Recorded, Persist;
    var sent := m.(log := m.log + [Upserted(v.path, s.identity, s, chunks, v.accepted, m.state.cutoff)]);
    assert Lasts(m, sent, path);
    if v.accepted {
      var next := m.state.(progress := m.state.progress[v.path := s.digest]);
      PersistLasts(sent, next, Acknowledged(v.path, s.digest, v.write), v.write, path);
      LastsTransitive(m, sent, Upload(m, v, s, chunks).0, path);
    }
  }

  lemma RefuseLasts(m: Machine, other: CleanPath, id: Identity, sessions: seq<Session>, outcome: WriteOutcome,
                    path: CleanPath)
    requires path !in m.state.excludedPaths && other != path
    ensures Lasts(m, RefusePath(m, other, id, sessions, outcome).0, path)
  {
    hide Lasts, Persist, ReliableSessions;
    PersistLasts(m, Refusing(m.state, other, id, sessions), Refused(other, id, sessions, outcome), outcome, path);
  }

  lemma LastsNothing(m: Machine, path: CleanPath)
    requires path !in m.state.excludedPaths
    ensures Lasts(m, m, path)
  {
  }

  lemma VisitLasts(m: Machine, v: Visit, seen: nat, path: CleanPath)
    requires path !in m.state.excludedPaths && v.path != path
    ensures Lasts(m, VisitOne(m, v, seen).machine, path)
  {
    hide Lasts, RefusePath, Upload, FirstStale, Classify, ContainsExcluded;
    LastsNothing(m, path);
    if v.snapshot.Some? {
      var s := v.snapshot.value;
      RefuseLasts(m, v.path, s.identity, Sessions(s.inspection), v.write, path);
      if s.chunks.Some? {
        var chunks := s.chunks.value;
        UploadLasts(m, v, s, chunks, path);
        var bad := FirstStale(chunks, m.state);
        if bad < |chunks| {
          RefuseLasts(m, v.path, s.identity, Sessions(s.inspection) + [chunks[bad].sessionID], v.write, path);
        }
      }
    }
  }

  lemma {:induction false} ScanLasts(m: Machine, visits: seq<Visit>, seen: nat, path: CleanPath)
    requires path !in m.state.excludedPaths && forall j :: 0 <= j < |visits| ==> visits[j].path != path
    ensures Lasts(m, ScanFrom(m, visits, seen).machine, path)
    decreases |visits|
  {
    hide VisitOne;
    if visits != [] {
      VisitLasts(m, visits[0], seen, path);
      var head := VisitOne(m, visits[0], seen);
      if !head.result.Failed? {
        ScanLasts(head.machine, visits[1..], head.seen, path);
        LastsTransitive(m, head.machine, ScanFrom(head.machine, visits[1..], head.seen).machine, path);
      }
    }
  }

  /** A refusal that failed behind its rename is in the state file after a whole scan of other files if
      and only if no state write of that scan reached the directory. */
  lemma UnacknowledgedRefusalLasts(m: Machine, path: CleanPath, id: Identity, sessions: seq<Session>,
                                   outcome: WriteOutcome, visits: seq<Visit>)
    requires path !in m.state.excludedPaths && outcome in {Unconfirmed, ConfirmedLate}
    requires forall j :: 0 <= j < |visits| ==> visits[j].path != path
    ensures var refused := RefusePath(m, path, id, sessions, outcome).0;
            var later := ScanFrom(refused, visits, 0).machine;
            Recorded(later.slot, path) <==> NoneReached(later.log, |refused.log|)
  {
    hide ScanFrom, ReliableSessions;
    ScanLasts(RefusePath(m, path, id, sessions, outcome).0, visits, 0, path);
  }

  // ---- Permanent exactly when acknowledged ----------------------------------------------------

  /** The visit that loses an unacknowledged refusal: the file now holds a current conversation, is
      uploaded, and the acknowledgement replaces the state file by what memory knows. */
  lemma LosingVisit(m: Machine, path: CleanPath, id: Identity) returns (v: Visit)
    requires ValidState(m.state) && path !in m.state.excludedPaths
    requires id !in m.state.excludedObjects && id != NO_IDENTITY
    ensures v.path == path && !Recorded(ScanFrom(m, [v], 0).machine.slot, path)
    ensures var log := ScanFrom(m, [v], 0).machine.log;
            |m.log| < |log| && log[|m.log|].Upserted? && log[|m.log|].path == path && log[|m.log|].accepted
  {
    hide ScanFrom;
    var a, b := TwoDigests();
    var digest := if path in m.state.progress && m.state.progress[path] == a then b else a;
    v := SampleVisit(path, id, m.state.cutoff, digest, Confirmed);
    SampleUploads(m, path, id, m.state.cutoff, digest, Confirmed);
  }

  lemma ExecuteScan(s: System, visits: seq<Visit>)
    requires s.tracker.Some?
    ensures Execute(s, [Scan(visits)]).slot == ScanFrom(Machine(s.tracker.value, s.slot, s.log), visits, 0).machine.slot
  {
    hide ScanFrom;
    assert [Scan(visits)][..0] == [];
    assert Execute(s, []) == s;
  }

  /** For a running producer that refuses a path it had not excluded: the path stays in the state file
      through every continuation if and only if the state write was acknowledged. */
  lemma RefusalIsPermanentExactlyWhenAcknowledged(m: Machine, path: CleanPath, id: Identity, sessions: seq<Session>,
                                                  outcome: WriteOutcome)
    requires Running(m) && path !in m.state.excludedPaths && id !in m.state.excludedObjects && id != NO_IDENTITY
    ensures var refused := AsSystem(RefusePath(m, path, id, sessions, outcome).0);
            (forall after :: Recorded(Execute(refused, after).slot, path)) <==> outcome == Confirmed
  {
    hide Execute, ScanFrom, GoodLog, GoodSlot, CoversLog, SoundProgress, ReliableSessions;
    RefusePathKeeps(m, path, id, sessions, outcome);
    var m' := RefusePath(m, path, id, sessions, outcome).0;
    var refused := AsSystem(m');
    if outcome == Confirmed {
      assert refused.log[|m.log|] == Refused(path, id, sessions, Confirmed);
      forall after ensures Recorded(Execute(refused, after).slot, path) {
        AcknowledgedStaysHeld(refused, after, |m.log|);
      }
    } else {
      var v := LosingVisit(m', path, id);
      ExecuteScan(refused, [v]);
      assert !Recorded(Execute(refused, [Scan([v])]).slot, path);
    }
  }
}
