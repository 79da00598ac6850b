/** Acknowledged snapshots are not resubmitted, over whole runs (docs/NATIVE_COMPATIBILITY_CONTRACT.md:54-56). */
module ForwardProgress {
  import opened Options
  import opened Chunk
  import opened DurableSlot
  import opened ForwardState
  import opened Forward
  import opened ForwardRuns

  /** After position i the sink accepted another version of the file. */
  predicate Superseded(log: seq<Event>, i: nat, path: CleanPath, digest: Digest) {
    exists j :: i < j < |log| && log[j].Upserted? && log[j].accepted && log[j].path == path
      && log[j].snapshot.digest != digest
  }

  predicate AcknowledgedAt(log: seq<Event>, i: nat) {
    i < |log| && log[i].Acknowledged? && log[i].outcome == Confirmed
  }

  predicate Recalls(s: ForwardState, path: CleanPath, digest: Digest) {
    path in s.progress && s.progress[path] == digest
  }

  /** The state knows every acknowledged snapshot that no other version has replaced. */
  ghost predicate Remembers(s: ForwardState, log: seq<Event>) {
    forall i: nat :: AcknowledgedAt(log, i) ==>
      Recalls(s, log[i].path, log[i].digest) || Superseded(log, i, log[i].path, log[i].digest)
  }

  /** An upsert of an acknowledged snapshot has another accepted version between. */
  ghost predicate NoResubmission(log: seq<Event>) {
    forall i: nat, k: nat :: Resubmits(log, i, k) ==> Superseded(log[..k], i, log[i].path, log[i].digest)
  }

  /** The event uploads the snapshot acknowledged at i. */
  predicate AcknowledgesSame(log: seq<Event>, i: nat, e: Event) {
    && AcknowledgedAt(log, i) && e.Upserted?
    && log[i].path == e.path && log[i].digest == e.snapshot.digest
  }

  predicate Resubmits(log: seq<Event>, i: nat, k: nat) {
    i < k < |log| && AcknowledgesSame(log, i, log[k])
  }

  ghost predicate Mindful(s: System) {
    && NoResubmission(s.log)
    && (s.tracker.Some? ==> Remembers(s.tracker.value, s.log))
    && (s.slot.visible.Some? ==> Remembers(s.slot.visible.value, s.log))
    && (forall x :: x in s.slot.survivors && x.Some? ==> Remembers(x.value, s.log))
  }

  // ---- One more event -------------------------------------------------------------------------

  lemma SupersededLater(log: seq<Event>, e: Event, i: nat, path: CleanPath, digest: Digest)
    requires Superseded(log, i, path, digest)
    ensures Superseded(log + [e], i, path, digest)
  {
    var j :| i < j < |log| && log[j].Upserted? && log[j].accepted && log[j].path == path
      && log[j].snapshot.digest != digest;
    assert (log + [e])[j] == log[j];
  }

  /** An event that acknowledges nothing leaves every memory good. */
  lemma RemembersMore(s: ForwardState, log: seq<Event>, e: Event)
    requires Remembers(s, log)
    requires e.Acknowledged? && e.outcome == Confirmed ==> Recalls(s, e.path, e.digest)
    ensures Remembers(s, log + [e])
  {
    hide Superseded;
    var next := log + [e];
    forall i: nat | AcknowledgedAt(next, i)
      ensures Recalls(s, next[i].path, next[i].digest) || Superseded(next, i, next[i].path, next[i].digest)
    {
      if i < |log| {
        assert next[i] == log[i] && AcknowledgedAt(log, i);
        if Superseded(log, i, log[i].path, log[i].digest) {
          SupersededLater(log, e, i, log[i].path, log[i].digest);
        }
      }
    }
  }

  lemma NoResubmissionMore(log: seq<Event>, e: Event)
    requires NoResubmission(log)
    requires forall i: nat :: AcknowledgesSame(log, i, e) ==> Superseded(log, i, log[i].path, log[i].digest)
    ensures NoResubmission(log + [e])
  {
    hide Superseded;
    var next := log + [e];
    forall i: nat, k: nat | Resubmits(next, i, k) ensures Superseded(next[..k], i, next[i].path, next[i].digest) {
      assert next[i] == log[i] && AcknowledgedAt(log, i);
      if k < |log| {
        assert next[k] == log[k] && Resubmits(log, i, k) && next[..k] == log[..k];
      } else {
        assert next[..k] == log;
      }
    }
  }

  // ---- Steps ----------------------------------------------------------------------------------

  function AsSystem(m: Machine): System {
    System(Some(m.state), m.slot, m.log)
  }

  lemma PersistIsMindful(m: Machine, next: ForwardState, e: Event, outcome: WriteOutcome)
    requires Mindful(AsSystem(m)) && Remembers(next, m.log)
    requires (e.Acknowledged? || e.Refused?) && e.outcome == outcome
    requires e.Acknowledged? ==> Recalls(next, e.path, e.digest)
    ensures Mindful(AsSystem(Persist(m, next, e, outcome).0))
  {
    hide Remembers, NoResubmission, Recalls;
    NoResubmissionMore(m.log, e);
    RemembersMore(next, m.log, e);
    if outcome != Confirmed {
      RemembersMore(m.state, m.log, e);
      var slot := m.slot.Write(next, outcome);
      if slot.visible != Some(next) && slot.visible.Some? {
        RemembersMore(slot.visible.value, m.log, e);
      }
      forall x | x in slot.survivors && x.Some? ensures Remembers(x.value, m.log + [e]) {
        if x != Some(next) {
          RemembersMore(x.value, m.log, e);
        }
      }
    }
  }

  lemma RefuseIsMindful(m: Machine, path: CleanPath, id: Identity, sessions: seq<Session>, outcome: WriteOutcome)
    requires Mindful(AsSystem(m))
    ensures Mindful(AsSystem(RefusePath(m, path, id, sessions, outcome).0))
  {
    var next := Refusing(m.state, path, id, sessions);
    assert Remembers(next, m.log);
    hide Mindful, Remembers, Persist;
    PersistIsMindful(m, next, Refused(path, id, sessions, outcome), outcome);
  }

  /** Logging an upload of a snapshot that memory does not hold as acknowledged. */
  lemma SendIsMindful(m: Machine, u: Event)
    requires Mindful(AsSystem(m)) && u.Upserted? && !Recalls(m.state, u.path, u.snapshot.digest)
    ensures Mindful(AsSystem(m.(log := m.log + [u])))
  {
    assert forall i: nat :: AcknowledgesSame(m.log, i, u) ==> Superseded(m.log, i, m.log[i].path, m.log[i].digest);
    hide Remembers, NoResubmission, Recalls;
    NoResubmissionMore(m.log, u);
    RemembersMore(m.state, m.log, u);
    if m.slot.visible.Some? {
      RemembersMore(m.slot.visible.value, m.log, u);
    }
    forall x | x in m.slot.survivors && x.Some? ensures Remembers(x.value, m.log + [u]) {
      RemembersMore(x.value, m.log, u);
    }
  }

  /** Recording a digest that was just accepted forgets only what that upload supersedes. */
  lemma RecordedIsRemembered(s: ForwardState, log: seq<Event>, path: CleanPath, digest: Digest)
    requires Remembers(s, log) && log != []
    requires var u := log[|log| - 1];
             u.Upserted? && u.accepted && u.path == path && u.snapshot.digest == digest
    ensures Remembers(s.(progress := s.progress[path := digest]), log)
  {
    var next := s.(progress := s.progress[path := digest]);
    forall i: nat | AcknowledgedAt(log, i)
      ensures Recalls(next, log[i].path, log[i].digest) || Superseded(log, i, log[i].path, log[i].digest)
    {
      if log[i].path == path && log[i].digest != digest {
        assert i < |log| - 1;
      }
    }
  }

  lemma UploadIsMindful(m: Machine, v: Visit, s: Snapshot, chunks: seq<Chunk>)
    requires Mindful(AsSystem(m)) && !Recalls(m.state, v.path, s.digest)
    ensures Mindful(AsSystem(Upload(m, v, s, chunks).0))
  {
    var u := Upserted(v.path, s.identity, s, chunks, v.accepted, m.state.cutoff);
    SendIsMindful(m, u);
    hide Remembers, NoResubmission, Persist;
    var sent := m.(log := m.log + [u]);
    if v.accepted {
      var next := m.state.(progress := m.state.progress[v.path := s.digest]);
      RecordedIsRemembered(m.state, sent.log, v.path, s.digest);
      PersistIsMindful(sent, next, Acknowledged(v.path, s.digest, v.write), v.write);
    }
  }

  lemma VisitIsMindful(m: Machine, v: Visit, seen: nat)
    requires Mindful(AsSystem(m))
    ensures Mindful(AsSystem(VisitOne(m, v, seen).machine))
  {
    hide Mindful, RefusePath, Upload, FirstStale, Classify, ContainsExcluded;
    if v.snapshot.Some? {
      var s := v.snapshot.value;
      RefuseIsMindful(m, v.path, s.identity, Sessions(s.inspection), v.write);
      if s.chunks.Some? {
        var chunks := s.chunks.value;
        if !Recalls(m.state, v.path, s.digest) {
          UploadIsMindful(m, v, s, chunks);
        }
        var bad := FirstStale(chunks, m.state);
        if bad < |chunks| {
          RefuseIsMindful(m, v.path, s.identity, Sessions(s.inspection) + [chunks[bad].sessionID], v.write);
        }
      }
    }
  }

  lemma {:induction false} ScanIsMindful(m: Machine, visits: seq<Visit>, seen: nat)
    requires Mindful(AsSystem(m))
    ensures Mindful(AsSystem(ScanFrom(m, visits, seen).machine))
    decreases |visits|
  {
    hide Mindful, VisitOne;
    if visits != [] {
      VisitIsMindful(m, visits[0], seen);
      var head := VisitOne(m, visits[0], seen);
      if !head.result.Failed? {
        ScanIsMindful(head.machine, visits[1..], head.seen);
      }
    }
  }

  lemma PlainEvent(s: System, e: Event)
    requires Mindful(s) && (e.Loaded? || e.Baselined?)
    ensures Mindful(s.(log := s.log + [e]))
  {
    hide Remembers, NoResubmission;
    NoResubmissionMore(s.log, e);
    if s.tracker.Some? {
      RemembersMore(s.tracker.value, s.log, e);
    }
    if s.slot.visible.Some? {
      RemembersMore(s.slot.visible.value, s.log, e);
    }
    forall x | x in s.slot.survivors && x.Some? ensures Remembers(x.value, s.log + [e]) {
      RemembersMore(x.value, s.log, e);
    }
  }

  /** A state built on an empty disk has nothing to remember. */
  lemma NothingToRemember(s: System, state: ForwardState)
    requires Invariant(s) && s.slot.visible.None?
    ensures Remembers(state, s.log)
  {
    hide GoodLog;
    assert !EverStored(s.log);
    forall i: nat ensures !AcknowledgedAt(s.log, i) {
      AcknowledgedIsStored(s.log, i);
    }
  }

  lemma AcknowledgedIsStored(log: seq<Event>, i: nat)
    ensures AcknowledgedAt(log, i) ==> EverStored(log)
  {
    if AcknowledgedAt(log, i) {
      assert Stored(log[i]);
    }
  }

  lemma EnableIsMindful(s: System, c: Command)
    requires Invariant(s) && Mindful(s) && c.Enable?
    ensures Mindful(Enabled(s, c))
  {
    hide Invariant, Remembers, NoResubmission, BaselineFrom, ValidState, OrderedRoots;
    var s' := Enabled(s, c);
    if s.slot.visible.Some? {
      PlainEvent(s, Loaded(s.slot.visible.value));
    } else {
      var base := BaselineFrom(FreshState(c.now, c.roots), c.baseline);
      if base.Some? {
        NothingToRemember(s, base.value);
        PlainEvent(s, Baselined(base.value, c.write));
        RemembersMore(base.value, s.log, Baselined(base.value, c.write));
      }
    }
  }

  lemma ApplyIsMindful(s: System, c: Command)
    requires Invariant(s) && Mindful(s)
    ensures Mindful(Apply(s, c))
  {
    hide Invariant, Remembers, NoResubmission, ScanFrom, Enabled;
    match c {
      case Enable(_, _, _, _, _, _) => EnableIsMindful(s, c);
      case Scan(visits) =>
        if s.tracker.Some? {
          ScanIsMindful(Machine(s.tracker.value, s.slot, s.log), visits, 0);
        }
      case _ =>
    }
  }

  lemma {:induction false} RunIsMindful(commands: seq<Command>)
    ensures Mindful(Execute(FIRST_BOOT, commands))
    decreases |commands|
  {
    if commands != [] {
      hide Mindful, Invariant, Apply;
      var n := |commands| - 1;
      RunIsMindful(commands[..n]);
      RunInvariant(commands[..n]);
      ApplyIsMindful(Execute(FIRST_BOOT, commands[..n]), commands[n]);
    }
  }

  /** In every run, restarts and crashes included: between an acknowledgement that returned nil and a later
      upsert of the same file with the same digest, the sink accepted another version of that file. */
  lemma AcknowledgedIsNotResubmitted(commands: seq<Command>, i: nat, k: nat)
    requires Resubmits(Execute(FIRST_BOOT, commands).log, i, k)
    ensures var log := Execute(FIRST_BOOT, commands).log;
            exists j :: i < j < k && log[j].Upserted? && log[j].accepted && log[j].path == log[i].path
              && log[j].snapshot.digest != log[i].digest
  {
    hide Execute, Remembers;
    RunIsMindful(commands);
    var log := Execute(FIRST_BOOT, commands).log;
    assert Superseded(log[..k], i, log[i].path, log[i].digest);
    var j :| i < j < |log[..k]| && log[..k][j].Upserted? && log[..k][j].accepted && log[..k][j].path == log[i].path
      && log[..k][j].snapshot.digest != log[i].digest;
    assert log[j] == log[..k][j];
  }
}
