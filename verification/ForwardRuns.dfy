/** Whole runs of forward capture: enablement, scans, process exits and machine crashes in any order.

    A process that dies in the middle of a scan is a scan over the callbacks it completed followed by
    `Stop`; one that dies inside a state write is a write that failed, before or after its rename. */
module ForwardRuns {
  import opened Options
  import opened Chunk
  import opened DurableSlot
  import opened ForwardState
  import opened Forward

  datatype System = System(tracker: Option<ForwardState>, slot: Slot<ForwardState>, log: seq<Event>)

  datatype Command =
    | Enable(roots: seq<RootState>, readable: bool, now: Instant, baseline: seq<Visit>, verified: bool,
             write: WriteOutcome)
    | Scan(visits: seq<Visit>)
    | Stop
    | PowerLoss(survivor: Option<ForwardState>)

  /** `NewForwardProducer`: an existing state is loaded, never rebuilt. */
  function Enabled(s: System, c: Command): System
    requires c.Enable?
  {
    var stopped := s.(tracker := None);
    if !OrderedRoots(c.roots) || !c.readable then stopped
    else if s.slot.visible.Some? then
      var state := s.slot.visible.value;
      if !ValidState(state) || state.roots != c.roots then stopped
      else System(Some(state), s.slot, s.log + [Loaded(state)])
    else
      var base := BaselineFrom(FreshState(c.now, c.roots), c.baseline);
      if base.None? || !c.verified then stopped
      else
        System(if c.write.Confirmed? then base else None, s.slot.Write(base.value, c.write),
               s.log + [Baselined(base.value, c.write)])
  }

  /** The constructor as the source writes it, with the baseline built by the walking loop. */
  method NewForwardProducer(s: System, c: Command) returns (r: System)
    requires c.Enable?
    ensures r == Enabled(s, c)
  {
    r := s.(tracker := None);
    if !OrderedRoots(c.roots) || !c.readable {
      return;
    }
    if s.slot.visible.Some? {
      var state := s.slot.visible.value;
      if !ValidState(state) || state.roots != c.roots {
        return;
      }
      return System(Some(state), s.slot, s.log + [Loaded(state)]);
    }
    var base := BaselinePaths(FreshState(c.now, c.roots), c.baseline);
    if base.None? || !c.verified {
      return;
    }
    r := System(None, s.slot.Write(base.value, c.write), s.log + [Baselined(base.value, c.write)]);
    if c.write.Confirmed? {
      r := r.(tracker := base);
    }
  }

  function Apply(s: System, c: Command): System {
    match c
    case Enable(_, _, _, _, _, _) => Enabled(s, c)
    case Scan(visits) =>
      if s.tracker.None? then s
      else
        var m := ScanFrom(Machine(s.tracker.value, s.slot, s.log), visits, 0).machine;
        System(Some(m.state), m.slot, m.log)
    case Stop => s.(tracker := None)
    case PowerLoss(survivor) =>
      if survivor in s.slot.survivors then System(None, s.slot.Crash(survivor), s.log) else s
  }

  function Execute(s: System, commands: seq<Command>): System
    decreases |commands|
  {
    if commands == [] then s
    else Apply(Execute(s, commands[..|commands| - 1]), commands[|commands| - 1])
  }

  const FIRST_BOOT := System(None, Slot(None, {None}), [])

  // ---- What is claimed of every run -----------------------------------------------------------

  /** The exclusions acknowledged by an event whose state write returned nil. */
  predicate Covers(s: ForwardState, e: Event) {
    match e
    case Baselined(b, Confirmed) => ExclusionsWithin(b, s)
    case Refused(path, id, sessions, Confirmed) =>
      path in s.excludedPaths && id in s.excludedObjects && ReliableSessions(sessions) <= s.excludedSessions
    case _ => true
  }

  predicate CoversLog(s: ForwardState, log: seq<Event>) {
    forall i :: 0 <= i < |log| ==> Covers(s, log[i])
  }

  /** The sink accepted exactly the chunks of a snapshot of `path` with this digest. */
  predicate Uploaded(log: seq<Event>, path: CleanPath, digest: Digest) {
    exists i :: 0 <= i < |log| && log[i].Upserted? && log[i].accepted && log[i].path == path
      && log[i].snapshot.digest == digest && log[i].snapshot.chunks == Some(log[i].chunks)
  }

  predicate SoundProgress(s: ForwardState, log: seq<Event>) {
    forall p :: p in s.progress ==> Uploaded(log, p, s.progress[p])
  }

  /** Everything the contract asks of the uploaded snapshot itself. */
  predicate ForwardUpload(e: Event)
    requires e.Upserted?
  {
    && e.chunks != []
    && e.snapshot.chunks == Some(e.chunks)
    && e.snapshot.identity == e.identity
    && (forall i :: 0 <= i < |e.chunks| ==> Current(e.chunks[i].timestamp, e.cutoff))
    && e.snapshot.inspection.Timed?
    && e.snapshot.inspection.times != []
    && (forall i :: 0 <= i < |e.snapshot.inspection.times| ==> Current(e.snapshot.inspection.times[i], e.cutoff))
  }

  /** The upload touches nothing that these exclusions name. */
  predicate Clear(u: Event, paths: set<CleanPath>, objects: set<Identity>, sessions: set<Session>)
    requires u.Upserted?
  {
    && u.path !in paths
    && u.identity !in objects
    && (forall i :: 0 <= i < |u.chunks| ==> Text.Lower(u.chunks[i].sessionID) !in sessions)
    && !ContainsExcluded(sessions, Sessions(u.snapshot.inspection))
  }

  predicate Avoids(u: Event, e: Event)
    requires u.Upserted?
  {
    match e
    case Baselined(b, Confirmed) => Clear(u, b.excludedPaths, b.excludedObjects, b.excludedSessions)
    case Refused(path, id, sessions, Confirmed) => Clear(u, {path}, {id}, ReliableSessions(sessions))
    case _ => true
  }

  predicate GoodLog(log: seq<Event>) {
    forall k :: 0 <= k < |log| && log[k].Upserted? ==>
      ForwardUpload(log[k]) && forall i :: 0 <= i < k ==> Avoids(log[k], log[i])
  }

  /** A state write that reached the synced directory. */
  predicate Stored(e: Event) {
    (e.Baselined? || e.Acknowledged? || e.Refused?) && (e.outcome.Confirmed? || e.outcome.ConfirmedLate?)
  }

  predicate EverStored(log: seq<Event>) {
    exists i :: 0 <= i < |log| && Stored(log[i])
  }

  /** Uploads after a stored write use the cutoff that is in the state file. */
  predicate CutoffFixed(log: seq<Event>, cutoff: Time) {
    forall i, k :: 0 <= i < k < |log| && Stored(log[i]) && log[k].Upserted? ==> log[k].cutoff == cutoff
  }

  /** What holds of every state value that is live in memory or may come back from disk. */
  predicate GoodState(s: ForwardState, log: seq<Event>, cutoff: Time) {
    ValidState(s) && CoversLog(s, log) && SoundProgress(s, log) && s.cutoff == cutoff
  }

  ghost predicate GoodSlot(slot: Slot<ForwardState>, log: seq<Event>) {
    && slot.Valid()
    && (slot.visible.None? ==> slot.survivors == {None})
    && (EverStored(log) ==> None !in slot.survivors)
    && (slot.visible.Some? ==>
          && CutoffFixed(log, slot.visible.value.cutoff)
          && forall x :: x in slot.survivors && x.Some? ==> GoodState(x.value, log, slot.visible.value.cutoff))
  }

  ghost predicate Invariant(s: System) {
    && GoodLog(s.log)
    && GoodSlot(s.slot, s.log)
    && (s.tracker.Some? ==>
          && s.slot.visible.Some?
          && GoodState(s.tracker.value, s.log, s.slot.visible.value.cutoff)
          && ExclusionsWithin(s.tracker.value, s.slot.visible.value))
  }

  ghost predicate Running(m: Machine) {
    Invariant(System(Some(m.state), m.slot, m.log))
  }

  // ---- Preservation, from one write up to whole runs ------------------------------------------

  lemma ExtendsSoundProgress(s: ForwardState, log: seq<Event>, e: Event)
    requires SoundProgress(s, log)
    ensures SoundProgress(s, log + [e])
  {
    forall p | p in s.progress ensures Uploaded(log + [e], p, s.progress[p]) {
      var i :| 0 <= i < |log| && log[i].Upserted? && log[i].accepted && log[i].path == p
        && log[i].snapshot.digest == s.progress[p] && log[i].snapshot.chunks == Some(log[i].chunks);
      assert (log + [e])[i] == log[i];
    }
  }

  lemma ExtendsGoodState(s: ForwardState, log: seq<Event>, e: Event, cutoff: Time)
    requires GoodState(s, log, cutoff) && Covers(s, e)
    ensures GoodState(s, log + [e], cutoff)
  {
    ExtendsSoundProgress(s, log, e);
  }

  lemma ExtendsGoodLog(log: seq<Event>, e: Event)
    requires GoodLog(log)
    requires e.Upserted? ==> ForwardUpload(e) && forall i :: 0 <= i < |log| ==> Avoids(e, log[i])
    ensures GoodLog(log + [e])
  {
  }

  lemma StoredExtension(log: seq<Event>, e: Event)
    ensures EverStored(log + [e]) <==> EverStored(log) || Stored(e)
  {
    if EverStored(log) {
      var i :| 0 <= i < |log| && Stored(log[i]);
      assert (log + [e])[i] == log[i];
    }
    if Stored(e) {
      assert (log + [e])[|log|] == e;
    }
  }

  lemma CutoffExtension(log: seq<Event>, e: Event, cutoff: Time)
    requires CutoffFixed(log, cutoff)
    requires e.Upserted? ==> e.cutoff == cutoff
    ensures CutoffFixed(log + [e], cutoff)
  {
  }

  /** A state write by a running tracker, whatever its outcome. */
  lemma PersistKeeps(m: Machine, next: ForwardState, e: Event, outcome: WriteOutcome)
    requires Running(m)
    requires e.Acknowledged? || e.Refused?
    requires e.outcome == outcome && Covers(next, e)
    requires GoodState(next, m.log, m.state.cutoff) && ExclusionsWithin(m.state, next)
    ensures Running(Persist(m, next, e, outcome).0)
  {
    var cutoff := m.state.cutoff;
    var slot := m.slot.Write(next, outcome);
    var log := m.log + [e];
    ExtendsGoodLog(m.log, e);
    StoredExtension(m.log, e);
    CutoffExtension(m.log, e, cutoff);
    ExtendsGoodState(next, m.log, e, cutoff);
    if !outcome.Confirmed? {
      ExtendsGoodState(m.state, m.log, e, cutoff);
    }
    forall x | x in slot.survivors && x.Some? ensures GoodState(x.value, log, cutoff) {
      if x != Some(next) {
        ExtendsGoodState(x.value, m.log, e, cutoff);
      }
    }
  }

  lemma RefusalIsGood(s: ForwardState, log: seq<Event>, path: CleanPath, id: Identity, sessions: seq<Session>)
    requires GoodState(s, log, s.cutoff)
    ensures GoodState(Refusing(s, path, id, sessions), log, s.cutoff)
  {
    var next := Refusing(s, path, id, sessions);
    forall x | x in next.excludedSessions ensures Text.Trim(x) != "" {
      if x !in s.excludedSessions {
        var session :| session in sessions && Reliable(Normal(session)) && x == Normal(session);
        ReliableIsNotBlank(session);
      }
    }
    assert forall i :: 0 <= i < |log| ==> Covers(s, log[i]);
  }

  lemma RefusePathKeeps(m: Machine, path: CleanPath, id: Identity, sessions: seq<Session>, outcome: WriteOutcome)
    requires Running(m)
    ensures Running(RefusePath(m, path, id, sessions, outcome).0)
  {
    RefusalIsGood(m.state, m.log, path, id, sessions);
    PersistKeeps(m, Refusing(m.state, path, id, sessions), Refused(path, id, sessions, outcome), outcome);
  }

  /** A state that covers an event keeps every upload it lets through clear of it. */
  lemma CoveringAvoids(s: ForwardState, u: Event, e: Event)
    requires u.Upserted? && Covers(s, e)
    requires Clear(u, s.excludedPaths, s.excludedObjects, s.excludedSessions)
    ensures Avoids(u, e)
  {
  }

  /** Logging an upload that the state lets through. */
  lemma SendKeeps(m: Machine, u: Event)
    requires Running(m) && u.Upserted? && ForwardUpload(u) && u.cutoff == m.state.cutoff
    requires Clear(u, m.state.excludedPaths, m.state.excludedObjects, m.state.excludedSessions)
    ensures Running(m.(log := m.log + [u]))
  {
    hide ForwardUpload, Clear, ValidState;
    var cutoff := m.state.cutoff;
    forall i | 0 <= i < |m.log| ensures Avoids(u, m.log[i]) {
      assert Covers(m.state, m.log[i]);
      CoveringAvoids(m.state, u, m.log[i]);
    }
    ExtendsGoodLog(m.log, u);
    StoredExtension(m.log, u);
    CutoffExtension(m.log, u, cutoff);
    ExtendsGoodState(m.state, m.log, u, cutoff);
    forall x | x in m.slot.survivors && x.Some? ensures GoodState(x.value, m.log + [u], cutoff) {
      ExtendsGoodState(x.value, m.log, u, cutoff);
    }
  }

  lemma ProgressIsGood(s: ForwardState, log: seq<Event>, path: CleanPath, digest: Digest)
    requires GoodState(s, log, s.cutoff) && Uploaded(log, path, digest)
    ensures GoodState(s.(progress := s.progress[path := digest]), log, s.cutoff)
  {
    var next := s.(progress := s.progress[path := digest]);
    forall i | 0 <= i < |log| ensures Covers(next, log[i]) {
      assert Covers(s, log[i]);
    }
  }

  lemma UploadKeeps(m: Machine, v: Visit, s: Snapshot, chunks: seq<Chunk>)
    requires Running(m)
    requires v.path !in m.state.excludedPaths && s.identity !in m.state.excludedObjects
    requires Classify(s.inspection, m.state.cutoff) == Accept
    requires !ContainsExcluded(m.state.excludedSessions, Sessions(s.inspection))
    requires s.chunks == Some(chunks) && chunks != [] && FirstStale(chunks, m.state) == |chunks|
    ensures Running(Upload(m, v, s, chunks).0)
  {
    var u := Upserted(v.path, s.identity, s, chunks, v.accepted, m.state.cutoff);
    assert ForwardUpload(u);
    SendKeeps(m, u);
    var sent := m.(log := m.log + [u]);
    if v.accepted {
      hide GoodLog, GoodSlot, FirstStale, Classify;
      assert sent.log[|m.log|] == u;
      ProgressIsGood(m.state, sent.log, v.path, s.digest);
      PersistKeeps(sent, m.state.(progress := m.state.progress[v.path := s.digest]),
                   Acknowledged(v.path, s.digest, v.write), v.write);
    }
  }

  lemma VisitKeeps(m: Machine, v: Visit, seen: nat)
    requires Running(m)
    ensures Running(VisitOne(m, v, seen).machine)
  {
    hide Running, RefusePath, Upload, FirstStale, Classify, ContainsExcluded;
    if Candidate(v) && !ExcludedVisit(m.state, v) && v.identity.Some? && v.snapshot.Some? {
      var s := v.snapshot.value;
      RefusePathKeeps(m, v.path, s.identity, Sessions(s.inspection), v.write);
      if s.chunks.Some? && s.chunks.value != [] {
        var chunks := s.chunks.value;
        var bad := FirstStale(chunks, m.state);
        if bad < |chunks| {
          RefusePathKeeps(m, v.path, s.identity, Sessions(s.inspection) + [chunks[bad].sessionID], v.write);
        } else if s.identity == v.identity.value && Classify(s.inspection, m.state.cutoff) == Accept
                  && !ContainsExcluded(m.state.excludedSessions, Sessions(s.inspection)) {
          UploadKeeps(m, v, s, chunks);
        }
      }
    }
  }

  lemma {:induction false} ScanKeeps(m: Machine, visits: seq<Visit>, seen: nat)
    requires Running(m)
    ensures Running(ScanFrom(m, visits, seen).machine)
    decreases |visits|
  {
    if visits != [] {
      VisitKeeps(m, visits[0], seen);
      var head := VisitOne(m, visits[0], seen);
      if !head.result.Failed? {
        ScanKeeps(head.machine, visits[1..], head.seen);
      }
    }
  }

  lemma {:induction false} BaselineIsValid(s: ForwardState, visits: seq<Visit>)
    requires ValidState(s) && s.progress == map[]
    ensures var b := BaselineFrom(s, visits);
            b.Some? ==> ValidState(b.value) && ExclusionsWithin(s, b.value)
    ensures var b := BaselineFrom(s, visits);
            b.Some? ==> b.value == s.(excludedPaths := b.value.excludedPaths,
                                      excludedObjects := b.value.excludedObjects,
                                      excludedSessions := b.value.excludedSessions)
    decreases |visits|
  {
    if visits != [] {
      SessionFromPathIsNotBlank(visits[0].path);
      var next := BaselineOne(s, visits[0]);
      if next.Some? {
        BaselineIsValid(next.value, visits[1..]);
      }
    }
  }

  lemma NothingStoredYet(s: ForwardState, log: seq<Event>)
    requires !EverStored(log)
    ensures CoversLog(s, log) && CutoffFixed(log, s.cutoff)
  {
  }

  lemma EnableKeeps(s: System, c: Command)
    requires Invariant(s) && c.Enable?
    ensures Invariant(Enabled(s, c))
  {
    if !OrderedRoots(c.roots) || !c.readable {
    } else if s.slot.visible.Some? {
      var state := s.slot.visible.value;
      var e := Loaded(state);
      ExtendsGoodLog(s.log, e);
      StoredExtension(s.log, e);
      CutoffExtension(s.log, e, state.cutoff);
      forall x | x in s.slot.survivors && x.Some? ensures GoodState(x.value, s.log + [e], state.cutoff) {
        ExtendsGoodState(x.value, s.log, e, state.cutoff);
      }
    } else {
      BaselineIsValid(FreshState(c.now, c.roots), c.baseline);
      var base := BaselineFrom(FreshState(c.now, c.roots), c.baseline);
      if base.Some? && c.verified {
        var e := Baselined(base.value, c.write);
        ExtendsGoodLog(s.log, e);
        StoredExtension(s.log, e);
        assert s.slot.survivors == {None};
        NothingStoredYet(base.value, s.log);
        CutoffExtension(s.log, e, base.value.cutoff);
        ExtendsGoodState(base.value, s.log, e, base.value.cutoff);
      }
    }
  }

  /** One command of any kind keeps the invariant. */
  lemma ApplyKeeps(s: System, c: Command)
    requires Invariant(s)
    ensures Invariant(Apply(s, c))
  {
    match c
    case Enable(_, _, _, _, _, _) => EnableKeeps(s, c);
    case Scan(visits) =>
      if s.tracker.Some? {
        ScanKeeps(Machine(s.tracker.value, s.slot, s.log), visits, 0);
      }
    case Stop =>
    case PowerLoss(survivor) =>
  }

  /** The invariant holds after every run from a machine that has never been enabled. */
  lemma {:induction false} RunInvariant(commands: seq<Command>)
    ensures Invariant(Execute(FIRST_BOOT, commands))
    decreases |commands|
  {
    if commands != [] {
      RunInvariant(commands[..|commands| - 1]);
      ApplyKeeps(Execute(FIRST_BOOT, commands[..|commands| - 1]), commands[|commands| - 1]);
    }
  }
}
