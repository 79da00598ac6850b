/** The forward producer: one directory-walk callback, one scan, and the baseline of first enablement
    (internal/history/watch/forward.go).  Everything outside the process answers through a `Visit`:
    the file tree, the snapshot, the sink and the state write may each change or fail at every step. */
module Forward {
  import opened Options
  import opened Chunk
  import opened DurableSlot
  import opened ForwardState

  const MAX_FILES_PER_SCAN := 1024

  datatype EntryKind = Link | Directory | Irregular | Regular

  datatype Detection = Unsupported | DetectionFailed | Detected

  /** One opened source: the file object, its digest, and what its bytes parse to. */
  datatype Snapshot = Snapshot(
    identity: Identity,
    digest: Digest,
    inspection: Inspection,
    chunks: Option<seq<Chunk>>)   // None: dispatching the snapshot fails

  /** All the answers one walk callback receives. */
  datatype Visit = Visit(
    walked: bool,                 // the walk itself reports no error here
    live: bool,                   // the context is not cancelled
    entry: EntryKind,
    path: CleanPath,
    detection: Detection,
    identity: Option<Identity>,
    snapshot: Option<Snapshot>,
    closes: bool,                 // closing the snapshot succeeds
    accepted: bool,               // the sink accepts the upsert
    write: WriteOutcome)

  datatype ScanError =
    | WalkError | Cancelled | DetectError | IdentityError | SnapshotError | SourceChanged
    | CloseError | DispatchError | SinkError | PersistError | ScanLimit

  datatype ScanResult = Done | Failed(error: ScanError)

  /** What the producer has done, in order. */
  datatype Event =
    | Baselined(state: ForwardState, outcome: WriteOutcome)
    | Loaded(state: ForwardState)
    | Upserted(path: CleanPath, identity: Identity, snapshot: Snapshot, chunks: seq<Chunk>, accepted: bool,
               cutoff: Time)
    | Acknowledged(path: CleanPath, digest: Digest, outcome: WriteOutcome)
    | Refused(path: CleanPath, identity: Identity, sessions: seq<Session>, outcome: WriteOutcome)

  /** A running producer: tracker state in memory, the state file, and its history. */
  datatype Machine = Machine(state: ForwardState, slot: Slot<ForwardState>, log: seq<Event>)

  /** A chunk the second test of `processForwardPath` refuses. */
  predicate Stale(c: Chunk, s: ForwardState) {
    !Current(c.timestamp, s.cutoff) || Text.Lower(c.sessionID) in s.excludedSessions
  }

  function FirstStale(chunks: seq<Chunk>, s: ForwardState): (i: nat)
    ensures i <= |chunks|
    ensures forall k :: 0 <= k < i ==> !Stale(chunks[k], s)
    ensures i < |chunks| ==> Stale(chunks[i], s)
  {
    if chunks == [] then 0
    else if Stale(chunks[0], s) then 0
    else
      var rest := FirstStale(chunks[1..], s);
      assert forall k :: 1 <= k < rest + 1 ==> chunks[k] == chunks[1..][k - 1];
      rest + 1
  }

  function Refusing(s: ForwardState, path: CleanPath, id: Identity, sessions: seq<Session>): (r: ForwardState)
    ensures ExclusionsWithin(s, r) && path in r.excludedPaths && id in r.excludedObjects
  {
    s.(excludedPaths := s.excludedPaths + {path},
       excludedObjects := s.excludedObjects + {id},
       excludedSessions := s.excludedSessions + ReliableSessions(sessions))
  }

  function Persist(m: Machine, next: ForwardState, event: Event, outcome: WriteOutcome): (Machine, ScanResult) {
    var slot := m.slot.Write(next, outcome);
    if outcome.Confirmed? then (Machine(next, slot, m.log + [event]), Done)
    else (Machine(m.state, slot, m.log + [event]), Failed(PersistError))
  }

  function RefusePath(m: Machine, path: CleanPath, id: Identity, sessions: seq<Session>, outcome: WriteOutcome)
    : (Machine, ScanResult)
  {
    Persist(m, Refusing(m.state, path, id, sessions), Refused(path, id, sessions, outcome), outcome)
  }

  function Closing(v: Visit): ScanResult {
    if v.closes then Done else Failed(CloseError)
  }

  function Upload(m: Machine, v: Visit, s: Snapshot, chunks: seq<Chunk>): (Machine, ScanResult) {
    var sent := m.log + [Upserted(v.path, s.identity, s, chunks, v.accepted, m.state.cutoff)];
    if !v.accepted then (m.(log := sent), Failed(SinkError))
    else
      var next := m.state.(progress := m.state.progress[v.path := s.digest]);
      Persist(m.(log := sent), next, Acknowledged(v.path, s.digest, v.write), v.write)
  }

  /** The accepted half of `processForwardPath`: dispatch, second test, upload. */
  function Dispatching(m: Machine, v: Visit, s: Snapshot): (Machine, ScanResult) {
    if s.chunks.None? then (m, Failed(DispatchError))
    else if !v.closes then (m, Failed(CloseError))
    else
      var chunks := s.chunks.value;
      var bad := FirstStale(chunks, m.state);
      if chunks == [] then (m, Done)
      else if bad < |chunks| then
        RefusePath(m, v.path, s.identity, Sessions(s.inspection) + [chunks[bad].sessionID], v.write)
      else Upload(m, v, s, chunks)
  }

  /** `processForwardPath` as a function of the machine and the answers. */
  function ProcessPath(m: Machine, v: Visit, id: Identity): (Machine, ScanResult) {
    if v.snapshot.None? then (m, Failed(SnapshotError))
    else
      var s := v.snapshot.value;
      if s.identity == NO_IDENTITY || s.identity != id then
        (m, if v.closes then Failed(SourceChanged) else Failed(CloseError))
      else if s.identity in m.state.excludedObjects then (m, Closing(v))
      else if v.path in m.state.progress && m.state.progress[v.path] == s.digest then (m, Closing(v))
      else
        match Classify(s.inspection, m.state.cutoff)
        case Wait => (m, Closing(v))
        case Refuse => RefuseClosed(m, v, s)
        case Accept =>
          if ContainsExcluded(m.state.excludedSessions, Sessions(s.inspection)) then RefuseClosed(m, v, s)
          else Dispatching(m, v, s)
  }

  function RefuseClosed(m: Machine, v: Visit, s: Snapshot): (Machine, ScanResult) {
    if !v.closes then (m, Failed(CloseError))
    else RefusePath(m, v.path, s.identity, Sessions(s.inspection), v.write)
  }

  /** The callback reaches the exclusion tests: a recognised regular file. */
  predicate Candidate(v: Visit) {
    v.walked && v.live && v.entry.Regular? && v.detection.Detected?
  }

  predicate ExcludedVisit(s: ForwardState, v: Visit) {
    v.path in s.excludedPaths || (v.identity.Some? && v.identity.value in s.excludedObjects)
  }

  datatype Visited = Visited(machine: Machine, seen: nat, result: ScanResult)

  /** One callback of `scanForward`. */
  function VisitOne(m: Machine, v: Visit, seen: nat): Visited {
    if !v.walked then Visited(m, seen, Failed(WalkError))
    else if !v.live then Visited(m, seen, Failed(Cancelled))
    else if !v.entry.Regular? || v.detection.Unsupported? then Visited(m, seen, Done)
    else if v.detection.DetectionFailed? then Visited(m, seen, Failed(DetectError))
    else if v.path in m.state.excludedPaths then Visited(m, seen, Done)
    else if v.identity.None? then Visited(m, seen, Failed(IdentityError))
    else if v.identity.value in m.state.excludedObjects then Visited(m, seen, Done)
    else if seen + 1 > MAX_FILES_PER_SCAN then Visited(m, seen + 1, Failed(ScanLimit))
    else
      var (m', r) := ProcessPath(m, v, v.identity.value);
      Visited(m', seen + 1, r)
  }

  /** `scanForward`: callbacks in walk order until one fails. */
  function ScanFrom(m: Machine, visits: seq<Visit>, seen: nat): Visited
    decreases |visits|
  {
    if visits == [] then Visited(m, seen, Done)
    else
      var head := VisitOne(m, visits[0], seen);
      if head.result.Failed? then head else ScanFrom(head.machine, visits[1..], head.seen)
  }

  /** The baseline of first enablement adds every recognised regular file; None is an error. */
  function BaselineOne(s: ForwardState, v: Visit): Option<ForwardState> {
    if !v.walked then None
    else if !v.entry.Regular? || v.detection.Unsupported? then Some(s)
    else if v.detection.DetectionFailed? || v.identity.None? then None
    else
      var session := SessionFromPath(v.path);
      Some(s.(excludedPaths := s.excludedPaths + {v.path},
              excludedObjects := s.excludedObjects + {v.identity.value},
              excludedSessions := s.excludedSessions + if session == "" then {} else {session}))
  }

  function BaselineFrom(s: ForwardState, visits: seq<Visit>): Option<ForwardState>
    decreases |visits|
  {
    if visits == [] then Some(s)
    else
      var next := BaselineOne(s, visits[0]);
      if next.None? then None else BaselineFrom(next.value, visits[1..])
  }

  function FreshState(now: Instant, roots: seq<RootState>): ForwardState {
    ForwardState(now, roots, {}, {}, {}, map[])
  }

  /** A file the baseline must exclude: a regular file of a supported source. */
  predicate Recognised(v: Visit) {
    v.entry.Regular? && v.detection.Detected?
  }

  /** The baseline cannot be completed past this entry. */
  predicate Blocks(v: Visit) {
    !v.walked || (v.entry.Regular? && (v.detection.DetectionFailed? || (v.detection.Detected? && v.identity.None?)))
  }

  predicate Unblocked(visits: seq<Visit>) {
    forall i :: 0 <= i < |visits| ==> !Blocks(visits[i])
  }

  function RecognisedPaths(visits: seq<Visit>): set<CleanPath> {
    set i | 0 <= i < |visits| && Recognised(visits[i]) :: visits[i].path
  }

  function RecognisedObjects(visits: seq<Visit>): set<Identity> {
    set i | 0 <= i < |visits| && Recognised(visits[i]) && visits[i].identity.Some? :: visits[i].identity.value
  }

  function RecognisedSessions(visits: seq<Visit>): set<Session> {
    set i | 0 <= i < |visits| && Recognised(visits[i]) && SessionFromPath(visits[i].path) != "" ::
      SessionFromPath(visits[i].path)
  }

  /** The state with every recognised file of the walk excluded. */
  function Excluding(s: ForwardState, visits: seq<Visit>): ForwardState {
    s.(excludedPaths := s.excludedPaths + RecognisedPaths(visits),
       excludedObjects := s.excludedObjects + RecognisedObjects(visits),
       excludedSessions := s.excludedSessions + RecognisedSessions(visits))
  }

  lemma SetsOfFirst(v: Visit, tail: seq<Visit>)
    ensures var visits, one := [v] + tail, [v];
            && RecognisedPaths(visits) == RecognisedPaths(one) + RecognisedPaths(tail)
            && RecognisedObjects(visits) == RecognisedObjects(one) + RecognisedObjects(tail)
            && RecognisedSessions(visits) == RecognisedSessions(one) + RecognisedSessions(tail)
  {
    hide SessionFromPath, Recognised;
    var visits := [v] + tail;
    assert forall i :: 0 <= i < |tail| ==> tail[i] == visits[i + 1];
    assert forall i :: 1 <= i < |visits| ==> visits[i] == tail[i - 1];
    assert visits[0] == [v][0];
  }

  lemma SetsOfOne(s: ForwardState, v: Visit)
    requires BaselineOne(s, v).Some?
    ensures BaselineOne(s, v).value == Excluding(s, [v])
  {
    hide SessionFromPath;
    if Recognised(v) {
      assert [v][0] == v;
    }
  }

  lemma ExcludingFirst(s: ForwardState, visits: seq<Visit>)
    requires visits != [] && BaselineOne(s, visits[0]).Some?
    ensures Excluding(BaselineOne(s, visits[0]).value, visits[1..]) == Excluding(s, visits)
  {
    hide SessionFromPath, BaselineOne, RecognisedPaths, RecognisedObjects, RecognisedSessions;
    assert visits == [visits[0]] + visits[1..];
    SetsOfOne(s, visits[0]);
    SetsOfFirst(visits[0], visits[1..]);
  }

  /** The baseline succeeds exactly when no entry blocks it, and then excludes exactly the recognised
      files of the walk: their paths, their file objects and the sessions their paths name. */
  lemma {:induction false} BaselineIsExact(s: ForwardState, visits: seq<Visit>)
    ensures BaselineFrom(s, visits) == if Unblocked(visits) then Some(Excluding(s, visits)) else None
    decreases |visits|
  {
    hide Excluding, SessionFromPath;
    if visits == [] {
      ExcludingNone(s);
    } else {
      assert visits == [visits[0]] + visits[1..];
      var next := BaselineOne(s, visits[0]);
      if next.Some? {
        BaselineIsExact(next.value, visits[1..]);
        ExcludingFirst(s, visits);
      }
    }
  }

  lemma ExcludingNone(s: ForwardState)
    ensures Excluding(s, []) == s
  {
  }

  ghost predicate ExcludesNamedSessions(initial: ForwardState, visits: seq<Visit>, s: ForwardState) {
    forall session :: session in s.excludedSessions <==>
      || session in initial.excludedSessions
      || exists i :: 0 <= i < |visits| && Recognised(visits[i]) && NamesSession(visits[i].path, session)
  }

  lemma NamedSessionsAreExcluded(initial: ForwardState, visits: seq<Visit>)
    ensures ExcludesNamedSessions(initial, visits, Excluding(initial, visits))
  {
    hide RecognisedSessions, NamesSession, Recognised;
    forall session ensures session in RecognisedSessions(visits) <==>
        exists i :: 0 <= i < |visits| && Recognised(visits[i]) && NamesSession(visits[i].path, session)
    {
      RecognisedSessionsAreNamed(visits, session);
    }
  }

  /** The sessions excluded for a walk are those the paths of its recognised files name. */
  lemma RecognisedSessionsAreNamed(visits: seq<Visit>, session: Session)
    ensures session in RecognisedSessions(visits)
       <==> exists i :: 0 <= i < |visits| && Recognised(visits[i]) && NamesSession(visits[i].path, session)
  {
    hide SessionFromPath, NamesSession;
    forall i | 0 <= i < |visits|
      ensures NamesSession(visits[i].path, session) <==> session != "" && session == SessionFromPath(visits[i].path)
    {
      SessionIsNamedByPath(visits[i].path, session);
    }
  }

  /** `baselineForwardPaths`: the state is changed entry by entry as the walk goes. */
  method BaselinePaths(initial: ForwardState, visits: seq<Visit>) returns (r: Option<ForwardState>)
    ensures r == BaselineFrom(initial, visits)
    ensures r == if Unblocked(visits) then Some(Excluding(initial, visits)) else None
    ensures r.Some? ==> ExcludesNamedSessions(initial, visits, r.value)
  {
    BaselineIsExact(initial, visits);
    NamedSessionsAreExcluded(initial, visits);
    hide Excluding, Unblocked, ExcludesNamedSessions;
    var state := initial;
    var i := 0;
    while i < |visits|
      invariant 0 <= i <= |visits|
      invariant BaselineFrom(initial, visits) == BaselineFrom(state, visits[i..])
    {
      var v := visits[i];
      assert visits[i..][0] == v && visits[i..][1..] == visits[i + 1..];
      i := i + 1;
      if !v.walked {
        return None;
      }
      if !v.entry.Regular? || v.detection.Unsupported? {
        continue;
      }
      if v.detection.DetectionFailed? || v.identity.None? {
        return None;
      }
      state := state.(excludedPaths := state.excludedPaths + {v.path});
      state := state.(excludedObjects := state.excludedObjects + {v.identity.value});
      var session := SessionFromPath(v.path);
      if session != "" {
        state := state.(excludedSessions := state.excludedSessions + {session});
      } else {
        assert state.excludedSessions + {} == state.excludedSessions;
      }
    }
    assert visits[i..] == [];
    return Some(state);
  }

  class Producer {
    var state: ForwardState
    var slot: Slot<ForwardState>
    var log: seq<Event>
    var ready: bool

    ghost function View(): Machine
      reads this
    {
      Machine(state, slot, log)
    }

    constructor (state: ForwardState, slot: Slot<ForwardState>, log: seq<Event>)
      ensures View() == Machine(state, slot, log) && !ready
    {
      this.state := state;
      this.slot := slot;
      this.log := log;
      this.ready := false;
    }

    /** Memory advances only when the write reports nil. */
    method WriteState(next: ForwardState, event: Event, outcome: WriteOutcome) returns (r: ScanResult)
      modifies this
      ensures (View(), r) == Persist(old(View()), next, event, outcome)
      ensures ready == old(ready)
    {
      slot := slot.Write(next, outcome);
      log := log + [event];
      if !outcome.Confirmed? {
        return Failed(PersistError);
      }
      state := next;
      return Done;
    }

    method RefuseForwardPath(path: CleanPath, id: Identity, sessions: seq<Session>, outcome: WriteOutcome)
      returns (r: ScanResult)
      modifies this
      ensures (View(), r) == RefusePath(old(View()), path, id, sessions, outcome)
      ensures ready == old(ready)
    {
      hide Normal, Reliable;
      var next := state;
      next := next.(excludedPaths := next.excludedPaths + {path});
      next := next.(excludedObjects := next.excludedObjects + {id});
      for i := 0 to |sessions|
        invariant state == old(state) && slot == old(slot) && log == old(log) && ready == old(ready)
        invariant next == Refusing(state, path, id, sessions[..i])
      {
        assert sessions[..i + 1] == sessions[..i] + [sessions[i]];
        assert ReliableSessions(sessions[..i + 1]) == ReliableSessions(sessions[..i])
          + if Reliable(Normal(sessions[i])) then {Normal(sessions[i])} else {};
        var session := Normal(sessions[i]);
        if Reliable(session) {
          next := next.(excludedSessions := next.excludedSessions + {session});
        }
      }
      assert sessions[..|sessions|] == sessions;
      r := WriteState(next, Refused(path, id, sessions, outcome), outcome);
    }

    method UploadChunks(v: Visit, s: Snapshot, chunks: seq<Chunk>) returns (r: ScanResult)
      modifies this
      ensures (View(), r) == Upload(old(View()), v, s, chunks)
      ensures ready == old(ready)
    {
      log := log + [Upserted(v.path, s.identity, s, chunks, v.accepted, state.cutoff)];
      if !v.accepted {
        return Failed(SinkError);
      }
      var next := state.(progress := state.progress[v.path := s.digest]);
      r := WriteState(next, Acknowledged(v.path, s.digest, v.write), v.write);
    }

    method DispatchAndUpload(v: Visit, s: Snapshot) returns (r: ScanResult)
      modifies this
      ensures (View(), r) == Dispatching(old(View()), v, s)
      ensures ready == old(ready)
    {
      if s.chunks.None? {
        return Failed(DispatchError);
      }
      if !v.closes {
        return Failed(CloseError);
      }
      var chunks := s.chunks.value;
      if |chunks| == 0 {
        return Done;
      }
      for i := 0 to |chunks|
        invariant View() == old(View()) && ready == old(ready)
        invariant forall k :: 0 <= k < i ==> !Stale(chunks[k], state)
      {
        if Stale(chunks[i], state) {
          assert FirstStale(chunks, state) == i;
          r := RefuseForwardPath(v.path, s.identity, Sessions(s.inspection) + [chunks[i].sessionID], v.write);
          return;
        }
      }
      assert FirstStale(chunks, state) == |chunks|;
      r := UploadChunks(v, s, chunks);
    }

    method ProcessForwardPath(v: Visit, id: Identity) returns (r: ScanResult)
      modifies this
      ensures (View(), r) == ProcessPath(old(View()), v, id)
      ensures ready == old(ready)
    {
      if v.snapshot.None? {
        return Failed(SnapshotError);
      }
      var s := v.snapshot.value;
      if s.identity == NO_IDENTITY || s.identity != id {
        if !v.closes {
          return Failed(CloseError);
        }
        return Failed(SourceChanged);
      }
      if s.identity in state.excludedObjects {
        return Closing(v);
      }
      if v.path in state.progress && state.progress[v.path] == s.digest {
        return Closing(v);
      }
      var verdict := Classify(s.inspection, state.cutoff);
      var excluded := ContainsExcludedSession(state.excludedSessions, Sessions(s.inspection));
      if verdict == Wait {
        return Closing(v);
      }
      if verdict == Refuse || excluded {
        if !v.closes {
          return Failed(CloseError);
        }
        r := RefuseForwardPath(v.path, s.identity, Sessions(s.inspection), v.write);
        return;
      }
      r := DispatchAndUpload(v, s);
    }

    method VisitEntry(v: Visit, seen: nat) returns (seen': nat, r: ScanResult)
      modifies this
      ensures Visited(View(), seen', r) == VisitOne(old(View()), v, seen)
      ensures ready == old(ready)
    {
      seen' := seen;
      if !v.walked {
        return seen, Failed(WalkError);
      }
      if !v.live {
        return seen, Failed(Cancelled);
      }
      if !v.entry.Regular? || v.detection.Unsupported? {
        return seen, Done;
      }
      if v.detection.DetectionFailed? {
        return seen, Failed(DetectError);
      }
      if v.path in state.excludedPaths {
        return seen, Done;
      }
      if v.identity.None? {
        return seen, Failed(IdentityError);
      }
      if v.identity.value in state.excludedObjects {
        return seen, Done;
      }
      seen' := seen + 1;
      if seen' > MAX_FILES_PER_SCAN {
        return seen', Failed(ScanLimit);
      }
      r := ProcessForwardPath(v, v.identity.value);
    }

    /** `scanForward`: readiness reports whether the whole walk ended without an error. */
    method ScanForward(visits: seq<Visit>) returns (r: ScanResult)
      modifies this
      ensures View() == ScanFrom(old(View()), visits, 0).machine
      ensures r == ScanFrom(old(View()), visits, 0).result
      ensures ready == r.Done?
    {
      var seen := 0;
      var i := 0;
      while i < |visits|
        invariant 0 <= i <= |visits|
        invariant ScanFrom(old(View()), visits, 0) == ScanFrom(View(), visits[i..], seen)
      {
        assert visits[i..][0] == visits[i] && visits[i..][1..] == visits[i + 1..];
        seen, r := VisitEntry(visits[i], seen);
        if r.Failed? {
          ready := false;
          return;
        }
        i := i + 1;
      }
      assert visits[i..] == [];
      ready := true;
      return Done;
    }
  }
}
