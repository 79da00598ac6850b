/** Excluded sessions over whole runs: which uploads can still carry one, and what the second test of
    `processForwardPath` is left to find (internal/history/watch/forward.go:412-438). */
module ForwardSessions {
  import opened Options
  import opened Chunk
  import opened Text
  import opened DurableSlot
  import opened ForwardState
  import opened Forward
  import opened ForwardRuns
  import opened ForwardGuarantees
  import opened ForwardBaseline
  import opened ForwardStarts
  import opened ForwardCutoff
  import opened Assembly
  import opened Eligibility
  import opened Capture
  import opened CaptureSessions
  import Codex
  import Gemini

  // ---- Uploads --------------------------------------------------------------------------------

  /** The sessions an acknowledged event excludes. */
  function ExcludedBy(e: Event): set<Session>
    requires AcknowledgedExclusion(e)
  {
    if e.Baselined? then e.state.excludedSessions else ReliableSessions(e.sessions)
  }

  lemma UploadWasAccepted(u: Event, style: Style, source: Source)
    requires u.Upserted? && ForwardUpload(u) && SnapshotOf(u.snapshot, style, u.path, source)
    ensures Accepts(u.path, source, u.cutoff) && u.chunks == ChunksOf(style, source)
  {
    hide Inspect, ChunksOf, Current;
  }

  /** An upload that is clear of some sessions as the two tests compare them is clear of them once
      normalised, if and only if its source has no escaping event. */
  lemma ClearUploadEscapesExactly(u: Event, excluded: set<Session>, style: Style, source: Source)
    requires u.Upserted? && ForwardUpload(u) && SnapshotOf(u.snapshot, style, u.path, source)
    requires !ContainsExcluded(excluded, Sessions(u.snapshot.inspection))
    requires forall i :: 0 <= i < |u.chunks| ==> Lower(u.chunks[i].sessionID) !in excluded
    ensures NoneExcluded(excluded, u.chunks) <==> !Escapes(source, excluded)
  {
    hide Inspect, ChunksOf, Accepts, Escapes, NoneExcluded, ContainsExcluded, Lower;
    UploadWasAccepted(u, style, source);
    SessionsEscapeExactly(style, u.path, source, u.cutoff, excluded);
  }

  /** In every run, an upload of a parsed source carries no session of an earlier acknowledged baseline or
      refusal - compared trimmed and in lower case - if and only if the source has no escaping event; only
      a Gemini event log can have one. */
  lemma UploadsAvoidExcludedSessionsExactly(commands: seq<Command>, i: nat, k: nat, style: Style, source: Source)
    requires i < k < |Execute(FIRST_BOOT, commands).log|
    requires var log := Execute(FIRST_BOOT, commands).log;
             && AcknowledgedExclusion(log[i]) && log[k].Upserted?
             && SnapshotOf(log[k].snapshot, style, log[k].path, source)
    ensures var log := Execute(FIRST_BOOT, commands).log;
            NoneExcluded(ExcludedBy(log[i]), log[k].chunks) <==> !Escapes(source, ExcludedBy(log[i]))
  {
    hide Execute, ForwardUpload, SnapshotOf, NoneExcluded, Escapes, ContainsExcluded, Lower, ReliableSessions;
    var log := Execute(FIRST_BOOT, commands).log;
    UploadsAreForwardOnly(commands, k);
    assert Avoids(log[k], log[i]);
    ClearUploadEscapesExactly(log[k], ExcludedBy(log[i]), style, source);
  }

  /** The same for the sessions that the paths of existing files name. */
  lemma ExistingSessionsEscapeExactly(before: seq<Command>, c: Command, after: seq<Command>, k: nat, style: Style,
                                      source: Source)
    requires c.Enable? && Execute(FIRST_BOOT, before).slot.visible.None?
    requires Enabled(Execute(FIRST_BOOT, before), c).tracker.Some?
    requires |Execute(FIRST_BOOT, before).log| < k < |Execute(FIRST_BOOT, before + [c] + after).log|
    requires var u := Execute(FIRST_BOOT, before + [c] + after).log[k];
             u.Upserted? && SnapshotOf(u.snapshot, style, u.path, source)
    ensures var sessions := RecognisedSessions(c.baseline);
            NoneExcluded(sessions, Execute(FIRST_BOOT, before + [c] + after).log[k].chunks) <==> !Escapes(source, sessions)
  {
    hide Execute, Enabled, NoneExcluded, Escapes, SnapshotOf, Unblocked, RecognisedPaths, RecognisedObjects,
      RecognisedSessions;
    BaselineIsLogged(before, c, after);
    var log := Execute(FIRST_BOOT, before + [c] + after).log;
    var i := |Execute(FIRST_BOOT, before).log|;
    UploadsAvoidExcludedSessionsExactly(before + [c] + after, i, k, style, source);
    assert ExcludedBy(log[i]) == RecognisedSessions(c.baseline);
  }

  /** The same for everything the uploading producer started with. */
  lemma StartSessionsEscapeExactly(commands: seq<Command>, i: nat, k: nat, style: Style, source: Source)
    requires k < |Execute(FIRST_BOOT, commands).log|
    requires var log := Execute(FIRST_BOOT, commands).log;
             && log[k].Upserted? && StartOf(log, i, k) && SnapshotOf(log[k].snapshot, style, log[k].path, source)
    ensures var log := Execute(FIRST_BOOT, commands).log;
            var sessions := log[i].state.excludedSessions;
            NoneExcluded(sessions, log[k].chunks) <==> !Escapes(source, sessions)
  {
    hide Execute, ForwardUpload, SnapshotOf, NoneExcluded, Escapes, ContainsExcluded, Lower;
    var log := Execute(FIRST_BOOT, commands).log;
    UploadsAreForwardOnly(commands, k);
    UploadsAvoidTheirStart(commands, i, k);
    ClearUploadEscapesExactly(log[k], log[i].state.excludedSessions, style, source);
  }

  // ---- The escaping event ---------------------------------------------------------------------

  const SPACED: Session := " abc"

  lemma SpacedIsStoredTrimmed()
    ensures Normal(SPACED) == "abc" && Lower(SPACED) == SPACED && Reliable("abc")
    ensures ReliableSessions([SPACED]) == {"abc"} && SPACED != "abc"
  {
    assert TrimLeft(SPACED) == TrimLeft("abc") by {
      assert SPACED[1..] == "abc";
    }
    assert TrimRight("abc") == "abc";
    assert Lower("abc") == "abc";
    assert !('0' <= "abc"[0] <= '9');
    assert [SPACED][0] == SPACED;
  }

  function SpacedLog(time: Option<Time>): Source {
    GeminiSource("/p", Gemini.Document("", [], [Gemini.LogEvent(SPACED, "text", time)]))
  }

  /** An event log with an untimed event is refused under the event's session; a current log of the very
      same session then passes both tests, and its chunks carry the session just excluded. */
  lemma SpacedSessionEscapes(style: Style, path: CleanPath, t: Time, cutoff: Time, excluded: set<Session>)
    requires Current(t, cutoff) && ReliableSessions(Sessions(Inspect(path, Parsed(SpacedLog(None), [])))) == excluded
    ensures Classify(Inspect(path, Parsed(SpacedLog(None), [])), cutoff) == Refuse
    ensures Accepts(path, SpacedLog(Some(t)), cutoff) && PassesTests(excluded, path, style, SpacedLog(Some(t)))
    ensures Escapes(SpacedLog(Some(t)), excluded) && !NoneExcluded(excluded, ChunksOf(style, SpacedLog(Some(t))))
  {
    SpacedIsStoredTrimmed();
    VisibleText("text", 0);
    SpacedInspection(path, t);
    hide Inspect, ReliableSessions, Normal, Trim, Lower;
    var source := SpacedLog(Some(t));
    assert EscapingEvent(source.document.events[0], excluded);
    assert Normal("") !in excluded by { EmptyIsNormal(); }
    hide ChunksOf;
    forall c | c in ChunksOf(style, source) ensures Lower(c.sessionID) !in excluded {
      ChunkSessions(style, source, c);
    }
    SessionsEscapeExactly(style, path, source, cutoff, excluded);
  }

  /** Nothing is left for the second test to refuse. */
  lemma NothingStale(state: ForwardState, style: Style, path: CleanPath, source: Source)
    requires Accepts(path, source, state.cutoff) && !source.ClaudeSource?
    requires PassesTests(state.excludedSessions, path, style, source)
    ensures FirstStale(ChunksOf(style, source), state) == |ChunksOf(style, source)|
  {
    hide Accepts, ChunksOf, Inspect, Lower, ContainsExcluded;
    AcceptedTimesAreCurrent(style, path, source, state.cutoff);
    var chunks := ChunksOf(style, source);
    assert forall j :: 0 <= j < |chunks| ==> chunks[j] in chunks;
  }

  /** So the escaping log is uploaded by any producer that refused the first one: the run in full. */
  lemma SpacedLogIsUploaded(m: Machine, style: Style, v: Visit, t: Time)
    requires ValidState(m.state) && m.state.excludedSessions == {"abc"} && Current(t, m.state.cutoff)
    requires Candidate(v) && !ExcludedVisit(m.state, v) && v.identity.Some? && v.closes && v.snapshot.Some?
    requires v.snapshot.value.identity == v.identity.value != NO_IDENTITY && v.path !in m.state.progress
    requires SnapshotOf(v.snapshot.value, style, v.path, SpacedLog(Some(t)))
    ensures var chunks := ChunksOf(style, SpacedLog(Some(t)));
            && ScanFrom(m, [v], 0).machine == Upload(m, v, v.snapshot.value, chunks).0
            && !NoneExcluded(m.state.excludedSessions, chunks)
  {
    hide Candidate, ExcludedVisit, ValidState;
    SpacedInspection(v.path, t);
    SpacedIsStoredTrimmed();
    hide Inspect, ChunksOf, ScanFrom, Upload, FirstStale, NoneExcluded, PassesTests, ReliableSessions, Normal, Trim, Lower;
    var source := SpacedLog(Some(t));
    SpacedSessionEscapes(style, v.path, t, m.state.cutoff, m.state.excludedSessions);
    NothingStale(m.state, style, v.path, source);
    SpacedTests(style, v.path, source, m.state.excludedSessions);
    AcceptedIsUploaded(m, v, ChunksOf(style, source));
  }

  lemma SpacedTests(style: Style, path: CleanPath, source: Source, excluded: set<Session>)
    requires PassesTests(excluded, path, style, source) && !NoneExcluded(excluded, ChunksOf(style, source))
    ensures !ContainsExcluded(excluded, Sessions(Inspect(path, Parsed(source, []))))
    ensures ChunksOf(style, source) != []
  {
    hide Inspect, ChunksOf, ContainsExcluded;
  }

  lemma EmptyIsNormal()
    ensures Normal("") == ""
  {
  }

  lemma SpacedInspection(path: CleanPath, t: Time)
    ensures Inspect(path, Parsed(SpacedLog(None), [])) == Untimed([SPACED])
    ensures Inspect(path, Parsed(SpacedLog(Some(t)), [])) == Timed([t], [""])
  {
    var d := SpacedLog(Some(t)).document;
    assert GeminiTimes(d) == [t];
  }

  // ---- What the second test is left to find ---------------------------------------------------

  /** How sessions are stored: normalised, and never a name the parsers make up. */
  predicate InNormalForm(sessions: set<Session>) {
    forall x :: x in sessions ==> Normal(x) == x && x != "unknown" && x != "gemini-logs"
  }

  ghost predicate AllNormal(s: System) {
    && (s.tracker.Some? ==> InNormalForm(s.tracker.value.excludedSessions))
    && (s.slot.visible.Some? ==> InNormalForm(s.slot.visible.value.excludedSessions))
    && forall x :: x in s.slot.survivors && x.Some? ==> InNormalForm(x.value.excludedSessions)
  }

  lemma RefusedIsNormal(s: ForwardState, path: CleanPath, id: Identity, sessions: seq<Session>)
    requires InNormalForm(s.excludedSessions)
    ensures InNormalForm(Refusing(s, path, id, sessions).excludedSessions)
  {
    hide Normal;
    forall x | x in ReliableSessions(sessions) ensures Normal(x) == x && x != "unknown" && x != "gemini-logs" {
      var session :| session in sessions && Reliable(Normal(session)) && x == Normal(session);
      NormalTwice(session);
    }
  }

  lemma {:induction false} FoundUuid(s: string, i: nat)
    ensures FindUuid(s, i) == "" || IsUuid(FindUuid(s, i))
    decreases |s| - i
  {
    if i + 36 <= |s| && !IsUuid(s[i..i + 36]) {
      FoundUuid(s, i + 1);
    }
  }

  lemma PathSessionIsNormal(path: CleanPath)
    ensures SessionFromPath(path) != "" ==> InNormalForm({SessionFromPath(path)})
  {
    hide Base;
    var found := FindUuid(Base(path), 0);
    FoundUuid(Base(path), 0);
    hide FindUuid;
    if found != "" {
      assert forall i :: 0 <= i < 36 ==> !IsSpace(found[i]);
      TrimNothing(Lower(found));
      LowerTwice(found);
    }
  }

  lemma BaselineIsNormal(s: ForwardState, visits: seq<Visit>)
    requires s.excludedSessions == {}
    ensures InNormalForm(Excluding(s, visits).excludedSessions)
  {
    hide SessionFromPath, Normal;
    forall i | 0 <= i < |visits| && SessionFromPath(visits[i].path) != ""
      ensures InNormalForm({SessionFromPath(visits[i].path)})
    {
      PathSessionIsNormal(visits[i].path);
    }
    forall x | x in RecognisedSessions(visits) ensures Normal(x) == x && x != "unknown" && x != "gemini-logs" {
      var i :| 0 <= i < |visits| && Recognised(visits[i]) && SessionFromPath(visits[i].path) != ""
        && x == SessionFromPath(visits[i].path);
      assert InNormalForm({x});
    }
  }

  function AsSystem(m: Machine): System {
    System(Some(m.state), m.slot, m.log)
  }

  lemma PersistIsNormal(m: Machine, next: ForwardState, e: Event, outcome: WriteOutcome)
    requires AllNormal(AsSystem(m)) && InNormalForm(next.excludedSessions)
    ensures AllNormal(AsSystem(Persist(m, next, e, outcome).0))
  {
    hide InNormalForm;
  }

  lemma RefuseIsNormal(m: Machine, path: CleanPath, id: Identity, sessions: seq<Session>, outcome: WriteOutcome)
    requires AllNormal(AsSystem(m))
    ensures AllNormal(AsSystem(RefusePath(m, path, id, sessions, outcome).0))
  {
    hide InNormalForm, Persist, ReliableSessions;
    RefusedIsNormal(m.state, path, id, sessions);
    PersistIsNormal(m, Refusing(m.state, path, id, sessions), Refused(path, id, sessions, outcome), outcome);
  }

  lemma UploadIsNormal(m: Machine, v: Visit, s: Snapshot, chunks: seq<Chunk>)
    requires AllNormal(AsSystem(m))
    ensures AllNormal(AsSystem(Upload(m, v, s, chunks).0))
  {
    hide InNormalForm, Persist;
    var sent := m.(log := m.log + [Upserted(v.path, s.identity, s, chunks, v.accepted, m.state.cutoff)]);
    if v.accepted {
      PersistIsNormal(sent, m.state.(progress := m.state.progress[v.path := s.digest]),
                      Acknowledged(v.path, s.digest, v.write), v.write);
    }
  }

  lemma VisitIsNormal(m: Machine, v: Visit, seen: nat)
    requires AllNormal(AsSystem(m))
    ensures AllNormal(AsSystem(VisitOne(m, v, seen).machine))
  {
    hide AllNormal, RefusePath, Upload, FirstStale, Classify, ContainsExcluded;
    if v.snapshot.Some? {
      var s := v.snapshot.value;
      RefuseIsNormal(m, v.path, s.identity, Sessions(s.inspection), v.write);
      if s.chunks.Some? {
        var chunks := s.chunks.value;
        UploadIsNormal(m, v, s, chunks);
        var bad := FirstStale(chunks, m.state);
        if bad < |chunks| {
          RefuseIsNormal(m, v.path, s.identity, Sessions(s.inspection) + [chunks[bad].sessionID], v.write);
        }
      }
    }
  }

  lemma {:induction false} ScanIsNormal(m: Machine, visits: seq<Visit>, seen: nat)
    requires AllNormal(AsSystem(m))
    ensures AllNormal(AsSystem(ScanFrom(m, visits, seen).machine))
    decreases |visits|
  {
    hide AllNormal, VisitOne;
    if visits != [] {
      VisitIsNormal(m, visits[0], seen);
      var head := VisitOne(m, visits[0], seen);
      if !head.result.Failed? {
        ScanIsNormal(head.machine, visits[1..], head.seen);
      }
    }
  }

  lemma ApplyIsNormal(s: System, c: Command)
    requires AllNormal(s)
    ensures AllNormal(Apply(s, c))
  {
    hide InNormalForm, ScanFrom, BaselineFrom, ValidState, OrderedRoots;
    match c {
      case Enable(roots, _, now, baseline, _, _) =>
        BaselineIsExact(FreshState(now, roots), baseline);
        BaselineIsNormal(FreshState(now, roots), baseline);
      case Scan(visits) =>
        if s.tracker.Some? {
          ScanIsNormal(Machine(s.tracker.value, s.slot, s.log), visits, 0);
        }
      case _ =>
    }
  }

  /** In every run, what is excluded is stored in normal form, in memory and on disk. */
  lemma {:induction false} ExclusionsAreNormal(commands: seq<Command>)
    ensures AllNormal(Execute(FIRST_BOOT, commands))
    decreases |commands|
  {
    if commands != [] {
      hide AllNormal, Apply;
      ExclusionsAreNormal(commands[..|commands| - 1]);
      ApplyIsNormal(Execute(FIRST_BOOT, commands[..|commands| - 1]), commands[|commands| - 1]);
    }
  }

  /** A session whose lower case is excluded is excluded once normalised. */
  lemma LowerExcludedIsNormal(excluded: set<Session>, session: Session)
    requires InNormalForm(excluded) && Lower(session) in excluded
    ensures Normal(session) == Lower(session)
  {
    NormalTwice(session);
    TrimTwice(Lower(session));
    LowerTrim(Lower(session));
    LowerTwice(session);
  }

  /** In every reachable state, the second test refuses an accepted snapshot that passed the first only for
      the stale reply of a Claude transcript, for the raw session of an event of a Gemini log, or for the
      session a Codex file name ends with. */
  lemma SecondTestFindsOnly(commands: seq<Command>, s: Snapshot, style: Style, path: CleanPath, source: Source, c: Chunk)
    requires Execute(FIRST_BOOT, commands).tracker.Some?
    requires var state := Execute(FIRST_BOOT, commands).tracker.value;
             && SnapshotOf(s, style, path, source) && Classify(s.inspection, state.cutoff) == Accept
             && !ContainsExcluded(state.excludedSessions, Sessions(s.inspection))
             && c in s.chunks.value && Stale(c, state)
    ensures var state := Execute(FIRST_BOOT, commands).tracker.value;
            || (source.ClaudeSource? && HasStaleReply(source.entries, state.cutoff))
            || (IsEventLog(source) && exists i :: EventCarries(source, i, c.sessionID))
            || (source.CodexSource? && c.sessionID == Codex.SessionOfStem(source.stem))
  {
    hide Execute, Inspect, ChunksOf, Collected, HasStaleReply, ContainsExcluded, Normal, Lower, Trim, InNormalForm;
    var state := Execute(FIRST_BOOT, commands).tracker.value;
    ExclusionsAreNormal(commands);
    SecondTestFindsLittle(Machine(state, Slot(None, {}), []), s, style, path, source, c);
    if Lower(c.sessionID) in state.excludedSessions {
      LowerExcludedIsNormal(state.excludedSessions, c.sessionID);
      ChunkSessions(style, source, c);
      if !IsEventLog(source) {
        if Collected(source, c.sessionID) {
          CollectedIsClear(path, source, state.cutoff, state.excludedSessions, c.sessionID);
          assert false;
        } else {
          MadeUpIsNotExcluded(state.excludedSessions);
        }
      }
    }
  }

  lemma MadeUpIsNotExcluded(excluded: set<Session>)
    requires InNormalForm(excluded)
    ensures Lower("unknown") !in excluded
  {
    assert Lower("unknown") == "unknown";
  }
}
