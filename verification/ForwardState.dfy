/** The persisted state of forward-only capture and the pure tests made on it
    (internal/history/watch/forward.go). */
module ForwardState {
  import opened Text
  import opened Chunk

  type Session = string

  /** A path component that `filepath.Clean` leaves alone, at the front of `rest`. */
  predicate ProperComponent(rest: string) {
    && rest != "" && rest[0] != '/'
    && !(rest[0] == '.' && (|rest| == 1 || rest[1] == '/'))
    && !(|rest| >= 2 && rest[..2] == ".." && (|rest| == 2 || rest[2] == '/'))
  }

  predicate IsCleanAbsolute(path: string) {
    || path == "/"
    || (path != "" && path[0] == '/' &&
        forall i :: 0 <= i < |path| && path[i] == '/' ==> ProperComponent(path[i + 1..]))
  }

  /** The walk hands every callback a cleaned absolute path. */
  type CleanPath = p: string | IsCleanAbsolute(p) witness "/"

  /** The hexadecimal SHA-256 of a snapshot. */
  type Digest = d: string | |d| == 64 && forall i :: 0 <= i < |d| ==> IsHexDigit(d[i])
    witness seq(64, _ => '0')

  /** A clock reading; `time.Now` is never the zero time. */
  type Instant = t: Time | t != ZERO_TIME witness 1

  datatype Identity = Identity(volume: nat, fileObject: nat)

  const NO_IDENTITY := Identity(0, 0)

  datatype RootState = RootState(path: CleanPath, identity: Identity)

  datatype ForwardState = ForwardState(
    cutoff: Time,
    roots: seq<RootState>,
    excludedPaths: set<CleanPath>,
    excludedObjects: set<Identity>,
    excludedSessions: set<Session>,
    progress: map<CleanPath, Digest>)

  predicate OrderedRoots(roots: seq<RootState>) {
    roots != [] && forall i :: 0 < i < |roots| ==> Less(roots[i - 1].path, roots[i].path)
  }

  /** `validateForwardState`; cleaned paths, digests and identities are held by their types. */
  predicate ValidState(s: ForwardState) {
    && s.cutoff != ZERO_TIME
    && OrderedRoots(s.roots)
    && forall x :: x in s.excludedSessions ==> Trim(x) != ""
  }

  /** Every exclusion of `a` is also one of `b`. */
  predicate ExclusionsWithin(a: ForwardState, b: ForwardState) {
    && a.excludedPaths <= b.excludedPaths
    && a.excludedObjects <= b.excludedObjects
    && a.excludedSessions <= b.excludedSessions
  }

  function Normal(session: Session): Session {
    Lower(Trim(session))
  }

  /** Normalising is done after one pass, and is lower-casing alone for text without white space at its ends. */
  lemma NormalTwice(session: Session)
    ensures Normal(Normal(session)) == Normal(session)
    ensures Trim(Lower(session)) == Lower(session) ==> Normal(session) == Lower(session)
  {
    LowerTrim(session);
    LowerTrim(Trim(session));
    TrimTwice(session);
    LowerTwice(Trim(session));
  }

  predicate AllDigits(s: string) {
    forall i :: 0 <= i < |s| ==> '0' <= s[i] <= '9'
  }

  /** `reliableForwardSession`: a name precise enough to exclude by. */
  predicate Reliable(session: Session) {
    session !in {"", "unknown", "gemini-session", "gemini-logs"} && !AllDigits(session)
  }

  function ReliableSessions(sessions: seq<Session>): set<Session> {
    set s | s in sessions && Reliable(Normal(s)) :: Normal(s)
  }

  /** `sessionIDFromPath`. */
  function SessionFromPath(path: CleanPath): Session {
    Lower(FindUuid(Base(path), 0))
  }

  /** What reading a source for eligibility found. */
  datatype Inspection =
    | Unreadable                                          // parse error or a reported issue
    | Untimed(sessions: seq<Session>)                     // a meaningful record without a usable time
    | Timed(times: seq<Time>, sessions: seq<Session>)

  datatype Verdict = Wait | Accept | Refuse

  function Sessions(i: Inspection): seq<Session> {
    if i.Unreadable? then [] else i.sessions
  }

  /** `classifyForwardTimes`, extended to the early returns of `inspectForwardEligibility`. */
  function Classify(i: Inspection, cutoff: Time): (v: Verdict)
  {
    match i
    case Unreadable => Wait
    case Untimed(_) => Refuse
    case Timed(times, _) =>
      if times == [] then Wait
      else if forall k :: 0 <= k < |times| ==> Current(times[k], cutoff) then Accept
      else Refuse
  }

  /** The loop of `classifyForwardTimes`. */
  method ClassifyTimes(times: seq<Time>, sessions: seq<Session>, cutoff: Time) returns (v: Verdict)
    ensures v == Classify(Timed(times, sessions), cutoff)
  {
    if |times| == 0 {
      return Wait;
    }
    for i := 0 to |times|
      invariant forall k :: 0 <= k < i ==> Current(times[k], cutoff)
    {
      if times[i] == ZERO_TIME || times[i] < cutoff {
        assert !Current(times[i], cutoff);
        return Refuse;
      }
    }
    return Accept;
  }

  predicate ContainsExcluded(excluded: set<Session>, sessions: seq<Session>) {
    exists i :: 0 <= i < |sessions| && Normal(sessions[i]) in excluded
  }

  method ContainsExcludedSession(excluded: set<Session>, sessions: seq<Session>) returns (found: bool)
    ensures found == ContainsExcluded(excluded, sessions)
  {
    for i := 0 to |sessions|
      invariant forall k :: 0 <= k < i ==> Normal(sessions[k]) !in excluded
    {
      if Normal(sessions[i]) in excluded {
        return true;
      }
    }
    return false;
  }

  /** A reliable session name is never blank, so a state that holds it still validates. */
  lemma ReliableIsNotBlank(session: Session)
    requires Reliable(Normal(session))
    ensures Trim(Normal(session)) != ""
  {
    TrimEmpty(Normal(session));
    LowerBlank(Trim(session));
    TrimBlankness(session);
    TrimEmpty(session);
  }

  /** The last element of the path holds a UUID, and this is the leftmost one in lower case. */
  ghost predicate NamesSession(path: string, session: Session) {
    exists name: string, k: nat :: NamesSessionAt(path, session, name, k)
  }

  predicate NamesSessionAt(path: string, session: Session, name: string, k: nat) {
    && LastElement(path, name) && FirstUuidAt(name, 0, k)
    && session == Lower(name[k..k + 36])
  }

  /** `sessionIDFromPath` returns the session a path names, and "" exactly when it names none. */
  lemma SessionIsNamedByPath(path: CleanPath, session: Session)
    ensures NamesSession(path, session) <==> session != "" && session == SessionFromPath(path)
  {
    hide IsUuid, Base, LastElement, FindUuid;
    BaseIsLastElement(path);
    forall name: string, k: nat | NamesSessionAt(path, session, name, k)
      ensures session != "" && session == SessionFromPath(path)
    {
      LastElementIsUnique(path, name, Base(path));
      FindsFirstUuid(name, 0, k);
    }
    if session != "" && session == SessionFromPath(path) {
      var k := FindsSomeUuid(Base(path), 0);
      FindsFirstUuid(Base(path), 0, k);
      assert NamesSessionAt(path, session, Base(path), k);
    }
  }

  /** A UUID is a reliable name, so that a refusal stores it. */
  lemma UuidIsReliable(session: Session)
    requires IsUuid(session)
    ensures Reliable(session) && Reliable(Normal(session))
  {
    assert session[8] == '-';
    assert forall i :: 0 <= i < 36 ==> !IsSpace(session[i]);
    TrimNothing(session);
    assert Lower(session)[8] == '-';
  }

  /** What a refusal leaves out: nothing but empty names, the names parsers make up, and bare numbers. */
  lemma RefusalStoresNames(sessions: seq<Session>, session: Session, k: nat)
    requires session in sessions && k < |Normal(session)| && !('0' <= Normal(session)[k] <= '9')
    requires Normal(session) != "unknown" && Normal(session) != "gemini-session" && Normal(session) != "gemini-logs"
    ensures Normal(session) in ReliableSessions(sessions)
  {
    hide Normal;
  }

  lemma SessionFromPathIsNotBlank(path: CleanPath)
    ensures SessionFromPath(path) == "" || Trim(SessionFromPath(path)) != ""
  {
    var found := FindUuid(Base(path), 0);
    LowerBlank(found);
    TrimEmpty(Lower(found));
  }
}
