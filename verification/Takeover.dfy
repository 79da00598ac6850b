/** Taking over from a recorded process (internal/history/process/process.go).

    Every call the controller makes is recorded with its answer.  The answers come from an environment
    that may say anything: processes appear and vanish, signals and sleeps fail, and the record file may
    be replaced between reading and removing it. */
module Takeover {
  import opened Options
  import opened DurableSlot
  import opened DurableRoot
  import ForwardState

  datatype Record = Record(pid: int, executable: string, checkoutRoot: string, startIdentity: string)

  datatype Mode = Start | Supervise | OtherMode

  datatype Signal = Terminate | Kill

  datatype Look = Gone | Present(snapshot: Record) | LookFailed

  datatype SignalAnswer = Sent | NoProcess | SignalFailed

  datatype Call =
    | Looked(pid: int, look: Look)
    | Signalled(pid: int, signal: Signal, answer: SignalAnswer)
    | Slept(completed: bool)
    | RemoveCalled(found: Option<Bytes>, outcome: RemoveOutcome)

  datatype Failure =
    | InvalidRecord | ReadError | UncertainTarget | TerminationUnproven | KillFailed | SleepError | RetireError

  datatype Outcome =
    | Proceed                  // (true, nil)
    | Decline                  // (false, nil)
    | Fail(failure: Failure)
    | StillWaiting             // the run is cut off while polling

  /** One round of `waitForExit`. */
  datatype Poll = Poll(look: Look, expired: bool, slept: bool)

  datatype Environment = Environment(
    existsFails: bool, readFails: bool,
    first: Look, firstSignal: SignalAnswer, termPolls: seq<Poll>,
    second: Look, kill: SignalAnswer, killPolls: seq<Poll>,
    before: FileSystem,        // the directory when removal starts
    faults: RemoveFaults)

  /** `executable` lies strictly below `root`; both are clean and absolute. */
  predicate Inside(root: string, executable: string) {
    if root == "/" then executable != "/"
    else |executable| > |root| && executable[..|root| + 1] == root + "/"
  }

  /** `validateRecord`. */
  predicate ValidRecord(r: Record) {
    && r.pid > 1 && r.startIdentity != ""
    && ForwardState.IsCleanAbsolute(r.executable) && ForwardState.IsCleanAbsolute(r.checkoutRoot)
    && Inside(r.checkoutRoot, r.executable)
  }

  /** `matches`: all four fields. */
  predicate Matches(r: Record, snapshot: Record) {
    && r.pid == snapshot.pid && r.executable == snapshot.executable
    && r.checkoutRoot == snapshot.checkoutRoot && r.startIdentity == snapshot.startIdentity
  }

  // ---- What is claimed of every trace ---------------------------------------------------------

  /** The look finds a process that is the recorded one: same pid, executable, checkout and start. */
  predicate LooksItself(target: Record, look: Look) {
    look == Present(Record(target.pid, target.executable, target.checkoutRoot, target.startIdentity))
  }

  /** The answer shows the recorded process to be alive and itself. */
  predicate Confirms(call: Call, target: Record) {
    call.Looked? && call.pid == target.pid && LooksItself(target, call.look)
  }

  /** The answer shows that no process has the recorded pid. */
  predicate ShowsGone(call: Call, target: Record) {
    || (call.Looked? && call.pid == target.pid && call.look.Gone?)
    || (call.Signalled? && call.pid == target.pid && call.answer.NoProcess?)
  }

  predicate Moved(outcome: RemoveOutcome) {
    !outcome.NotFound? && !outcome.Kept?
  }

  /** The call at position i is allowed by the calls before it. */
  ghost predicate Allowed(trace: seq<Call>, i: nat, target: Record, payload: Bytes, hash: Bytes -> Digest, term: Signal)
    requires i < |trace|
  {
    match trace[i]
    case Looked(pid, _) => pid == target.pid
    case Signalled(pid, signal, _) =>
      && pid == target.pid
      && i > 0 && Confirms(trace[i - 1], target)
      && (signal == term || signal == Kill)
      && forall j :: 0 <= j < i && trace[j].Signalled? ==> trace[j].signal == term != Kill && signal == Kill
    case Slept(_) => i > 0 && Confirms(trace[i - 1], target)
    case RemoveCalled(found, outcome) =>
      && i > 0 && ShowsGone(trace[i - 1], target)
      && (forall j :: 0 <= j < i ==> !trace[j].RemoveCalled?)
      && (Moved(outcome) ==> found.Some? && hash(found.value) == hash(payload))
  }

  ghost predicate Safe(trace: seq<Call>, target: Record, payload: Bytes, hash: Bytes -> Digest, term: Signal) {
    forall i :: 0 <= i < |trace| ==> Allowed(trace, i, target, payload, hash, term)
  }

  ghost predicate Unsignalled(trace: seq<Call>) {
    forall i :: 0 <= i < |trace| ==> !trace[i].Signalled?
  }

  /** All signals so far were terminations. */
  ghost predicate OnlyTerminated(trace: seq<Call>, term: Signal) {
    forall i :: 0 <= i < |trace| && trace[i].Signalled? ==> trace[i].signal == term
  }

  ghost predicate Unremoved(trace: seq<Call>) {
    forall i :: 0 <= i < |trace| ==> !trace[i].RemoveCalled?
  }

  ghost predicate KillSent(trace: seq<Call>) {
    exists i :: 0 <= i < |trace| && trace[i].Signalled? && trace[i].signal == Kill && trace[i].answer.Sent?
  }

  /** The answers that make a wait end by the clock: the process is itself at every look, up to one where
      time is up. */
  predicate TimesOut(target: Record, positive: bool, polls: seq<Poll>) {
    polls != [] &&
    var poll := polls[0];
    && LooksItself(target, poll.look)
    && (!positive || poll.expired || (poll.slept && TimesOut(target, positive, polls[1..])))
  }

  /** The answers that make a wait see the exit: the process is itself and time is left, up to a look where it
      is gone. */
  predicate SeesExit(target: Record, positive: bool, polls: seq<Poll>) {
    polls != [] &&
    var poll := polls[0];
    || poll.look.Gone?
    || (&& LooksItself(target, poll.look) && positive && !poll.expired && poll.slept
        && SeesExit(target, positive, polls[1..]))
  }

  /** The answers under which the process is ended and seen to be: it is gone for the first signal, or exits
      while that is waited for, or - after a termination that times out or cannot be sent - is killed at a
      look that shows it and exits then. */
  predicate Ends(term: Signal, target: Record, termPositive: bool, killPositive: bool, env: Environment) {
    || env.firstSignal.NoProcess?
    || (term == Kill && env.firstSignal.Sent? && SeesExit(target, killPositive, env.killPolls))
    || (term != Kill && env.firstSignal.Sent? && SeesExit(target, termPositive, env.termPolls))
    || (&& term != Kill && (env.firstSignal.Sent? ==> TimesOut(target, termPositive, env.termPolls))
        && LooksItself(target, env.second) && env.kill.Sent? && SeesExit(target, killPositive, env.killPolls))
  }

  /** The answers under which the process exits too late to be seen: a termination is sent and times out, or
      cannot be sent, and then the process is gone at the look before the kill or for the kill itself. */
  predicate ExitsLate(term: Signal, target: Record, termPositive: bool, env: Environment) {
    && term != Kill && !env.firstSignal.NoProcess?
    && (env.firstSignal.Sent? ==> TimesOut(target, termPositive, env.termPolls))
    && (|| env.second.Gone?
        || (LooksItself(target, env.second) && env.kill.NoProcess?))
  }

  /** The removal at the end of the trace, if that is how it ends. */
  predicate Retired(trace: seq<Call>) {
    trace != [] && var last := trace[|trace| - 1]; last.RemoveCalled? && (last.outcome.Removed? || last.outcome.NotFound?)
  }

  lemma EmptyIsSafe(target: Record, payload: Bytes, hash: Bytes -> Digest, term: Signal)
    ensures Safe([], target, payload, hash, term)
  {
  }

  lemma Extended(trace: seq<Call>, call: Call, target: Record, payload: Bytes, hash: Bytes -> Digest, term: Signal)
    requires Safe(trace, target, payload, hash, term)
    requires Allowed(trace + [call], |trace|, target, payload, hash, term)
    ensures Safe(trace + [call], target, payload, hash, term)
  {
    var next := trace + [call];
    forall i | 0 <= i < |next| ensures Allowed(next, i, target, payload, hash, term) {
      if i < |trace| {
        assert Allowed(trace, i, target, payload, hash, term);
        assert forall j :: 0 <= j <= i ==> next[j] == trace[j];
      }
    }
  }

  function CountSignals(trace: seq<Call>, signal: Signal): nat {
    if trace == [] then 0
    else
      var last := trace[|trace| - 1];
      CountSignals(trace[..|trace| - 1], signal) + if last.Signalled? && last.signal == signal then 1 else 0
  }

  lemma {:induction false} NoSignalsCounted(trace: seq<Call>, signal: Signal)
    requires forall i :: 0 <= i < |trace| && trace[i].Signalled? ==> trace[i].signal != signal
    ensures CountSignals(trace, signal) == 0
    decreases |trace|
  {
    if trace != [] {
      NoSignalsCounted(trace[..|trace| - 1], signal);
    }
  }

  lemma SafePrefix(trace: seq<Call>, n: nat, target: Record, payload: Bytes, hash: Bytes -> Digest, term: Signal)
    requires n <= |trace| && Safe(trace, target, payload, hash, term)
    ensures Safe(trace[..n], target, payload, hash, term)
  {
    var part := trace[..n];
    forall i | 0 <= i < n ensures Allowed(part, i, target, payload, hash, term) {
      assert Allowed(trace, i, target, payload, hash, term);
      assert forall j :: 0 <= j <= i ==> part[j] == trace[j];
    }
  }

  /** A safe trace sends each signal at most once, and a second signal is the kill after a termination. */
  lemma {:induction false} AtMostOneOfEach(trace: seq<Call>, target: Record, payload: Bytes, hash: Bytes -> Digest,
                                           term: Signal, signal: Signal)
    requires Safe(trace, target, payload, hash, term)
    ensures CountSignals(trace, signal) <= 1
    ensures term == Kill ==> CountSignals(trace, Terminate) == 0
    decreases |trace|
  {
    if trace != [] {
      var n := |trace| - 1;
      SafePrefix(trace, n, target, payload, hash, term);
      AtMostOneOfEach(trace[..n], target, payload, hash, term, signal);
      assert Allowed(trace, n, target, payload, hash, term);
      if trace[n].Signalled? {
        forall j | 0 <= j < n && trace[..n][j].Signalled? ensures trace[..n][j].signal != trace[n].signal {
          assert trace[j].Signalled?;
        }
        NoSignalsCounted(trace[..n], trace[n].signal);
      }
    }
  }

  // ---- The controller -------------------------------------------------------------------------

  /** The file holds a record that passes validation. */
  predicate Holding(content: Option<Bytes>, decode: Bytes -> Option<Record>) {
    content.Some? && decode(content.value).Some? && ValidRecord(decode(content.value).value)
  }

  datatype Reading = Absent | Unread(failure: Failure) | Found(record: Record, payload: Bytes)

  class Controller {
    const root: Root
    const name: Name
    const hash: Bytes -> Digest
    const decode: Bytes -> Option<Record>   // None: not exactly one record object without repeated names
    const term: Signal
    var trace: seq<Call>

    constructor (root: Root, name: Name, hash: Bytes -> Digest, decode: Bytes -> Option<Record>, term: Signal)
      ensures this.root == root && this.name == name && this.hash == hash && this.decode == decode
      ensures this.term == term && trace == []
    {
      this.root, this.name, this.hash, this.decode, this.term := root, name, hash, decode, term;
      trace := [];
    }

    ghost predicate SafeFor(r: Reading)
      reads this
    {
      if r.Found? then Safe(trace, r.record, r.payload, hash, term) else trace == []
    }

    /** `readRecord`. */
    method ReadRecord(env: Environment) returns (r: Reading)
      requires Valid(root.fs)
      ensures r.Absent? ==> Visible(root.fs, name).None?
      ensures r.Found? ==> Visible(root.fs, name) == Some(r.payload) && decode(r.payload) == Some(r.record)
      ensures r.Found? ==> ValidRecord(r.record)
      ensures !env.existsFails && name !in root.fs.dir ==> r.Absent?
      ensures !env.existsFails && !env.readFails && Holding(Visible(root.fs, name), decode) ==> r.Found?
    {
      if env.existsFails {
        return Unread(ReadError);
      }
      if name !in root.fs.dir {
        return Absent;
      }
      assert Lookup(root.fs.dir, name) in Candidates(root.fs, name);
      if env.readFails {
        return Unread(ReadError);
      }
      var payload := root.fs.files[root.fs.dir[name]].data;
      var record := decode(payload);
      if record.None? || !ValidRecord(record.value) {
        return Unread(InvalidRecord);
      }
      return Found(record.value, payload);
    }

    method Call(call: Call, ghost r: Reading)
      requires r.Found? && SafeFor(r)
      requires Allowed(trace + [call], |trace|, r.record, r.payload, hash, term)
      modifies this`trace
      ensures trace == old(trace) + [call] && SafeFor(r)
    {
      Extended(trace, call, r.record, r.payload, hash, term);
      trace := trace + [call];
    }

    method DoLook(look: Look, r: Reading)
      requires r.Found? && SafeFor(r)
      modifies this`trace
      ensures trace == old(trace) + [Looked(r.record.pid, look)] && SafeFor(r)
    {
      hide Safe;
      Call(Looked(r.record.pid, look), r);
    }

    method DoSleep(completed: bool, r: Reading)
      requires r.Found? && SafeFor(r) && trace != [] && Confirms(trace[|trace| - 1], r.record)
      modifies this`trace
      ensures trace == old(trace) + [Slept(completed)] && SafeFor(r)
    {
      hide Safe;
      Call(Slept(completed), r);
    }

    method DoSignal(signal: Signal, answer: SignalAnswer, r: Reading)
      requires r.Found? && SafeFor(r) && trace != [] && Confirms(trace[|trace| - 1], r.record)
      requires signal == term || signal == Kill
      requires Unsignalled(trace) || (signal == Kill != term && OnlyTerminated(trace, term))
      modifies this`trace
      ensures trace == old(trace) + [Signalled(r.record.pid, signal, answer)] && SafeFor(r)
    {
      hide Safe;
      Call(Signalled(r.record.pid, signal, answer), r);
    }

    /** `waitForExit`: polls until the process is gone, is no longer itself, or time is up. */
    method WaitForExit(target: Record, r: Reading, positive: bool, polls: seq<Poll>)
      returns (exited: bool, failure: Option<Outcome>)
      requires r.Found? && r.record == target && SafeFor(r) && Unremoved(trace)
      modifies this`trace
      ensures SafeFor(r) && Unremoved(trace)
      ensures old(trace) <= trace
      ensures forall i :: |old(trace)| <= i < |trace| ==> !trace[i].Signalled?
      ensures exited ==> failure.None? && trace != [] && ShowsGone(trace[|trace| - 1], target)
      ensures failure.Some? ==> failure.value.Fail? || failure.value.StillWaiting?
      ensures failure != Some(Fail(TerminationUnproven))
      ensures failure.Some? ==> trace == old(trace) || !ShowsGone(trace[|trace| - 1], target)
      ensures !exited && failure.None? ==> trace != [] && Confirms(trace[|trace| - 1], target)
      ensures !exited && failure.None? <==> TimesOut(target, positive, polls)
      ensures exited <==> SeesExit(target, positive, polls)
    {
      hide Safe;
      exited, failure := false, None;
      for n := 0 to |polls|
        invariant SafeFor(r) && Unremoved(trace) && old(trace) <= trace
        invariant forall i :: |old(trace)| <= i < |trace| ==> !trace[i].Signalled?
        invariant trace == old(trace) || !ShowsGone(trace[|trace| - 1], target)
        invariant TimesOut(target, positive, polls) == TimesOut(target, positive, polls[n..])
        invariant SeesExit(target, positive, polls) == SeesExit(target, positive, polls[n..])
      {
        var poll := polls[n];
        assert polls[n..][0] == poll && polls[n..][1..] == polls[n + 1..];
        DoLook(poll.look, r);
        if poll.look.Gone? {
          return true, None;
        }
        if poll.look.LookFailed? || !Matches(target, poll.look.snapshot) {
          return false, Some(Fail(UncertainTarget));
        }
        if !positive || poll.expired {
          return false, None;
        }
        DoSleep(poll.slept, r);
        if !poll.slept {
          return false, Some(Fail(SleepError));
        }
      }
      assert polls[|polls|..] == [];
      return false, Some(StillWaiting);
    }

    /** Removal of the record that was read, by the content-bound `Remove`. */
    method Retire(r: Reading, env: Environment) returns (outcome: Outcome)
      requires r.Found? && SafeFor(r) && Unremoved(trace) && Valid(env.before)
      requires trace != [] && ShowsGone(trace[|trace| - 1], r.record)
      modifies this`trace, root
      ensures SafeFor(r) && Valid(root.fs) && |trace| == |old(trace)| + 1 && old(trace) <= trace
      ensures trace[|old(trace)|].RemoveCalled? && trace[|old(trace)|].found == Visible(env.before, name)
      ensures outcome == if Retired(trace) then Proceed else Fail(RetireError)
      ensures Retired(trace) ==> Visible(root.fs, name).None?
      ensures trace[|old(trace)|].outcome.Kept? ==> root.fs == env.before
    {
      root.fs := env.before;
      var result, _ := root.Remove(name, hash, hash(r.payload), env.faults);
      if result.Removed? {
        assert Lookup(root.fs.dir, name) in Candidates(root.fs, name);
        HoldsWhatIsVisible(root.fs, name);
      }
      Call(RemoveCalled(Visible(env.before, name), result), r);
      outcome := if result.Removed? || result.NotFound? then Proceed else Fail(RetireError);
    }

    /** `Prepare`.  For all answers: every signal goes to the recorded pid directly after a look that
        matches all four fields, each kind at most once; the record is removed only directly after an
        answer that the process is gone, and only if its bytes still hash to what was read; the caller
        may proceed exactly when there was no record or it has been retired. */
    method Prepare(mode: Mode, current: Record, termPositive: bool, killPositive: bool, env: Environment)
      returns (outcome: Outcome, r: Reading)
      requires trace == [] && Valid(root.fs) && Valid(env.before)
      modifies this`trace, root
      ensures SafeFor(r) && Valid(root.fs)
      ensures r.Found? ==> Visible(old(root.fs), name) == Some(r.payload) && decode(r.payload) == Some(r.record)
      ensures (&& !mode.OtherMode? && ValidRecord(current) && !env.existsFails && !env.readFails
               && Holding(Visible(old(root.fs), name), decode)) ==> r.Found?
      ensures outcome.Proceed? <==> r.Absent? || Retired(trace)
      ensures outcome.Proceed? ==> Visible(root.fs, name).None?
      ensures r.Found? && env.first.Present? && env.first.snapshot != r.record ==>
                outcome == Fail(UncertainTarget) && Unsignalled(trace) && Unremoved(trace)
      ensures mode != Supervise ==> Unsignalled(trace)
      ensures mode.OtherMode? || !ValidRecord(current) ==> outcome == Fail(InvalidRecord)
      ensures r.Found? ==> trace != [] && trace[0] == Looked(r.record.pid, env.first)
      ensures r.Found? && mode == Start && LooksItself(r.record, env.first) ==> outcome == Decline
      ensures r.Found? && env.first.LookFailed? ==> outcome == Fail(UncertainTarget) && |trace| == 1
      ensures r.Found? ==>
                (trace[|trace| - 1].RemoveCalled?
                 <==> || env.first.Gone?
                      || (&& mode == Supervise && LooksItself(r.record, env.first)
                          && Ends(term, r.record, termPositive, killPositive, env)))
      ensures outcome.Decline? ==> mode == Start && r.Found? && |trace| == 1 && Confirms(trace[0], r.record)
      ensures Unremoved(trace) ==> root.fs == old(root.fs)
      ensures mode == Supervise && trace != [] && Confirms(trace[0], r.record) ==>
                |trace| > 1 && trace[1].Signalled? && trace[1].signal == term
      ensures r.Found? && outcome == Fail(TerminationUnproven) ==> KillSent(trace) && Confirms(trace[|trace| - 1], r.record)
      ensures r.Found? ==>
                (trace != [] && ShowsGone(trace[|trace| - 1], r.record)
                 <==> mode == Supervise && LooksItself(r.record, env.first)
                      && ExitsLate(term, r.record, termPositive, env))
      ensures (&& r.Found? && mode == Supervise && LooksItself(r.record, env.first)
               && ExitsLate(term, r.record, termPositive, env)) ==>
                outcome == Fail(if env.second.Gone? then UncertainTarget else KillFailed) && Unremoved(trace)
    {
      hide Safe, ValidRecord, Valid, Visible;
      r := Unread(InvalidRecord);
      if mode.OtherMode? || !ValidRecord(current) {
        return Fail(InvalidRecord), r;
      }
      r := ReadRecord(env);
      if r.Unread? {
        return Fail(r.failure), r;
      }
      if r.Absent? {
        return Proceed, r;
      }
      var target := r.record;
      EmptyIsSafe(target, r.payload, hash, term);
      DoLook(env.first, r);
      if env.first.Gone? {
        outcome := Retire(r, env);
        return;
      }
      if env.first.LookFailed? || !Matches(target, env.first.snapshot) {
        return Fail(UncertainTarget), r;
      }
      if mode == Start {
        return Decline, r;
      }
      var failure: Option<Outcome>;
      var exited;
      exited, failure := EndProcess(r, termPositive, killPositive, env);
      if failure.Some? {
        return failure.value, r;
      }
      if !exited {
        return Fail(TerminationUnproven), r;
      }
      outcome := Retire(r, env);
    }

    /** The signalling half of `Prepare`: one termination, then at most one kill. */
    method EndProcess(r: Reading, termPositive: bool, killPositive: bool, env: Environment)
      returns (exited: bool, failure: Option<Outcome>)
      requires r.Found? && SafeFor(r) && Unremoved(trace) && Unsignalled(trace)
      requires trace != [] && Confirms(trace[|trace| - 1], r.record)
      modifies this`trace
      ensures SafeFor(r) && Unremoved(trace) && old(trace) <= trace && trace != []
      ensures exited ==> failure.None? && ShowsGone(trace[|trace| - 1], r.record)
      ensures failure.Some? ==> failure.value.Fail? || failure.value.StillWaiting?
      ensures failure != Some(Fail(TerminationUnproven))
      ensures |trace| > |old(trace)| && trace[|old(trace)|].Signalled? && trace[|old(trace)|].signal == term
      ensures !exited && failure.None? ==> KillSent(trace) && Confirms(trace[|trace| - 1], r.record)
      ensures exited <==> Ends(term, r.record, termPositive, killPositive, env)
      ensures failure.Some? && ShowsGone(trace[|trace| - 1], r.record) <==> ExitsLate(term, r.record, termPositive, env)
      ensures ExitsLate(term, r.record, termPositive, env) ==>
                failure == Some(Fail(if env.second.Gone? then UncertainTarget else KillFailed))
    {
      hide Safe;
      var target := r.record;
      exited, failure := false, None;
      DoSignal(term, env.firstSignal, r);
      if env.firstSignal.NoProcess? {
        return true, None;
      }
      if term == Kill {
        if env.firstSignal.SignalFailed? {
          return false, Some(Fail(KillFailed));
        }
        ghost var at := |trace| - 1;
        exited, failure := WaitForExit(target, r, killPositive, env.killPolls);
        assert trace[at].Signalled? && trace[at].answer.Sent?;
        return;
      }
      if env.firstSignal.Sent? {
        exited, failure := WaitForExit(target, r, termPositive, env.termPolls);
        if failure.Some? || exited {
          return;
        }
      }
      DoLook(env.second, r);
      if !env.second.Present? || !Matches(target, env.second.snapshot) {
        return false, Some(Fail(UncertainTarget));
      }
      assert OnlyTerminated(trace, term);
      DoSignal(Kill, env.kill, r);
      if !env.kill.Sent? {
        return false, Some(Fail(KillFailed));
      }
      ghost var at := |trace| - 1;
      exited, failure := WaitForExit(target, r, killPositive, env.killPolls);
      assert trace[at].Signalled? && trace[at].answer.Sent?;
    }
  }

  /** It happens: for every recorded process and every pair of answers, a termination that fails or times out
      at the first look, followed by an exit before the kill, ends in an error and leaves the record. */
  method TakeOverTooLate(root: Root, name: Name, hash: Bytes -> Digest, decode: Bytes -> Option<Record>,
                         record: Record, sent: bool, killed: bool) returns (outcome: Outcome)
    requires Valid(root.fs) && ValidRecord(record)
    requires Visible(root.fs, name).Some? && decode(Visible(root.fs, name).value) == Some(record)
    modifies root
    ensures outcome == Fail(if killed then KillFailed else UncertainTarget)
    ensures root.fs == old(root.fs)
  {
    hide Valid, Visible;
    var controller := new Controller(root, name, hash, decode, Terminate);
    var present := Present(record);
    var env := Environment(false, false, present, if sent then Sent else SignalFailed, [Poll(present, true, true)],
                           if killed then present else Gone, NoProcess, [], root.fs,
                           RemoveFaults(true, true, true, "", true, true, true, true, true));
    assert TimesOut(record, true, env.termPolls);
    var r;
    outcome, r := controller.Prepare(Supervise, record, true, true, env);
  }

  /** The executable of a valid record lies strictly below its checkout. */
  lemma ValidExecutableIsBelow(r: Record) returns (rest: string)
    requires ValidRecord(r)
    ensures rest != "" && rest[0] != '/'
    ensures r.executable == (if r.checkoutRoot == "/" then "/" else r.checkoutRoot + "/") + rest
  {
    var n := if r.checkoutRoot == "/" then 1 else |r.checkoutRoot| + 1;
    rest := r.executable[n..];
    assert r.executable == r.executable[..n] + rest;
    assert r.executable[n - 1] == '/';
    assert ForwardState.ProperComponent(r.executable[n - 1 + 1..]);
  }

  lemma HoldsWhatIsVisible(fs: FileSystem, n: Name)
    requires Valid(fs) && forall c :: MayHold(fs, n, c) ==> c == None
    ensures Visible(fs, n).None?
  {
    var e := Lookup(fs.dir, n);
    assert e in Candidates(fs, n);
    if e.Some? {
      assert MayHold(fs, n, Some(fs.files[e.value].data));
    }
  }
}
