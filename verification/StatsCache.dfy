/** The statistics cache of the store and the writes that invalidate it
    (internal/history/store/store.go:78-116, 210-268, 294-333, 383-387).

    The table is seen as a growing list of versions, one per committed write, and the vector-index flag
    as a growing list of settings.  Threads interleave at every lock, query and commit; the lock
    `statsMu` is held across the query of a `Stats` call. */
module StatsCache {
  import opened Options
  import opened Chunk

  /** The row the statistics query returns. */
  datatype Counts = Counts(total: int, embedded: int)

  predicate ValidCounts(c: Counts) {
    0 <= c.embedded <= c.total
  }

  /** What the cache is configured with. */
  datatype Config = Config(ttl: Time, useANN: bool)

  /** `ann` is the search mode: approximate when configured and the index is there. */
  datatype Stats = Stats(counts: Counts, indexed: bool, ann: bool, ratePerMinute: real, etaSeconds: Option<real>)

  datatype Cached = Cached(at: Time, value: Stats)

  /** The embedded count at an earlier query, for the backfill rate. */
  datatype Sample = Sample(at: Time, embedded: int)

  /** The cache answers at `now`. */
  predicate Usable(cache: Option<Cached>, now: Time, ttl: Time) {
    cache.Some? && now > cache.value.at && now - cache.value.at < ttl
  }

  const MINUTE := 60_000_000_000.0

  function Minutes(elapsed: Time): real {
    elapsed as real / MINUTE
  }

  function Rate(sample: Option<Sample>, now: Time, embedded: int): real {
    if sample.Some? && now > sample.value.at && embedded >= sample.value.embedded then
      (embedded - sample.value.embedded) as real / Minutes(now - sample.value.at)
    else 0.0
  }

  function Eta(rate: real, awaiting: int): Option<real> {
    if rate > 0.0 && awaiting > 0 then Some(awaiting as real / (rate / 60.0)) else None
  }

  function MakeStats(counts: Counts, indexed: bool, ann: bool, sample: Option<Sample>, now: Time): Stats {
    var rate := Rate(sample, now, counts.embedded);
    Stats(counts, indexed, ann, rate, Eta(rate, counts.total - counts.embedded))
  }

  lemma QuotientIsPositive(a: real, b: real)
    requires b > 0.0 && a >= 0.0
    ensures a / b >= 0.0 && (a > 0.0 ==> a / b > 0.0) && (a / b) * b == a
  {
  }

  lemma RateInMinutes(rows: real, elapsed: real)
    requires elapsed > 0.0
    ensures rows / (elapsed / MINUTE) * elapsed == rows * 60_000_000_000.0
  {
    var minutes := elapsed / MINUTE;
    QuotientIsPositive(elapsed, MINUTE);
    QuotientIsPositive(1.0, minutes);
    assert minutes * MINUTE == elapsed;
    RateTimes(rows, minutes);
  }

  lemma RateTimes(rows: real, minutes: real)
    requires minutes > 0.0
    ensures rows / minutes * (minutes * 60_000_000_000.0) == rows * 60_000_000_000.0
  {
    assert rows / minutes * minutes == rows;
  }

  /** In nanoseconds the rate is rows per 60 seconds.  The estimate is there exactly while rows await embedding at a positive rate, and that rate over that
      time embeds exactly the rows that wait; the rate is never negative. */
  lemma PaceIsConsistent(counts: Counts, indexed: bool, ann: bool, sample: Option<Sample>, now: Time)
    ensures var s := MakeStats(counts, indexed, ann, sample, now);
            var awaiting := counts.total - counts.embedded;
            && s.ratePerMinute >= 0.0
            && (sample.Some? && now > sample.value.at && counts.embedded >= sample.value.embedded ==>
                  s.ratePerMinute * (now - sample.value.at) as real
                  == (counts.embedded - sample.value.embedded) as real * 60_000_000_000.0)
            && (s.etaSeconds.Some? <==> s.ratePerMinute > 0.0 && awaiting > 0)
            && (s.etaSeconds.Some? ==>
                  s.etaSeconds.value > 0.0 && s.etaSeconds.value * (s.ratePerMinute / 60.0) == awaiting as real)
  {
    var s := MakeStats(counts, indexed, ann, sample, now);
    if sample.Some? && now > sample.value.at && counts.embedded >= sample.value.embedded {
      QuotientIsPositive((now - sample.value.at) as real, MINUTE);
      QuotientIsPositive((counts.embedded - sample.value.embedded) as real, Minutes(now - sample.value.at));
      RateInMinutes((counts.embedded - sample.value.embedded) as real, (now - sample.value.at) as real);
    }
    if s.etaSeconds.Some? {
      QuotientIsPositive((counts.total - counts.embedded) as real, s.ratePerMinute / 60.0);
    }
  }

  // ---- The critical section -------------------------------------------------------------------

  class SpannerStore {
    var cache: Option<Cached>
    var sample: Option<Sample>
    var indexed: bool
    const config: Config

    constructor (config: Config)
      ensures cache == None && sample == None && !indexed && this.config == config
    {
      this.config := config;
      cache, sample, indexed := None, None, false;
    }

    /** `Stats` under its lock.  A failed or malformed query leaves the cache and the sample as they were. */
    method ReadStats(now: Time, live: bool, answer: Option<Counts>) returns (r: Option<Stats>)
      modifies this`cache, this`sample
      ensures Usable(old(cache), now, config.ttl) ==>
                r == Some(old(cache).value.value) && cache == old(cache) && sample == old(sample)
      ensures !Usable(old(cache), now, config.ttl) ==>
                if live && answer.Some? && ValidCounts(answer.value)
                then && r == Some(MakeStats(answer.value, indexed, config.useANN && indexed, old(sample), now))
                     && cache == Some(Cached(now, r.value)) && sample == Some(Sample(now, answer.value.embedded))
                else r == None && cache == old(cache) && sample == old(sample)
    {
      if cache.Some? && now > cache.value.at && now - cache.value.at < config.ttl {
        return Some(cache.value.value);
      }
      if !live || answer.None? {
        return None;
      }
      if answer.value.total < 0 {
        return None;
      }
      if answer.value.embedded < 0 || answer.value.embedded > answer.value.total {
        return None;
      }
      var ann := false;
      if config.useANN && indexed {
        ann := true;
      }
      var stats := MakeStats(answer.value, indexed, ann, sample, now);
      sample := Some(Sample(now, answer.value.embedded));
      cache := Some(Cached(now, stats));
      return Some(stats);
    }

    method InvalidateStats()
      modifies this`cache
      ensures cache == None
    {
      cache := None;
    }

    /** `Optimize` and `DiscoverIndexes` set the flag and leave the cache alone. */
    method SetIndexed(value: bool)
      modifies this`indexed
      ensures indexed == value
    {
      indexed := value;
    }
  }

  // ---- Interleavings --------------------------------------------------------------------------

  datatype Phase =
    | Resting
    | Invalidating(version: nat)                                // a write committed, not yet invalidated
    | Waiting(since: nat, begun: nat)                           // Stats called at step `begun`
    | Querying(since: nat, begun: nat, now: Time)               // holds the lock
    | Choosing(since: nat, begun: nat, now: Time, read: nat)    // holds the lock
    | Storing(since: nat, begun: nat, now: Time, read: nat, modeAt: nat)   // holds the lock

  /** What a Stats call returned.  `read` is the version its counts were queried from; `modeAt` and
      `flagAt` are the settings of the index flag its mode and its flag show, `flagNow` the one in force when
      it was returned. */
  datatype Answer = Answer(thread: nat, begun: nat, ended: nat, since: nat, read: nat, stats: Stats, at: Time,
                           now: Time, modeAt: nat, flagAt: nat, flagNow: nat)

  datatype System = System(
    clock: nat,                  // steps so far
    versions: seq<Counts>,
    flags: seq<bool>,            // every setting of the index flag, the last one in force
    confirmed: nat,              // the last version whose write has returned nil
    cache: Option<Cached>,
    origin: nat,                 // the version the cache was queried from
    modeOrigin: nat,             // the flag settings the cache's mode and flag show
    flagOrigin: nat,
    sample: Option<Sample>,
    lock: Option<nat>,
    phases: seq<Phase>,
    answers: seq<Answer>)

  datatype Step =
    | Commit(thread: nat, counts: Counts)      // an Upsert, DeleteMachine or Clear that will return nil commits
    | CommitElsewhere(counts: Counts)          // any write without an invalidation: of another process, of a
                                               // call that reports an error, of a backfill batch
    | Invalidate(thread: nat)
    | Call(thread: nat)
    | Lock(thread: nat, now: Time)
    | Query(thread: nat)
    | Choose(thread: nat)                      // reads the flag for the search mode
    | Store(thread: nat)                       // reads it again for the answer, and stores
    | Abandon(thread: nat)                     // the context ended or the query failed
    | SetIndex(value: bool)                    // Optimize or DiscoverIndexes

  predicate At(s: System, thread: nat) {
    thread < |s.phases|
  }

  function Enter(s: System, thread: nat, phase: Phase): System
    requires At(s, thread)
  {
    s.(phases := s.phases[thread := phase])
  }

  function Later(a: nat, b: nat): nat {
    if a >= b then a else b
  }

  function Flag(s: System): nat {
    if s.flags == [] then 0 else |s.flags| - 1
  }

  function LockStep(s: System, thread: nat, now: Time, config: Config): System
    requires At(s, thread) && s.phases[thread].Waiting?
  {
    var p := s.phases[thread];
    if Usable(s.cache, now, config.ttl) then
      Enter(s, thread, Resting).(
        answers := s.answers + [Answer(thread, p.begun, s.clock, p.since, s.origin, s.cache.value.value,
                                       s.cache.value.at, now, s.modeOrigin, s.flagOrigin, Flag(s))])
    else Enter(s, thread, Querying(p.since, p.begun, now)).(lock := Some(thread))
  }

  function StoreStep(s: System, thread: nat, config: Config): System
    requires At(s, thread) && s.phases[thread].Storing? && s.phases[thread].read < |s.versions| && s.flags != []
    requires s.phases[thread].modeAt < |s.flags|
  {
    var p := s.phases[thread];
    var stats := MakeStats(s.versions[p.read], s.flags[Flag(s)], config.useANN && s.flags[p.modeAt], s.sample, p.now);
    if !ValidCounts(stats.counts) then Enter(s, thread, Resting).(lock := None)
    else
      Enter(s, thread, Resting).(
        lock := None, cache := Some(Cached(p.now, stats)), origin := p.read, modeOrigin := p.modeAt, flagOrigin := Flag(s),
        sample := Some(Sample(p.now, stats.counts.embedded)),
        answers := s.answers + [Answer(thread, p.begun, s.clock, p.since, p.read, stats, p.now, p.now, p.modeAt, Flag(s),
                                       Flag(s))])
  }

  function Act(s: System, step: Step, config: Config): System {
    match step
    case Commit(i, counts) =>
      if At(s, i) && s.phases[i].Resting? then
        Enter(s, i, Invalidating(|s.versions|)).(versions := s.versions + [counts])
      else s
    case CommitElsewhere(counts) => s.(versions := s.versions + [counts])
    case Invalidate(i) =>
      if At(s, i) && s.phases[i].Invalidating? && s.lock.None? then
        Enter(s, i, Resting).(cache := None, confirmed := Later(s.confirmed, s.phases[i].version))
      else s
    case Call(i) => if At(s, i) && s.phases[i].Resting? then Enter(s, i, Waiting(s.confirmed, s.clock)) else s
    case Lock(i, now) => if At(s, i) && s.phases[i].Waiting? && s.lock.None? then LockStep(s, i, now, config) else s
    case Query(i) =>
      if At(s, i) && s.phases[i].Querying? && s.versions != [] then
        Enter(s, i, Choosing(s.phases[i].since, s.phases[i].begun, s.phases[i].now, |s.versions| - 1))
      else s
    case Choose(i) =>
      if At(s, i) && s.phases[i].Choosing? then
        Enter(s, i, Storing(s.phases[i].since, s.phases[i].begun, s.phases[i].now, s.phases[i].read, Flag(s)))
      else s
    case Store(i) =>
      if At(s, i) && s.phases[i].Storing? && s.phases[i].read < |s.versions| && s.phases[i].modeAt < |s.flags| then
        StoreStep(s, i, config)
      else s
    case Abandon(i) =>
      if At(s, i) && s.phases[i].Waiting? then Enter(s, i, Resting)
      else if At(s, i) && s.phases[i].Querying? then Enter(s, i, Resting).(lock := None)
      else s
    case SetIndex(value) => s.(flags := s.flags + [value])
  }

  function Next(s: System, step: Step, config: Config): System {
    Act(s, step, config).(clock := s.clock + 1)
  }

  function Run(s: System, steps: seq<Step>, config: Config): System
    decreases |steps|
  {
    if steps == [] then s else Next(Run(s, steps[..|steps| - 1], config), steps[|steps| - 1], config)
  }

  function Begin(counts: Counts, threads: nat): System {
    System(0, [counts], [false], 0, None, 0, 0, 0, None, None, seq(threads, _ => Resting), [])
  }

  // ---- What is claimed of every run -----------------------------------------------------------

  /** The answer reports counts of a version no older than any write that had returned when the call
      began, shows a setting of the index flag from the moment those statistics were made, and is either
      just made or younger than the time to live. */
  predicate GoodAnswer(a: Answer, versions: seq<Counts>, flags: seq<bool>, config: Config) {
    && a.since <= a.read < |versions|
    && a.stats.counts == versions[a.read] && ValidCounts(a.stats.counts)
    && a.modeAt <= a.flagAt <= a.flagNow < |flags|
    && a.stats.indexed == flags[a.flagAt] && a.stats.ann == (config.useANN && flags[a.modeAt])
    && (a.now == a.at ==> a.flagAt == a.flagNow)
    && (a.now == a.at || 0 < a.now - a.at < config.ttl)
  }

  predicate GoodPhase(s: System, i: nat)
    requires At(s, i)
  {
    match s.phases[i]
    case Resting => true
    case Invalidating(version) => version < |s.versions|
    case Waiting(since, _) => since <= s.confirmed
    case Querying(since, _, _) => since <= s.confirmed && s.lock == Some(i)
    case Choosing(since, _, _, read) => since <= s.confirmed <= read < |s.versions| && s.lock == Some(i)
    case Storing(since, _, _, read, modeAt) =>
      since <= s.confirmed <= read < |s.versions| && modeAt < |s.flags| && s.lock == Some(i)
  }

  predicate GoodCache(s: System, config: Config) {
    s.cache.Some? ==>
      && s.confirmed <= s.origin < |s.versions|
      && s.cache.value.value.counts == s.versions[s.origin] && ValidCounts(s.cache.value.value.counts)
      && s.modeOrigin <= s.flagOrigin < |s.flags| && s.cache.value.value.indexed == s.flags[s.flagOrigin]
      && s.cache.value.value.ann == (config.useANN && s.flags[s.modeOrigin])
  }

  predicate GoodAnswers(s: System, config: Config) {
    forall k :: 0 <= k < |s.answers| ==> GoodAnswer(s.answers[k], s.versions, s.flags, config)
  }

  predicate GoodPhases(s: System) {
    forall i :: 0 <= i < |s.phases| ==> GoodPhase(s, i)
  }

  predicate Invariant(s: System, config: Config) {
    s.confirmed < |s.versions| && s.flags != [] && GoodCache(s, config) && GoodPhases(s) && GoodAnswers(s, config)
  }

  lemma AnswersStayGood(s: System, s': System, config: Config)
    requires GoodAnswers(s, config) && s'.answers == s.answers && s.versions <= s'.versions && s.flags <= s'.flags
    ensures GoodAnswers(s', config)
  {
    forall k | 0 <= k < |s.answers| ensures GoodAnswer(s.answers[k], s'.versions, s'.flags, config) {
      assert GoodAnswer(s.answers[k], s.versions, s.flags, config);
    }
  }

  /** The lock excludes every other thread from the critical section. */
  lemma LockExcludes(s: System, i: nat)
    requires GoodPhases(s) && At(s, i) && s.lock != Some(i)
    ensures !s.phases[i].Querying? && !s.phases[i].Choosing? && !s.phases[i].Storing?
  {
    assert GoodPhase(s, i);
  }

  /** Invalidation waits for the lock, so no older query can be stored after it. */
  lemma InvalidateKeeps(s: System, thread: nat, config: Config)
    requires Invariant(s, config)
    ensures Invariant(Act(s, Invalidate(thread), config), config)
  {
    hide GoodAnswers;
    var s' := Act(s, Invalidate(thread), config);
    AnswersStayGood(s, s', config);
    if s' != s {
      assert GoodPhase(s, thread);
      forall i | 0 <= i < |s'.phases| ensures GoodPhase(s', i) {
        assert GoodPhase(s, i);
        LockExcludes(s, i);
      }
    }
  }

  lemma LockKeeps(s: System, thread: nat, now: Time, config: Config)
    requires Invariant(s, config)
    ensures Invariant(Act(s, Lock(thread, now), config), config)
  {
    var s' := Act(s, Lock(thread, now), config);
    if s' != s {
      assert GoodPhase(s, thread);
      forall i | 0 <= i < |s'.phases| ensures GoodPhase(s', i) {
        assert GoodPhase(s, i);
        LockExcludes(s, i);
      }
    }
  }

  lemma StoreKeeps(s: System, thread: nat, config: Config)
    requires Invariant(s, config)
    ensures Invariant(Act(s, Store(thread), config), config)
  {
    hide Rate, Eta;
    var s' := Act(s, Store(thread), config);
    if s' != s {
      assert GoodPhase(s, thread);
      forall i | 0 <= i < |s'.phases| ensures GoodPhase(s', i) {
        assert GoodPhase(s, i);
        if i != thread {
          LockExcludes(s, i);
        }
      }
    }
  }

  /** The steps that neither answer nor touch the cache. */
  lemma PlainStepKeeps(s: System, step: Step, config: Config)
    requires Invariant(s, config) && !step.Invalidate? && !step.Lock? && !step.Store?
    ensures Invariant(Act(s, step, config), config)
  {
    hide GoodAnswers;
    var s' := Act(s, step, config);
    AnswersStayGood(s, s', config);
    forall i | 0 <= i < |s'.phases| ensures GoodPhase(s', i) {
      assert GoodPhase(s, i);
      if step.Abandon? && At(s, step.thread) && s.phases[step.thread].Querying? && i != step.thread {
        assert GoodPhase(s, step.thread);
        LockExcludes(s, i);
      }
    }
  }

  lemma StepKeeps(s: System, step: Step, config: Config)
    requires Invariant(s, config)
    ensures Invariant(Next(s, step, config), config)
  {
    hide GoodAnswer, GoodCache, Act;
    match step {
      case Invalidate(i) => InvalidateKeeps(s, i, config);
      case Lock(i, now) => LockKeeps(s, i, now, config);
      case Store(i) => StoreKeeps(s, i, config);
      case _ => PlainStepKeeps(s, step, config);
    }
    Ticked(Act(s, step, config), s.clock + 1, config);
  }

  lemma Ticked(s: System, clock: nat, config: Config)
    requires Invariant(s, config)
    ensures Invariant(s.(clock := clock), config)
  {
    hide GoodAnswer;
    forall i | 0 <= i < |s.phases| ensures GoodPhase(s.(clock := clock), i) {
      assert GoodPhase(s, i);
    }
  }

  lemma {:induction false} RunKeeps(counts: Counts, threads: nat, steps: seq<Step>, config: Config)
    ensures Invariant(Run(Begin(counts, threads), steps, config), config)
    decreases |steps|
  {
    hide Invariant, Next;
    if steps == [] {
      BeginHolds(counts, threads, config);
    } else {
      var n := |steps| - 1;
      RunKeeps(counts, threads, steps[..n], config);
      StepKeeps(Run(Begin(counts, threads), steps[..n], config), steps[n], config);
    }
  }

  lemma BeginHolds(counts: Counts, threads: nat, config: Config)
    ensures Invariant(Begin(counts, threads), config)
  {
  }

  /** In every interleaving, a Stats call reports counts queried after every write that had returned when
      it began, and a cached answer is younger than the time to live. */
  lemma StatsAgreeWithQueries(counts: Counts, threads: nat, steps: seq<Step>, config: Config, k: nat)
    requires k < |Run(Begin(counts, threads), steps, config).answers|
    ensures var s := Run(Begin(counts, threads), steps, config);
            GoodAnswer(s.answers[k], s.versions, s.flags, config)
  {
    hide Run, GoodAnswer;
    RunKeeps(counts, threads, steps, config);
  }

  /** One thread alone runs the contract of `ReadStats`: from a call that waits for a free lock, either the
      cached answer is returned at once, or lock, query, mode, and store return and cache what `ReadStats`
      makes of the same cache, sample, flag and counts. */
  lemma ThreadRunsReadStats(s: System, i: nat, now: Time, config: Config)
    requires At(s, i) && s.phases[i].Waiting? && s.lock.None? && s.versions != [] && s.flags != []
    ensures var s1 := Next(s, Lock(i, now), config);
            var s4 := Next(Next(Next(s1, Query(i), config), Choose(i), config), Store(i), config);
            var counts, flag := s.versions[|s.versions| - 1], s.flags[|s.flags| - 1];
            if Usable(s.cache, now, config.ttl) then
              && |s1.answers| == |s.answers| + 1 && s1.answers[|s.answers|].stats == s.cache.value.value
              && s1.cache == s.cache && s1.sample == s.sample && s1.lock.None?
            else if ValidCounts(counts) then
              var stats := MakeStats(counts, flag, config.useANN && flag, s.sample, now);
              && |s4.answers| == |s.answers| + 1 && s4.answers[|s.answers|].stats == stats
              && s4.cache == Some(Cached(now, stats)) && s4.sample == Some(Sample(now, counts.embedded)) && s4.lock.None?
            else s4.answers == s.answers && s4.cache == s.cache && s4.sample == s.sample && s4.lock.None?
  {
    hide Rate, Eta;
    var s1 := Next(s, Lock(i, now), config);
    if !Usable(s.cache, now, config.ttl) {
      assert s1.phases[i].Querying? && s1.phases[i].now == now;
      var s2 := Next(s1, Query(i), config);
      assert s2.phases[i].Choosing? && s2.phases[i].now == now && s2.phases[i].read == |s.versions| - 1;
      var s3 := Next(s2, Choose(i), config);
      assert s3.phases[i].Storing? && s3.phases[i].modeAt == |s.flags| - 1;
    }
  }

  // ---- Calls and writes by their position in the run ------------------------------------------

  lemma ConfirmedGrows(s: System, step: Step, config: Config)
    ensures s.confirmed <= Next(s, step, config).confirmed && s.flags <= Next(s, step, config).flags
    ensures Next(s, step, config).clock == s.clock + 1
  {
    hide MakeStats, Usable;
  }

  /** What has been confirmed stays confirmed. */
  lemma {:induction false} RunConfirms(s: System, steps: seq<Step>, a: nat, b: nat, config: Config)
    requires a <= b <= |steps|
    ensures Run(s, steps[..a], config).confirmed <= Run(s, steps[..b], config).confirmed
    decreases b
  {
    hide Next;
    if a < b {
      RunConfirms(s, steps, a, b - 1, config);
      assert steps[..b][..b - 1] == steps[..b - 1];
      ConfirmedGrows(Run(s, steps[..b - 1], config), steps[b - 1], config);
    }
  }

  /** A call of this thread began at this step, knowing what was confirmed then. */
  ghost predicate BeganAt(begin: System, steps: seq<Step>, config: Config, thread: nat, begun: nat, since: nat) {
    && begun < |steps| && steps[begun] == Call(thread)
    && since == Run(begin, steps[..begun], config).confirmed
  }

  /** The answer was given at its step, under the flag setting in force then. */
  ghost predicate EndedAt(begin: System, steps: seq<Step>, config: Config, a: Answer) {
    a.ended < |steps| && a.flagNow == Flag(Run(begin, steps[..a.ended], config))
  }

  ghost predicate CallBegan(begin: System, steps: seq<Step>, config: Config, i: nat, p: Phase) {
    p.Waiting? || p.Querying? || p.Choosing? || p.Storing? ==> BeganAt(begin, steps, config, i, p.begun, p.since)
  }

  ghost predicate Placed(begin: System, steps: seq<Step>, config: Config, s: System) {
    && s.clock == |steps|
    && (forall i :: 0 <= i < |s.phases| ==> CallBegan(begin, steps, config, i, s.phases[i]))
    && (forall k :: 0 <= k < |s.answers| ==>
          var a := s.answers[k];
          BeganAt(begin, steps, config, a.thread, a.begun, a.since) && EndedAt(begin, steps, config, a))
  }

  lemma PlacedLater(begin: System, steps: seq<Step>, step: Step, config: Config, s: System)
    requires Placed(begin, steps, config, s)
    ensures Placed(begin, steps + [step], config, s.(clock := s.clock + 1))
  {
    hide Run;
    var more := steps + [step];
    assert forall n :: 0 <= n <= |steps| ==> more[..n] == steps[..n];
    assert forall n :: 0 <= n < |steps| ==> more[n] == steps[n];
    forall i | 0 <= i < |s.phases| ensures CallBegan(begin, more, config, i, s.phases[i]) {
      assert CallBegan(begin, steps, config, i, s.phases[i]);
    }
  }

  lemma PlacedStep(begin: System, steps: seq<Step>, step: Step, config: Config, s: System)
    requires Placed(begin, steps, config, s) && s == Run(begin, steps, config)
    ensures Placed(begin, steps + [step], config, Next(s, step, config))
  {
    hide Run, Usable, MakeStats, Flag, BeganAt;
    var more := steps + [step];
    var s' := Next(s, step, config);
    PlacedLater(begin, steps, step, config, s);
    assert more[..|steps|] == steps && more[|steps|] == step;
    forall i | 0 <= i < |s'.phases| ensures CallBegan(begin, more, config, i, s'.phases[i]) {
      assert CallBegan(begin, more, config, i, s.phases[i]);
      CallsBeginNow(begin, more, config, i, s.confirmed);
    }
    forall k | 0 <= k < |s'.answers|
      ensures var a := s'.answers[k];
              BeganAt(begin, more, config, a.thread, a.begun, a.since) && EndedAt(begin, more, config, a)
    {
      if k < |s.answers| {
        assert s'.answers[k] == s.answers[k];
      } else {
        assert CallBegan(begin, more, config, step.thread, s.phases[step.thread]);
      }
    }
  }

  lemma CallsBeginNow(begin: System, steps: seq<Step>, config: Config, i: nat, confirmed: nat)
    requires steps != [] && confirmed == Run(begin, steps[..|steps| - 1], config).confirmed
    ensures steps[|steps| - 1] == Call(i) ==> BeganAt(begin, steps, config, i, |steps| - 1, confirmed)
  {
    hide Run;
  }

  lemma {:induction false} RunIsPlaced(counts: Counts, threads: nat, steps: seq<Step>, config: Config)
    ensures Placed(Begin(counts, threads), steps, config, Run(Begin(counts, threads), steps, config))
    decreases |steps|
  {
    hide Placed, Next;
    if steps == [] {
      BeginIsPlaced(counts, threads, config);
    } else {
      var n := |steps| - 1;
      RunIsPlaced(counts, threads, steps[..n], config);
      PlacedStep(Begin(counts, threads), steps[..n], steps[n], config, Run(Begin(counts, threads), steps[..n], config));
      assert steps[..n] + [steps[n]] == steps;
    }
  }

  lemma BeginIsPlaced(counts: Counts, threads: nat, config: Config)
    ensures Placed(Begin(counts, threads), [], config, Begin(counts, threads))
  {
  }

  /** At step i the invalidation of this thread's committed write took effect; then the write returns. */
  ghost predicate WriteReturns(begin: System, steps: seq<Step>, config: Config, i: nat, writer: nat, version: nat) {
    && i < |steps| && steps[i] == Invalidate(writer)
    && var s := Run(begin, steps[..i], config);
       At(s, writer) && s.phases[writer] == Invalidating(version) && s.lock.None?
  }

  /** A call that begins at any later step, on any thread and whatever happens between, is answered with
      counts queried from the written version or a later one. */
  lemma LaterCallsSeeTheWrite(counts: Counts, threads: nat, steps: seq<Step>, config: Config, i: nat, writer: nat,
                              version: nat, k: nat)
    requires WriteReturns(Begin(counts, threads), steps, config, i, writer, version)
    requires k < |Run(Begin(counts, threads), steps, config).answers|
    requires i < Run(Begin(counts, threads), steps, config).answers[k].begun
    ensures var a := Run(Begin(counts, threads), steps, config).answers[k];
            a.begun < |steps| && steps[a.begun] == Call(a.thread) && version <= a.read
  {
    var begin := Begin(counts, threads);
    var a := Run(begin, steps, config).answers[k];
    RunIsPlaced(counts, threads, steps, config);
    assert BeganAt(begin, steps, config, a.thread, a.begun, a.since);
    assert steps[..i + 1][..i] == steps[..i];
    RunConfirms(begin, steps, i + 1, a.begun, config);
    StatsAgreeWithQueries(counts, threads, steps, config, k);
  }

  // ---- The vector-index flag ------------------------------------------------------------------

  /** How often the flag changed between two settings. */
  function Changes(flags: seq<bool>, a: nat, b: nat): nat
    requires a <= b < |flags|
    decreases b
  {
    if a == b then 0 else Changes(flags, a, b - 1) + if flags[b] != flags[b - 1] then 1 else 0
  }

  lemma {:induction false} OddChangesDiffer(flags: seq<bool>, a: nat, b: nat)
    requires a <= b < |flags|
    ensures flags[a] != flags[b] <==> Changes(flags, a, b) % 2 == 1
    decreases b
  {
    if a < b {
      OddChangesDiffer(flags, a, b - 1);
    }
  }

  /** In every interleaving: the flag an answer shows is the one set when its statistics were made, and it
      differs from the one in force when it is returned if and only if the answer comes from the cache and
      the flag changed an odd number of times in between.  Its search mode rests on an earlier read, and
      disagrees with its own flag if and only if the flag changed an odd number of times between the two. */
  lemma FlagLagsExactly(counts: Counts, threads: nat, steps: seq<Step>, config: Config, k: nat)
    requires k < |Run(Begin(counts, threads), steps, config).answers|
    ensures var s := Run(Begin(counts, threads), steps, config);
            var a := s.answers[k];
            && a.modeAt <= a.flagAt <= a.flagNow < |s.flags|
            && a.stats.indexed == s.flags[a.flagAt] && a.stats.ann == (config.useANN && s.flags[a.modeAt])
            && a.ended < |steps| && a.flagNow == Flag(Run(Begin(counts, threads), steps[..a.ended], config))
            && (a.stats.indexed != s.flags[a.flagNow]
                <==> a.now != a.at && Changes(s.flags, a.flagAt, a.flagNow) % 2 == 1)
            && (a.stats.ann != (config.useANN && a.stats.indexed)
                <==> config.useANN && Changes(s.flags, a.modeAt, a.flagAt) % 2 == 1)
  {
    hide Run;
    var s := Run(Begin(counts, threads), steps, config);
    var a := s.answers[k];
    StatsAgreeWithQueries(counts, threads, steps, config, k);
    RunIsPlaced(counts, threads, steps, config);
    assert EndedAt(Begin(counts, threads), steps, config, a);
    OddChangesDiffer(s.flags, a.flagAt, a.flagNow);
    OddChangesDiffer(s.flags, a.modeAt, a.flagAt);
  }

  lemma RunNone(s: System, config: Config)
    ensures Run(s, [], config) == s
  {
  }

  lemma RunOne(s: System, steps: seq<Step>, step: Step, config: Config)
    ensures Run(s, steps + [step], config) == Next(Run(s, steps, config), step, config)
  {
    assert (steps + [step])[..|steps + [step]| - 1] == steps;
  }

  /** Both lags happen, for either setting: `Optimize` or `DiscoverIndexes` may find an index the cached
      answer denies, and `DiscoverIndexes` may find it gone while the cached answer still claims it. */
  lemma IndexFlagMayLag(config: Config, value: bool)
    requires config.ttl > 1
    ensures exists steps :: LastAnswerLags(Run(Begin(Counts(0, 0), 1), steps, config), value)
  {
    hide Run, Next;
    var s := Begin(Counts(0, 0), 1);
    RunNone(s, config);
    RunOne(s, [], SetIndex(!value), config);
    RunOne(s, [] + [SetIndex(!value)], Call(0), config);
    var called := [] + [SetIndex(!value)] + [Call(0)];
    RunOne(s, called, Lock(0, 10), config);
    RunOne(s, called + [Lock(0, 10)], Query(0), config);
    RunOne(s, called + [Lock(0, 10)] + [Query(0)], Choose(0), config);
    var asked := called + [Lock(0, 10)] + [Query(0)] + [Choose(0)];
    RunOne(s, asked, Store(0), config);
    RunOne(s, asked + [Store(0)], SetIndex(value), config);
    RunOne(s, asked + [Store(0)] + [SetIndex(value)], Call(0), config);
    RunOne(s, asked + [Store(0)] + [SetIndex(value)] + [Call(0)], Lock(0, 11), config);
    var cached := Run(s, asked + [Store(0)], config);
    FirstAnswer(s, config, value);
    SecondAnswer(cached, config, value);
    assert LastAnswerLags(Run(s, asked + [Store(0)] + [SetIndex(value)] + [Call(0)] + [Lock(0, 11)], config), value);
  }

  predicate LastAnswerLags(s: System, value: bool) {
    && s.answers != [] && s.answers[|s.answers| - 1].stats.indexed != value
    && s.flags != [] && s.flags[|s.flags| - 1] == value
  }

  /** One idle thread and a cache that shows the setting. */
  predicate Shows(s: System, value: bool) {
    && s.phases == [Resting] && s.lock.None? && s.cache.Some? && s.cache.value.at == 10
    && s.cache.value.value.indexed == value
  }

  lemma FirstAnswer(s: System, config: Config, value: bool)
    requires s == Begin(Counts(0, 0), 1)
    ensures var s1 := Next(Next(s, SetIndex(!value), config), Call(0), config);
            var s3 := Next(Next(s1, Lock(0, 10), config), Query(0), config);
            Shows(Next(Next(s3, Choose(0), config), Store(0), config), !value)
  {
    hide Rate, Eta;
    var s1 := Next(Next(s, SetIndex(!value), config), Call(0), config);
    assert s1.flags == [false, !value] && s1.phases == [Waiting(0, 1)];
    var s2 := Next(s1, Lock(0, 10), config);
    assert s2.phases == [Querying(0, 1, 10)] && s2.lock == Some(0);
    var s3 := Next(s2, Query(0), config);
    assert s3.phases == [Choosing(0, 1, 10, 0)];
    var s4 := Next(s3, Choose(0), config);
    assert s4.phases == [Storing(0, 1, 10, 0, 1)];
  }

  lemma SecondAnswer(s: System, config: Config, value: bool)
    requires config.ttl > 1 && Shows(s, !value)
    ensures LastAnswerLags(Next(Next(Next(s, SetIndex(value), config), Call(0), config), Lock(0, 11), config), value)
  {
    var called := Next(Next(s, SetIndex(value), config), Call(0), config);
    assert called.phases[0].Waiting? && called.cache == s.cache;
  }
}
