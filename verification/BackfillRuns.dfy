/** The backfill worker pool (internal/history/store/backfill.go:18-80) as an interleaving of steps.

    Workers share the table.  Reading a batch and writing it are separate steps, with any steps of the
    other workers between them; every read and write may fail, and a write that reports an error may
    still have been applied. */
module BackfillRuns {
  import opened Options
  import opened Chunk
  import opened Shards
  import opened Plans
  import opened Backfill

  datatype Worker =
    | Idle
    | Reading(shard: nat, batch: nat, embedded: nat)
    | Writing(shard: nat, batch: nat, embedded: nat, ids: seq<string>, chunks: seq<Chunk>)

  datatype ShardResult = ShardResult(shard: nat, count: nat, ok: bool)

  datatype State = State(table: Table, next: nat, workers: seq<Worker>, results: seq<ShardResult>)

  datatype WriteAnswer = Committed | Rejected | Lost   // Lost: applied, but an error is reported

  datatype Step =
    | Take(worker: nat, cancelled: bool)
    | Read(worker: nat, rows: Option<seq<string>>)
    | Write(worker: nat, reply: WriteAnswer)

  /** A read answers with pending rows of the shard, and with none only when there are none. */
  predicate CorrectRead(t: Table, k: nat, ids: seq<string>)
    requires k < SHARDS
  {
    && Distinct(ids)
    && (forall i :: 0 <= i < |ids| ==> ids[i] in PendingIn(t, k))
    && (ids == [] ==> PendingIn(t, k) == {})
  }

  predicate AllReadable(t: Table, ids: seq<string>) {
    forall i :: 0 <= i < |ids| ==> ids[i] in t && FromRow(ids[i], t[ids[i]]).Some?
  }

  function ChunksAt(t: Table, ids: seq<string>): (chunks: seq<Chunk>)
    requires AllReadable(t, ids)
    ensures ReadFrom(t, ids, chunks)
  {
    seq(|ids|, i requires 0 <= i < |ids| => FromRow(ids[i], t[ids[i]]).value)
  }

  function Finish(s: State, w: nat, count: nat, ok: bool): State
    requires w < |s.workers| && !s.workers[w].Idle?
  {
    s.(workers := s.workers[w := Idle], results := s.results + [ShardResult(s.workers[w].shard, count, ok)])
  }

  function TakeStep(s: State, w: nat, cancelled: bool): State {
    if w >= |s.workers| || !s.workers[w].Idle? || s.next >= SHARDS then s
    else if cancelled then s.(next := s.next + 1, results := s.results + [ShardResult(s.next, 0, false)])
    else s.(next := s.next + 1, workers := s.workers[w := Reading(s.next, 0, 0)])
  }

  function ReadStep(s: State, w: nat, answer: Option<seq<string>>): State {
    if w >= |s.workers| || !s.workers[w].Reading? || s.workers[w].shard >= SHARDS then s
    else
      var me := s.workers[w];
      if answer.None? then Finish(s, w, me.embedded, false)
      else
        var ids := answer.value;
        if !CorrectRead(s.table, me.shard, ids) then s
        else if ids == [] then Finish(s, w, me.embedded, true)
        else if |ids| > MAX_UPSERT || !AllReadable(s.table, ids) then Finish(s, w, me.embedded, false)
        else s.(workers := s.workers[w := Writing(me.shard, me.batch, me.embedded, ids, ChunksAt(s.table, ids))])
  }

  function WriteStep(s: State, w: nat, answer: WriteAnswer, maxBatches: nat, model: Model): State {
    if w >= |s.workers| || !s.workers[w].Writing? then s
    else
      var me := s.workers[w];
      if answer.Rejected? then Finish(s, w, me.embedded, false)
      else
        var written := s.(table := Stored(s.table, model, me.chunks));
        var total := me.embedded + |me.chunks|;
        if answer.Lost? then Finish(written, w, me.embedded, false)
        else if me.batch + 1 >= maxBatches then Finish(written, w, total, false)
        else written.(workers := s.workers[w := Reading(me.shard, me.batch + 1, total)])
  }

  function Next(s: State, step: Step, maxBatches: nat, model: Model): State {
    match step
    case Take(w, cancelled) => TakeStep(s, w, cancelled)
    case Read(w, answer) => ReadStep(s, w, answer)
    case Write(w, answer) => WriteStep(s, w, answer, maxBatches, model)
  }

  function Run(s: State, steps: seq<Step>, maxBatches: nat, model: Model): State
    decreases |steps|
  {
    if steps == [] then s
    else Next(Run(s, steps[..|steps| - 1], maxBatches, model), steps[|steps| - 1], maxBatches, model)
  }

  function Begin(t: Table, concurrency: nat): State {
    State(t, 0, seq(concurrency, _ => Idle), [])
  }

  /** A batch over 500 rows, or with a row that cannot be read back, ends the shard as failed and writes nothing. */
  lemma BadBatchFails(s: State, w: nat, ids: seq<string>)
    requires w < |s.workers| && s.workers[w].Reading? && s.workers[w].shard < SHARDS && ids != []
    requires CorrectRead(s.table, s.workers[w].shard, ids) && (|ids| > 500 || !AllReadable(s.table, ids))
    ensures var s' := ReadStep(s, w, Some(ids));
            && s'.table == s.table && s'.workers == s.workers[w := Idle]
            && s'.results == s.results + [ShardResult(s.workers[w].shard, s.workers[w].embedded, false)]
  {
    hide CorrectRead, AllReadable;
  }

  /** The last batch a shard may have ends it as failed, with its rows embedded and counted. */
  lemma LastBatchFails(s: State, w: nat, maxBatches: nat, model: Model)
    requires w < |s.workers| && s.workers[w].Writing? && s.workers[w].batch + 1 == maxBatches
    ensures var me, s' := s.workers[w], WriteStep(s, w, Committed, maxBatches, model);
            && s'.table == Stored(s.table, model, me.chunks) && s'.workers == s.workers[w := Idle]
            && s'.results == s.results + [ShardResult(me.shard, me.embedded + |me.chunks|, false)]
  {
    hide Stored;
  }

  // ---- Tallies --------------------------------------------------------------------------------

  function Total(results: seq<ShardResult>): nat {
    if results == [] then 0 else Total(results[..|results| - 1]) + results[|results| - 1].count
  }

  /** How many workers hold a shard. */
  function Busy(workers: seq<Worker>): nat {
    if workers == [] then 0
    else Busy(workers[..|workers| - 1]) + if workers[|workers| - 1].Idle? then 0 else 1
  }

  function Embedded(w: Worker): nat {
    if w.Idle? then 0 else w.embedded
  }

  /** What the workers have embedded and not yet reported. */
  function Unreported(workers: seq<Worker>): nat {
    if workers == [] then 0 else Unreported(workers[..|workers| - 1]) + Embedded(workers[|workers| - 1])
  }

  lemma {:induction false} TallyUpdate(workers: seq<Worker>, w: nat, worker: Worker)
    requires w < |workers|
    ensures Unreported(workers[w := worker]) == Unreported(workers) - Embedded(workers[w]) + Embedded(worker)
    ensures Busy(workers[w := worker])
         == Busy(workers) - (if workers[w].Idle? then 0 else 1) + if worker.Idle? then 0 else 1
    decreases |workers|
  {
    var n := |workers| - 1;
    if w < n {
      TallyUpdate(workers[..n], w, worker);
      assert workers[w := worker][..n] == workers[..n][w := worker];
    } else {
      assert workers[w := worker][..n] == workers[..n];
    }
  }

  lemma {:induction false} AllIdle(workers: seq<Worker>)
    requires forall w :: 0 <= w < |workers| ==> workers[w].Idle?
    ensures Busy(workers) == 0 && Unreported(workers) == 0
    decreases |workers|
  {
    if workers != [] {
      AllIdle(workers[..|workers| - 1]);
    }
  }

  lemma TotalMore(results: seq<ShardResult>, r: ShardResult)
    ensures Total(results + [r]) == Total(results) + r.count
  {
  }

  // ---- Invariant ------------------------------------------------------------------------------

  /** Each row is as it was at the start, or was pending then and is completed. */
  predicate Between(model: Model, t0: Table, t: Table) {
    && t.Keys == t0.Keys
    && forall id :: id in t0 ==>
         t[id] == t0[id] || (t0[id].vector.None? && HasShardPrefix(id) && t[id] == Rewritten(model, t0[id]))
  }

  /** The ids embedded since the start. */
  function Filled(t0: Table, t: Table): set<string> {
    set id | id in t0 && t0[id].vector.None? && id in t && t[id].vector.Some?
  }

  /** No two workers hold one shard. */
  predicate Owned(s: State) {
    && s.next <= SHARDS
    && (forall w :: 0 <= w < |s.workers| && !s.workers[w].Idle? ==> s.workers[w].shard < s.next)
    && (forall w, v :: 0 <= w < v < |s.workers| && !s.workers[w].Idle? && !s.workers[v].Idle? ==>
          s.workers[w].shard != s.workers[v].shard)
  }

  predicate Held(s: State, k: nat) {
    || (exists w :: 0 <= w < |s.workers| && !s.workers[w].Idle? && s.workers[w].shard == k)
    || (exists r :: 0 <= r < |s.results| && s.results[r].shard == k)
  }

  /** No shard that was handed out is forgotten. */
  predicate Accounted(s: State) {
    && |s.results| + Busy(s.workers) == s.next
    && forall k :: 0 <= k < s.next ==> Held(s, k)
  }

  /** What a worker is about to write is still what the table holds. */
  predicate Fresh(t: Table, w: Worker) {
    w.Writing? ==>
      && w.shard < SHARDS && Distinct(w.ids) && ReadFrom(t, w.ids, w.chunks)
      && forall i :: 0 <= i < |w.ids| ==> w.ids[i] in PendingIn(t, w.shard)
  }

  predicate AllFresh(s: State) {
    forall w :: 0 <= w < |s.workers| ==> Fresh(s.table, s.workers[w])
  }

  predicate Cleared(t: Table, r: ShardResult) {
    r.ok ==> r.shard < SHARDS && PendingIn(t, r.shard) == {}
  }

  predicate AllCleared(s: State) {
    forall r :: 0 <= r < |s.results| ==> Cleared(s.table, s.results[r])
  }

  predicate AllOk(results: seq<ShardResult>) {
    forall r :: 0 <= r < |results| ==> results[r].ok
  }

  /** Counts never exceed what was embedded, and agree with it as long as no shard failed. */
  predicate Counted(t0: Table, s: State) {
    var sum := Total(s.results) + Unreported(s.workers);
    sum <= |Filled(t0, s.table)| && (AllOk(s.results) ==> sum == |Filled(t0, s.table)|)
  }

  predicate Invariant(model: Model, t0: Table, s: State) {
    Between(model, t0, s.table) && Owned(s) && Accounted(s) && AllFresh(s) && AllCleared(s) && Counted(t0, s)
  }

  // ---- Preservation ---------------------------------------------------------------------------

  lemma HeldAfter(s: State, s': State, w: nat, k: nat)
    requires w < |s.workers| && |s'.workers| == |s.workers| && s.results <= s'.results && Held(s, k)
    requires forall v :: 0 <= v < |s.workers| && v != w ==> s'.workers[v] == s.workers[v]
    requires !s.workers[w].Idle? && s.workers[w].shard == k ==> Held(s', k)
    ensures Held(s', k)
  {
  }

  lemma TakeKeeps(model: Model, t0: Table, s: State, w: nat, cancelled: bool)
    requires Invariant(model, t0, s)
    ensures Invariant(model, t0, TakeStep(s, w, cancelled))
  {
    hide Between, Filled, Fresh, Cleared, Owned, Accounted, Total, Unreported, AllOk;
    if w < |s.workers| && s.workers[w].Idle? && s.next < SHARDS {
      var r, worker := ShardResult(s.next, 0, false), Reading(s.next, 0, 0);
      TakeAccounts(s, w, cancelled);
      TotalMore(s.results, r);
      OkBefore(s.results, r);
      FailedIsCleared(s.table, r);
      TallyUpdate(s.workers, w, worker);
      IdleIsFresh(s.table, worker);
    }
  }

  /** Taking hands the next shard to the worker, or straight to the results. */
  lemma TakeAccounts(s: State, w: nat, cancelled: bool)
    requires Owned(s) && Accounted(s) && w < |s.workers| && s.workers[w].Idle? && s.next < SHARDS
    ensures Owned(TakeStep(s, w, cancelled)) && Accounted(TakeStep(s, w, cancelled))
  {
    var s' := TakeStep(s, w, cancelled);
    TallyUpdate(s.workers, w, Reading(s.next, 0, 0));
    if cancelled {
      assert s'.results[|s.results|].shard == s.next;
    } else {
      assert s'.workers[w].shard == s.next;
    }
    assert Held(s', s.next);
    hide Held, Busy;
    forall k | 0 <= k < s'.next ensures Held(s', k) {
      if k < s.next {
        HeldAfter(s, s', w, k);
      }
    }
  }

  lemma IdleIsFresh(t: Table, w: Worker)
    requires !w.Writing?
    ensures Fresh(t, w)
  {
  }

  lemma FailedIsCleared(t: Table, r: ShardResult)
    requires !r.ok
    ensures Cleared(t, r)
  {
  }

  /** Finishing a shard in a table where everything but its own entry is in order. */
  lemma FinishKeeps(model: Model, t0: Table, s: State, w: nat, count: nat, ok: bool)
    requires Between(model, t0, s.table) && Owned(s) && Accounted(s) && AllCleared(s)
    requires w < |s.workers| && !s.workers[w].Idle?
    requires forall v :: 0 <= v < |s.workers| && v != w ==> Fresh(s.table, s.workers[v])
    requires Cleared(s.table, ShardResult(s.workers[w].shard, count, ok))
    requires var sum := Total(s.results) + Unreported(s.workers) - Embedded(s.workers[w]) + count;
             sum <= |Filled(t0, s.table)| && (AllOk(s.results) && ok ==> sum == |Filled(t0, s.table)|)
    ensures Invariant(model, t0, Finish(s, w, count, ok))
  {
    hide Between, Filled, Fresh, Cleared, Owned, Accounted, Total, Unreported, AllFresh, AllCleared, AllOk;
    var r := ShardResult(s.workers[w].shard, count, ok);
    TallyUpdate(s.workers, w, Idle);
    TotalMore(s.results, r);
    OkBefore(s.results, r);
    FinishAccounts(s, w, count, ok);
    FinishFresh(s, w, count, ok);
    FinishCleared(s, w, count, ok);
  }

  lemma FinishFresh(s: State, w: nat, count: nat, ok: bool)
    requires w < |s.workers| && !s.workers[w].Idle?
    requires forall v :: 0 <= v < |s.workers| && v != w ==> Fresh(s.table, s.workers[v])
    ensures AllFresh(Finish(s, w, count, ok))
  {
    hide Fresh;
    IdleIsFresh(s.table, Idle);
  }

  lemma FinishCleared(s: State, w: nat, count: nat, ok: bool)
    requires w < |s.workers| && !s.workers[w].Idle? && AllCleared(s)
    requires Cleared(s.table, ShardResult(s.workers[w].shard, count, ok))
    ensures AllCleared(Finish(s, w, count, ok))
  {
    hide Cleared;
  }

  lemma OkBefore(results: seq<ShardResult>, r: ShardResult)
    ensures AllOk(results + [r]) <==> AllOk(results) && r.ok
  {
    assert (results + [r])[|results|] == r;
    assert forall i :: 0 <= i < |results| ==> (results + [r])[i] == results[i];
  }

  /** Finishing moves a shard from its worker to the results. */
  lemma FinishAccounts(s: State, w: nat, count: nat, ok: bool)
    requires Owned(s) && Accounted(s) && w < |s.workers| && !s.workers[w].Idle?
    ensures Owned(Finish(s, w, count, ok)) && Accounted(Finish(s, w, count, ok))
  {
    var s' := Finish(s, w, count, ok);
    TallyUpdate(s.workers, w, Idle);
    assert s'.results[|s.results|].shard == s.workers[w].shard;
    assert Held(s', s.workers[w].shard);
    hide Held;
    forall k | 0 <= k < s'.next ensures Held(s', k) {
      HeldAfter(s, s', w, k);
    }
  }

  /** Replacing a worker's entry by one with the same shard keeps the bookkeeping. */
  lemma SwappedKeeps(s: State, s': State, w: nat)
    requires Owned(s) && Accounted(s) && w < |s.workers| && !s.workers[w].Idle?
    requires |s'.workers| == |s.workers| && s' == s.(table := s'.table, workers := s.workers[w := s'.workers[w]])
    requires !s'.workers[w].Idle? && s'.workers[w].shard == s.workers[w].shard
    ensures Owned(s') && Accounted(s')
  {
    TallyUpdate(s.workers, w, s'.workers[w]);
    assert Held(s', s.workers[w].shard);
    forall k | 0 <= k < s'.next ensures Held(s', k) {
      HeldAfter(s, s', w, k);
    }
  }

  /** A worker moves on within its shard, in a table where everything but its own entry is in order. */
  lemma ReplaceKeeps(model: Model, t0: Table, s: State, w: nat, worker: Worker)
    requires Between(model, t0, s.table) && Owned(s) && Accounted(s) && AllCleared(s)
    requires w < |s.workers| && !s.workers[w].Idle? && !worker.Idle? && worker.shard == s.workers[w].shard
    requires forall v :: 0 <= v < |s.workers| && v != w ==> Fresh(s.table, s.workers[v])
    requires Fresh(s.table, worker)
    requires var sum := Total(s.results) + Unreported(s.workers) - Embedded(s.workers[w]) + Embedded(worker);
             sum <= |Filled(t0, s.table)| && (AllOk(s.results) ==> sum == |Filled(t0, s.table)|)
    ensures Invariant(model, t0, s.(workers := s.workers[w := worker]))
  {
    hide Between, Filled, Fresh, Cleared, Owned, Accounted;
    TallyUpdate(s.workers, w, worker);
    SwappedKeeps(s, s.(workers := s.workers[w := worker]), w);
  }

  lemma ReadKeeps(model: Model, t0: Table, s: State, w: nat, answer: Option<seq<string>>)
    requires Invariant(model, t0, s)
    ensures Invariant(model, t0, ReadStep(s, w, answer))
  {
    hide Between, Filled, Rewritten, FromRow, PendingIn, Owned, Accounted;
    var s' := ReadStep(s, w, answer);
    if w < |s.workers| && s.workers[w].Reading? && s' != s {
      var me := s.workers[w];
      if !s'.workers[w].Writing? {
        FinishKeeps(model, t0, s, w, me.embedded, s'.results[|s.results|].ok);
      } else {
        ReplaceKeeps(model, t0, s, w, s'.workers[w]);
      }
    }
  }

  /** The ids of a batch about to be written are untouched so far. */
  predicate Unfilled(t0: Table, t: Table, id: string) {
    id in t0 && id in t && HasShardPrefix(id) && t[id] == t0[id] && t[id].vector.None?
  }

  lemma BatchIsUnfilled(model: Model, t0: Table, t: Table, me: Worker, id: string)
    requires me.Writing?
    ensures Between(model, t0, t) && Fresh(t, me) && id in IdSet(me.ids) ==> Unfilled(t0, t, id)
  {
    hide FromRow, Normalized, ShardName;
    if me.shard < SHARDS {
      ExactlyOneShard(id, me.shard);
    }
  }

  lemma CompletionStaysBetween(model: Model, t0: Table, t: Table, ids: set<string>)
    requires Between(model, t0, t) && forall id :: id in ids ==> Unfilled(t0, t, id)
    ensures Between(model, t0, Complete(t, model, ids))
  {
  }

  lemma CompletionFills(model: Model, t0: Table, t: Table, ids: set<string>)
    requires t.Keys == t0.Keys && forall id :: id in ids ==> Unfilled(t0, t, id)
    ensures Filled(t0, Complete(t, model, ids)) == Filled(t0, t) + ids && Filled(t0, t) !! ids
  {
  }

  /** The table after one worker wrote its batch. */
  lemma StoredStaysBetween(model: Model, t0: Table, t: Table, me: Worker)
    requires Between(model, t0, t) && me.Writing? && Fresh(t, me)
    ensures var t' := Stored(t, model, me.chunks);
            Between(model, t0, t') && |Filled(t0, t')| == |Filled(t0, t)| + |me.chunks|
  {
    hide FromRow, Complete, Filled, Stored, Rewritten, Unfilled;
    forall id | id in IdSet(me.ids) ensures Unfilled(t0, t, id) {
      BatchIsUnfilled(model, t0, t, me, id);
    }
    StoredCompletes(t, model, me.ids, me.chunks);
    CompletionStaysBetween(model, t0, t, IdSet(me.ids));
    CompletionFills(model, t0, t, IdSet(me.ids));
    IdSetSize(me.ids);
  }

  /** Another worker's batch is untouched by this write, because its shard is another one. */
  lemma OthersStayFresh(model: Model, t: Table, me: Worker, other: Worker)
    requires me.Writing? && Fresh(t, me) && Fresh(t, other)
    requires !other.Idle? ==> other.shard != me.shard
    ensures Fresh(Stored(t, model, me.chunks), other)
  {
    hide FromRow, Rewritten;
    StoredCompletes(t, model, me.ids, me.chunks);
    if other.Writing? {
      forall i | 0 <= i < |other.ids| ensures other.ids[i] !in IdSet(me.ids) {
        ExactlyOneShard(other.ids[i], me.shard);
        ExactlyOneShard(other.ids[i], other.shard);
      }
    }
  }

  lemma ClearedStays(model: Model, t: Table, me: Worker, r: ShardResult)
    requires me.Writing? && Fresh(t, me) && Cleared(t, r)
    ensures Cleared(Stored(t, model, me.chunks), r)
  {
    hide FromRow;
    StoredCompletes(t, model, me.ids, me.chunks);
    if r.ok {
      PendingAfter(t, model, r.shard, IdSet(me.ids));
    }
  }

  /** The state just after the table changed, before the worker moves on. */
  lemma WrittenKeeps(model: Model, t0: Table, s: State, w: nat)
    requires Invariant(model, t0, s) && w < |s.workers| && s.workers[w].Writing?
    ensures var s' := s.(table := Stored(s.table, model, s.workers[w].chunks));
            && Between(model, t0, s'.table) && Owned(s') && Accounted(s') && AllCleared(s')
            && (forall v :: 0 <= v < |s.workers| && v != w ==> Fresh(s'.table, s'.workers[v]))
            && |Filled(t0, s'.table)| == |Filled(t0, s.table)| + |s.workers[w].chunks|
  {
    hide Between, Filled, Fresh, Cleared, Stored;
    var me := s.workers[w];
    StoredStaysBetween(model, t0, s.table, me);
    var s' := s.(table := Stored(s.table, model, me.chunks));
    forall v | 0 <= v < |s.workers| && v != w ensures Fresh(s'.table, s'.workers[v]) {
      OthersStayFresh(model, s.table, me, s.workers[v]);
    }
    forall r | 0 <= r < |s.results| ensures Cleared(s'.table, s.results[r]) {
      ClearedStays(model, s.table, me, s.results[r]);
    }
    assert forall k :: Held(s', k) <==> Held(s, k);
  }

  lemma WriteKeeps(model: Model, t0: Table, s: State, w: nat, answer: WriteAnswer, maxBatches: nat)
    requires Invariant(model, t0, s)
    ensures Invariant(model, t0, WriteStep(s, w, answer, maxBatches, model))
  {
    hide Between, Filled, Fresh, Cleared, Stored, Owned, Accounted;
    if w < |s.workers| && s.workers[w].Writing? {
      var me := s.workers[w];
      FailedIsCleared(s.table, ShardResult(me.shard, me.embedded, false));
      if answer.Rejected? {
        FinishKeeps(model, t0, s, w, me.embedded, false);
      } else {
        var written := s.(table := Stored(s.table, model, me.chunks));
        var total := me.embedded + |me.chunks|;
        WrittenKeeps(model, t0, s, w);
        FailedIsCleared(written.table, ShardResult(me.shard, me.embedded, false));
        FailedIsCleared(written.table, ShardResult(me.shard, total, false));
        if answer.Lost? {
          FinishKeeps(model, t0, written, w, me.embedded, false);
        } else if me.batch + 1 >= maxBatches {
          FinishKeeps(model, t0, written, w, total, false);
        } else {
          IdleIsFresh(written.table, Reading(me.shard, me.batch + 1, total));
          ReplaceKeeps(model, t0, written, w, Reading(me.shard, me.batch + 1, total));
        }
      }
    }
  }

  lemma BeginHolds(model: Model, t: Table, concurrency: nat)
    ensures Invariant(model, t, Begin(t, concurrency))
  {
    var s := Begin(t, concurrency);
    AllIdle(s.workers);
    assert Filled(t, t) == {};
  }

  lemma {:induction false} RunKeeps(model: Model, t: Table, concurrency: nat, steps: seq<Step>, maxBatches: nat)
    ensures Invariant(model, t, Run(Begin(t, concurrency), steps, maxBatches, model))
    decreases |steps|
  {
    hide Invariant;
    if steps == [] {
      BeginHolds(model, t, concurrency);
    } else {
      var n := |steps| - 1;
      RunKeeps(model, t, concurrency, steps[..n], maxBatches);
      var s := Run(Begin(t, concurrency), steps[..n], maxBatches, model);
      match steps[n] {
        case Take(w, cancelled) => TakeKeeps(model, t, s, w, cancelled);
        case Read(w, answer) => ReadKeeps(model, t, s, w, answer);
        case Write(w, answer) => WriteKeeps(model, t, s, w, answer, maxBatches);
      }
    }
  }

  // ---- Results --------------------------------------------------------------------------------

  /** The pool has ended with one result per shard, as `Backfill` checks before it returns nil. */
  predicate Ended(s: State) {
    (forall w :: 0 <= w < |s.workers| ==> s.workers[w].Idle?) && |s.results| == SHARDS
  }

  function AllPending(t: Table): set<string> {
    set id | id in t && t[id].vector.None? && HasShardPrefix(id)
  }

  lemma ShardDone(model: Model, t: Table, s: State, id: string)
    requires Invariant(model, t, s) && Ended(s) && AllOk(s.results) && id in AllPending(t)
    ensures s.table[id] == Rewritten(model, t[id])
  {
    hide Filled, Counted, AllFresh, Rewritten;
    AllIdle(s.workers);
    var k := ShardOf(id);
    assert Held(s, k);
    var r :| 0 <= r < |s.results| && s.results[r].shard == k;
    assert Cleared(s.table, s.results[r]) && s.results[r].ok;
    ExactlyOneShard(id, k);
    assert id !in PendingIn(s.table, k);
  }

  /** Any interleaving in which all shards succeed completes exactly the pending rows of accepted ids,
      and reports exactly their number. */
  lemma BackfillCompletes(model: Model, t: Table, concurrency: nat, steps: seq<Step>, maxBatches: nat)
    requires var s := Run(Begin(t, concurrency), steps, maxBatches, model);
             Ended(s) && AllOk(s.results)
    ensures var s := Run(Begin(t, concurrency), steps, maxBatches, model);
            && s.table == Complete(t, model, AllPending(t))
            && Total(s.results) == |AllPending(t)|
            && AllPending(s.table) == {}
  {
    hide Run, Rewritten;
    var s := Run(Begin(t, concurrency), steps, maxBatches, model);
    RunKeeps(model, t, concurrency, steps, maxBatches);
    AllIdle(s.workers);
    forall id | id in t ensures s.table[id] == Complete(t, model, AllPending(t))[id] {
      if id in AllPending(t) {
        ShardDone(model, t, s, id);
      }
    }
    assert s.table == Complete(t, model, AllPending(t));
    VectorSet(model, t);
    assert Filled(t, s.table) == AllPending(t);
  }

  lemma VectorSet(model: Model, t: Table)
    ensures forall id :: id in t ==> Rewritten(model, t[id]).vector.Some?
  {
  }

  /** So two successful runs agree, whatever their interleaving, concurrency and batches: in particular
      a concurrent run agrees with one worker taking the shards one by one. */
  lemma InterleavingDoesNotMatter(model: Model, t: Table, concurrency: nat, steps: seq<Step>, maxBatches: nat,
                                  concurrency': nat, steps': seq<Step>, maxBatches': nat)
    requires var s := Run(Begin(t, concurrency), steps, maxBatches, model); Ended(s) && AllOk(s.results)
    requires var s := Run(Begin(t, concurrency'), steps', maxBatches', model); Ended(s) && AllOk(s.results)
    ensures var s := Run(Begin(t, concurrency), steps, maxBatches, model);
            var s' := Run(Begin(t, concurrency'), steps', maxBatches', model);
            s.table == s'.table && Total(s.results) == Total(s'.results)
  {
    hide Run, Complete, AllPending;
    BackfillCompletes(model, t, concurrency, steps, maxBatches);
    BackfillCompletes(model, t, concurrency', steps', maxBatches');
  }

  /** In every run, failed or not and at every moment: no row outside the pending ones of accepted ids
      differs, those that differ are completed, and no more is reported than was embedded. */
  lemma BackfillNeverDamages(model: Model, t: Table, concurrency: nat, steps: seq<Step>, maxBatches: nat)
    ensures var s := Run(Begin(t, concurrency), steps, maxBatches, model);
            && s.table == Complete(t, model, Filled(t, s.table)) && Filled(t, s.table) <= AllPending(t)
            && Total(s.results) <= |Filled(t, s.table)|
  {
    hide Run, Rewritten;
    var s := Run(Begin(t, concurrency), steps, maxBatches, model);
    RunKeeps(model, t, concurrency, steps, maxBatches);
    VectorSet(model, t);
    forall id | id in t ensures s.table[id] == Complete(t, model, Filled(t, s.table))[id] {
    }
  }

  // ---- Successful runs exist ------------------------------------------------------------------

  /** Every shard's pending rows are readable and leave one of its batches to spare. */
  predicate Manageable(t: Table, size: nat, maxBatches: nat)
    requires maxBatches > 0
  {
    forall k :: 0 <= k < SHARDS ==> Readable(t, k) && |PendingIn(t, k)| <= (maxBatches - 1) * size
  }

  lemma {:induction false} ListIds(ids: set<string>) returns (list: seq<string>)
    ensures Distinct(list) && IdSet(list) == ids && |list| == |ids|
    decreases |ids|
  {
    if ids == {} {
      list := [];
    } else {
      var id :| id in ids;
      var rest := ListIds(ids - {id});
      list := rest + [id];
      assert forall i :: 0 <= i < |rest| ==> rest[i] in IdSet(rest);
      forall x | x in ids ensures x in IdSet(list) {
        if x != id {
          assert x in IdSet(rest);
          var i :| 0 <= i < |rest| && rest[i] == x;
          assert list[i] == x;
        } else {
          assert list[|rest|] == x;
        }
      }
    }
  }

  lemma RunOne(s: State, steps: seq<Step>, step: Step, maxBatches: nat, model: Model)
    ensures Run(s, steps + [step], maxBatches, model) == Next(Run(s, steps, maxBatches, model), step, maxBatches, model)
  {
  }

  lemma LaterPending(model: Model, t0: Table, t: Table, k: nat, size: nat, maxBatches: nat)
    requires k < SHARDS && maxBatches > 0 && Between(model, t0, t) && Manageable(t0, size, maxBatches)
    ensures |PendingIn(t, k)| <= (maxBatches - 1) * size && Readable(t, k)
  {
    hide FromRow, Normalized;
    forall id | id in PendingIn(t, k) ensures id in PendingIn(t0, k) && t[id] == t0[id] {
    }
    Subset(PendingIn(t, k), PendingIn(t0, k));
  }

  lemma Subset(a: set<string>, b: set<string>)
    requires a <= b
    ensures |a| <= |b|
  {
    assert b == a + (b - a);
  }

  /** A lone worker whose read comes back empty finishes its shard. */
  lemma ReadNothing(s: State, shard: nat, batch: nat, embedded: nat)
    requires s.workers == [Reading(shard, batch, embedded)] && shard < SHARDS && PendingIn(s.table, shard) == {}
    ensures ReadStep(s, 0, Some([]))
         == s.(workers := [Idle], results := s.results + [ShardResult(shard, embedded, true)])
  {
    hide PendingIn;
  }

  lemma ReadSome(s: State, shard: nat, batch: nat, embedded: nat, ids: seq<string>)
    requires s.workers == [Reading(shard, batch, embedded)] && shard < SHARDS && 0 < |ids| <= MAX_UPSERT
    requires Distinct(ids) && IdSet(ids) <= PendingIn(s.table, shard) && Readable(s.table, shard)
    ensures var s' := ReadStep(s, 0, Some(ids));
            && |s'.workers| == 1 && s' == s.(workers := s'.workers)
            && s'.workers[0].Writing? && s'.workers[0] == Writing(shard, batch, embedded, ids, s'.workers[0].chunks)
            && ReadFrom(s.table, ids, s'.workers[0].chunks)
  {
    hide FromRow;
    forall i | 0 <= i < |ids| ensures ids[i] in PendingIn(s.table, shard) {
      assert ids[i] in IdSet(ids);
    }
  }

  lemma WriteSome(s: State, shard: nat, batch: nat, embedded: nat, ids: seq<string>, chunks: seq<Chunk>,
                  maxBatches: nat, model: Model)
    requires s.workers == [Writing(shard, batch, embedded, ids, chunks)] && shard < SHARDS && batch + 1 < maxBatches
    requires IdSet(ids) <= PendingIn(s.table, shard) && ReadFrom(s.table, ids, chunks)
    ensures var s' := WriteStep(s, 0, Committed, maxBatches, model);
            && s' == s.(table := s'.table, workers := [Reading(shard, batch + 1, embedded + |chunks|)])
            && PendingIn(s'.table, shard) == PendingIn(s.table, shard) - IdSet(ids)
            && (Readable(s.table, shard) ==> Readable(s'.table, shard))
  {
    hide FromRow, PendingIn, Stored, Readable;
    StoredCompletes(s.table, model, ids, chunks);
    PendingAfter(s.table, model, shard, IdSet(ids));
    StillReadable(s.table, model, shard, IdSet(ids));
  }

  /** Some pending ids for one batch. */
  lemma PickBatch(pending: set<string>, size: nat) returns (ids: seq<string>)
    requires pending != {} && size > 0
    ensures Distinct(ids) && IdSet(ids) <= pending && |ids| == Min(size, |pending|) > 0
    ensures |pending - IdSet(ids)| == |pending| - |ids|
  {
    var list := ListIds(pending);
    ids := list[..Min(size, |list|)];
    forall x | x in IdSet(ids) ensures x in pending {
      assert x in IdSet(list);
    }
    IdSetSize(ids);
    assert pending == IdSet(ids) + (pending - IdSet(ids));
  }

  lemma BatchesLeft(n: nat, size: nat, left: nat)
    requires 0 < n <= left * size && size > 0
    ensures left > 0 && n - Min(size, n) <= (left - 1) * size
  {
    assert left == 0 ==> left * size == 0;
    assert left * size == (left - 1) * size + size;
  }

  /** A lone worker finishes a shard whose pending rows fit the batches it has left. */
  lemma {:induction false} FinishShard(model: Model, begin: State, steps: seq<Step>, size: nat, maxBatches: nat)
    returns (more: seq<Step>)
    requires var s := Run(begin, steps, maxBatches, model);
             && |s.workers| == 1 && s.workers[0].Reading? && s.workers[0].shard < SHARDS
             && s.workers[0].batch < maxBatches && Readable(s.table, s.workers[0].shard)
             && |PendingIn(s.table, s.workers[0].shard)| <= (maxBatches - 1 - s.workers[0].batch) * size
    requires 0 < size <= MAX_UPSERT
    ensures var s, s' := Run(begin, steps, maxBatches, model), Run(begin, more, maxBatches, model);
            && s'.workers == [Idle] && s'.next == s.next && |s'.results| == |s.results| + 1
            && (AllOk(s.results) ==> AllOk(s'.results))
    decreases |PendingIn(Run(begin, steps, maxBatches, model).table,
                         Run(begin, steps, maxBatches, model).workers[0].shard)|
  {
    hide PendingIn, Readable, Run, Stored, ReadStep, WriteStep, IdSet, Distinct, ReadFrom, Min;
    var s := Run(begin, steps, maxBatches, model);
    var me := s.workers[0];
    var pending := PendingIn(s.table, me.shard);
    if pending == {} {
      ReadNothing(s, me.shard, me.batch, me.embedded);
      RunOne(begin, steps, Read(0, Some([])), maxBatches, model);
      OkBefore(s.results, ShardResult(me.shard, me.embedded, true));
      more := steps + [Read(0, Some([]))];
    } else {
      var ids := PickBatch(pending, size);
      SmallBatch(size, |pending|);
      ReadSome(s, me.shard, me.batch, me.embedded, ids);
      RunOne(begin, steps, Read(0, Some(ids)), maxBatches, model);
      var read := steps + [Read(0, Some(ids))];
      var s1 := Run(begin, read, maxBatches, model);
      BatchesLeft(|pending|, size, maxBatches - 1 - me.batch);
      WriteSome(s1, me.shard, me.batch, me.embedded, ids, s1.workers[0].chunks, maxBatches, model);
      RunOne(begin, read, Write(0, Committed), maxBatches, model);
      more := FinishShard(model, begin, read + [Write(0, Committed)], size, maxBatches);
    }
  }

  lemma SmallBatch(size: nat, n: nat)
    requires size <= MAX_UPSERT
    ensures Min(size, n) <= MAX_UPSERT
  {
  }

  /** One worker taking the shards one by one succeeds on every table whose shards leave a batch to spare. */
  lemma {:induction false} OneByOne(model: Model, t: Table, size: nat, maxBatches: nat, k: nat)
    returns (steps: seq<Step>)
    requires 0 < size <= MAX_UPSERT && maxBatches > 0 && k <= SHARDS && Manageable(t, size, maxBatches)
    ensures var s := Run(Begin(t, 1), steps, maxBatches, model);
            s.workers == [Idle] && s.next == k && |s.results| == k && AllOk(s.results)
    decreases k
  {
    hide PendingIn, Manageable, Between, Readable, Run, AllOk;
    if k == 0 {
      steps := [];
      RunNone(Begin(t, 1), maxBatches, model);
      NothingFailed();
    } else {
      steps := OneByOne(model, t, size, maxBatches, k - 1);
      var begin := Begin(t, 1);
      RunKeeps(model, t, 1, steps, maxBatches);
      var s0 := Run(begin, steps, maxBatches, model);
      LaterPending(model, t, s0.table, k - 1, size, maxBatches);
      RunOne(begin, steps, Take(0, false), maxBatches, model);
      steps := steps + [Take(0, false)];
      var s1 := Run(begin, steps, maxBatches, model);
      assert s1 == s0.(next := k, workers := [Reading(k - 1, 0, 0)]);
      steps := FinishShard(model, begin, steps, size, maxBatches);
    }
  }

  lemma NothingFailed()
    ensures AllOk([])
  {
  }

  lemma RunNone(s: State, maxBatches: nat, model: Model)
    ensures Run(s, [], maxBatches, model) == s
  {
  }

  datatype Report = Report(embedded: nat, failures: set<string>)

  /** The collecting loop of `Backfill`; None is the error for missing shards. */
  method Collect(results: seq<ShardResult>) returns (report: Report, complete: bool)
    requires forall r :: 0 <= r < |results| ==> results[r].shard < SHARDS
    ensures complete <==> |results| == SHARDS
    ensures report.embedded == Total(results)
    ensures report.failures == {} <==> AllOk(results)
    ensures forall r :: 0 <= r < |results| && !results[r].ok ==> ShardName(results[r].shard) in report.failures
  {
    report := Report(0, {});
    var completed := 0;
    for i := 0 to |results|
      invariant completed == i && report.embedded == Total(results[..i])
      invariant report.failures == {} <==> forall r :: 0 <= r < i ==> results[r].ok
      invariant forall r :: 0 <= r < i && !results[r].ok ==> ShardName(results[r].shard) in report.failures
    {
      assert results[..i + 1] == results[..i] + [results[i]];
      TotalMore(results[..i], results[i]);
      completed := completed + 1;
      report := report.(embedded := report.embedded + results[i].count);
      if !results[i].ok {
        report := report.(failures := report.failures + {ShardName(results[i].shard)});
      }
    }
    assert results[..|results|] == results;
    complete := completed == SHARDS;
  }
}
