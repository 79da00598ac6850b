/** One backfill shard (internal/history/store/backfill.go:82-127) and the table it changes.

    The table is a map from id to row.  A read returns rows of the shard that still lack a vector, in an
    order the database chooses; the statement rewrites exactly the rows it is given. */
module Backfill {
  import opened Options
  import opened Chunk
  import opened Shards
  import opened Plans

  type Table = map<string, Row>

  type Model = string -> Vector   // the remote embedding model

  /** The ids `BuildBackfillReadPlan` selects from, before its LIMIT. */
  function PendingIn(t: Table, k: nat): set<string>
    requires k < SHARDS
  {
    set id | id in t && t[id].vector.None? && InShard(id, k)
  }

  predicate Distinct(ids: seq<string>) {
    forall i, j :: 0 <= i < j < |ids| ==> ids[i] != ids[j]
  }

  function Min(a: nat, b: nat): nat {
    if a <= b then a else b
  }

  /** What the read may return under LIMIT `size`: that many pending ids of the shard, or all. */
  ghost predicate FullBatch(t: Table, k: nat, size: nat, ids: seq<string>)
    requires k < SHARDS
  {
    && Distinct(ids)
    && (forall i :: 0 <= i < |ids| ==> ids[i] in PendingIn(t, k))
    && |ids| == Min(size, |PendingIn(t, k)|)
  }

  /** A row after backfill: the model's vector, every other column as it was up to empty and NULL. */
  function Rewritten(model: Model, r: Row): Row {
    Normalized(r).(vector := Some(model(r.content)))
  }

  function Complete(t: Table, model: Model, ids: set<string>): Table {
    map id | id in t :: if id in ids then Rewritten(model, t[id]) else t[id]
  }

  /** The remote-model statement over the chunks of a batch. */
  function Stored(t: Table, model: Model, chunks: seq<Chunk>): Table {
    if chunks == [] then t
    else
      var c := chunks[|chunks| - 1];
      Stored(t, model, chunks[..|chunks| - 1])[c.id := ToRow(c, Some(model(c.content)))]
  }

  function IdSet(ids: seq<string>): set<string> {
    set i | 0 <= i < |ids| :: ids[i]
  }

  lemma {:induction false} IdSetSize(ids: seq<string>)
    requires Distinct(ids)
    ensures |IdSet(ids)| == |ids|
    decreases |ids|
  {
    if ids != [] {
      var n := |ids| - 1;
      IdSetSize(ids[..n]);
      assert forall i :: 0 <= i < n ==> ids[..n][i] == ids[i];
      assert IdSet(ids) == IdSet(ids[..n]) + {ids[n]};
      assert ids[n] !in IdSet(ids[..n]);
    }
  }

  /** The chunks are those of the named rows. */
  predicate ReadFrom(t: Table, ids: seq<string>, chunks: seq<Chunk>) {
    |ids| == |chunks| && forall i :: 0 <= i < |ids| ==> ids[i] in t && FromRow(ids[i], t[ids[i]]) == Some(chunks[i])
  }

  lemma RewriteOne(t: Table, model: Model, id: string, c: Chunk)
    requires id in t && FromRow(id, t[id]) == Some(c)
    ensures c.id == id && ToRow(c, Some(model(c.content))) == Rewritten(model, t[id])
  {
    RewriteKeepsColumns(id, t[id], Some(model(c.content)));
  }

  /** The statement completes exactly the rows that were read. */
  lemma {:induction false} StoredCompletes(t: Table, model: Model, ids: seq<string>, chunks: seq<Chunk>)
    requires ReadFrom(t, ids, chunks)
    ensures Stored(t, model, chunks) == Complete(t, model, IdSet(ids))
    decreases |ids|
  {
    hide FromRow, ToRow, Rewritten;
    if ids != [] {
      var n := |ids| - 1;
      StoredCompletes(t, model, ids[..n], chunks[..n]);
      RewriteOne(t, model, ids[n], chunks[n]);
      assert forall i :: 0 <= i < n ==> ids[..n][i] == ids[i];
      assert IdSet(ids) == IdSet(ids[..n]) + {ids[n]};
    } else {
      assert Complete(t, model, IdSet(ids)) == t;
    }
  }

  lemma CompleteTwice(t: Table, model: Model, a: set<string>, b: set<string>)
    requires a !! b
    ensures Complete(Complete(t, model, a), model, b) == Complete(t, model, a + b)
  {
  }

  lemma PendingAfter(t: Table, model: Model, k: nat, done: set<string>)
    requires k < SHARDS
    ensures PendingIn(Complete(t, model, done), k) == PendingIn(t, k) - done
  {
  }

  predicate Readable(t: Table, k: nat)
    requires k < SHARDS
  {
    forall id :: id in PendingIn(t, k) ==> FromRow(id, t[id]).Some?
  }

  /** A first batch over the statement's limit stops the shard before it embeds anything. */
  predicate Oversized(n: nat, size: nat) {
    n > MAX_UPSERT && size > MAX_UPSERT
  }

  function RowsOf(t: Table, ids: seq<string>): (rows: seq<Row>)
    requires forall i :: 0 <= i < |ids| ==> ids[i] in t
    ensures |rows| == |ids| && forall i :: 0 <= i < |ids| ==> rows[i] == t[ids[i]]
  {
    seq(|ids|, i requires 0 <= i < |ids| => t[ids[i]])
  }

  lemma ValidUploads(t: Table, ids: seq<string>, chunks: seq<Chunk>)
    requires ReadFrom(t, ids, chunks)
    ensures UpsertAccepted(RemoteModel, Unembedded(chunks)) <==> 1 <= |chunks| <= MAX_UPSERT
  {
  }

  /** One batch: read, decode, plan and execute.  None is an error. */
  method EmbedBatch(t: Table, k: nat, size: nat, model: Model, ids: seq<string>) returns (r: Option<Table>)
    requires k < SHARDS && FullBatch(t, k, size, ids) && ids != []
    ensures r.Some? ==> r.value == Complete(t, model, IdSet(ids)) && |ids| <= MAX_UPSERT
    ensures Readable(t, k) && |ids| <= MAX_UPSERT ==> r.Some?
  {
    hide FromRow, UpsertAccepted, Complete, Stored;
    var chunks := BackfillRows(ids, RowsOf(t, ids));
    if chunks.None? {
      return None;
    }
    ValidUploads(t, ids, chunks.value);
    var plan := BuildUpsertPlan(true, RemoteModel, Unembedded(chunks.value));
    if !plan.EmbedRows? {
      assert plan.InsertRows? ==> AllEmbedded(Unembedded(chunks.value));
      assert Unembedded(chunks.value)[0].vector == [];
      return None;
    }
    StoredCompletes(t, model, ids, chunks.value);
    return Some(Stored(t, model, chunks.value));
  }

  /** The count after some full batches, none of which was the last. */
  predicate Tallied(n: nat, size: nat, batch: nat, embedded: nat) {
    embedded == Min(n, batch * size) && (batch > 0 ==> n > (batch - 1) * size && !Oversized(n, size))
  }

  predicate Outcome(n: nat, size: nat, maxBatches: nat, embedded: nat, ok: bool)
    requires maxBatches > 0
  {
    if Oversized(n, size) then !ok && embedded == 0
    else (ok <==> n <= (maxBatches - 1) * size) && embedded == Min(n, maxBatches * size)
  }

  lemma TallyOne(n: nat, size: nat, batch: nat, embedded: nat, read: nat)
    requires Tallied(n, size, batch, embedded) && embedded < n && read == Min(size, n - embedded)
    ensures read > MAX_UPSERT ==> Oversized(n, size) && embedded == 0
    ensures read <= MAX_UPSERT ==> Tallied(n, size, batch + 1, embedded + read)
  {
  }

  lemma TallyEmpty(n: nat, size: nat, batch: nat, maxBatches: nat, embedded: nat)
    requires Tallied(n, size, batch, embedded) && embedded == n && batch < maxBatches
    ensures Outcome(n, size, maxBatches, embedded, true)
  {
    TimesMonotonic(batch, maxBatches - 1, size);
    TimesMonotonic(batch, maxBatches, size);
  }

  lemma TimesMonotonic(a: nat, b: nat, size: nat)
    requires a <= b
    ensures a * size <= b * size
  {
  }

  /** `runBackfillShard`.  Rows outside the shard never change and each row that changes is completed.
      With readable rows, full batches and exact affected counts it succeeds exactly when the pending
      rows leave one batch to spare, embedding all of them; otherwise it embeds what its batches hold,
      and nothing at all when the first batch exceeds the statement limit. */
  method RunBackfillShard(t: Table, k: nat, size: nat, maxBatches: nat, model: Model, pick: Table -> seq<string>)
    returns (t': Table, embedded: nat, ok: bool, done: set<string>)
    requires k < SHARDS && 1 <= size && 1 <= maxBatches
    requires forall u: Table :: FullBatch(u, k, size, pick(u))
    ensures t' == Complete(t, model, done) && done <= PendingIn(t, k) && embedded == |done|
    ensures ok ==> done == PendingIn(t, k)
    ensures Readable(t, k) ==> Outcome(|PendingIn(t, k)|, size, maxBatches, embedded, ok)
  {
    hide Readable, Complete, Tallied, Outcome, PendingIn, Oversized, Min, FullBatch, IdSet;
    ghost var n := |PendingIn(t, k)|;
    t', embedded, done := t, 0, {};
    NothingDone(t, model);
    TallyNone(n, size);
    var batch := 0;
    while batch < maxBatches
      invariant 0 <= batch <= maxBatches
      invariant t' == Complete(t, model, done) && done <= PendingIn(t, k) && embedded == |done|
      invariant Readable(t, k) ==> Tallied(n, size, batch, embedded)
    {
      var ids := pick(t');
      NextBatch(t, model, k, size, done, ids);
      if ids == [] {
        if Readable(t, k) {
          TallyEmpty(n, size, batch, maxBatches, embedded);
        }
        ok := true;
        return;
      }
      var next := EmbedBatch(t', k, size, model, ids);
      if Readable(t, k) {
        TallyOne(n, size, batch, embedded, |ids|);
      }
      if next.None? {
        ok := false;
        if Readable(t, k) {
          OversizedOutcome(n, size, maxBatches);
        }
        return;
      }
      t', embedded, done := next.value, embedded + |ids|, done + IdSet(ids);
      batch := batch + 1;
    }
    if Readable(t, k) {
      TallyFull(n, size, maxBatches, embedded);
    }
    ok := false;
  }

  /** What the next read finds after some rows are done. */
  lemma NextBatch(t: Table, model: Model, k: nat, size: nat, done: set<string>, ids: seq<string>)
    requires k < SHARDS && size > 0 && done <= PendingIn(t, k)
    requires FullBatch(Complete(t, model, done), k, size, ids)
    ensures done + IdSet(ids) <= PendingIn(t, k) && |done + IdSet(ids)| == |done| + |ids|
    ensures |done| <= |PendingIn(t, k)| && |ids| == Min(size, |PendingIn(t, k)| - |done|)
    ensures Complete(Complete(t, model, done), model, IdSet(ids)) == Complete(t, model, done + IdSet(ids))
    ensures Readable(t, k) ==> Readable(Complete(t, model, done), k)
    ensures ids == [] ==> done == PendingIn(t, k)
    ensures ids != [] ==> |done| < |PendingIn(t, k)|
  {
    hide Readable, Complete, PendingIn, IdSet;
    PendingAfter(t, model, k, done);
    Remaining(t, k, done);
    StillReadable(t, model, k, done);
    BatchFacts(Complete(t, model, done), k, size, ids);
    CompleteTwice(t, model, done, IdSet(ids));
  }

  lemma TallyNone(n: nat, size: nat)
    ensures Tallied(n, size, 0, 0)
  {
  }

  lemma TallyFull(n: nat, size: nat, maxBatches: nat, embedded: nat)
    requires maxBatches > 0 && Tallied(n, size, maxBatches, embedded)
    ensures Outcome(n, size, maxBatches, embedded, false)
  {
  }

  lemma OversizedOutcome(n: nat, size: nat, maxBatches: nat)
    requires Oversized(n, size) && maxBatches > 0
    ensures Outcome(n, size, maxBatches, 0, false)
  {
  }

  lemma BatchFacts(t: Table, k: nat, size: nat, ids: seq<string>)
    requires k < SHARDS && size > 0 && FullBatch(t, k, size, ids)
    ensures IdSet(ids) <= PendingIn(t, k) && |IdSet(ids)| == |ids| == Min(size, |PendingIn(t, k)|)
    ensures ids == [] ==> PendingIn(t, k) == {}
  {
    IdSetSize(ids);
  }

  lemma NothingDone(t: Table, model: Model)
    ensures Complete(t, model, {}) == t
  {
  }

  lemma Remaining(t: Table, k: nat, done: set<string>)
    requires k < SHARDS && done <= PendingIn(t, k)
    ensures |PendingIn(t, k) - done| == |PendingIn(t, k)| - |done|
    ensures |done| == |PendingIn(t, k)| ==> done == PendingIn(t, k)
  {
  }

  lemma StillReadable(t: Table, model: Model, k: nat, done: set<string>)
    requires k < SHARDS && done <= PendingIn(t, k)
    ensures Readable(t, k) ==> Readable(Complete(t, model, done), k)
  {
  }
}
