/** Backfill next to other writers (internal/history/store/backfill.go:92-117).

    A worker reads its batch and writes it back in separate calls, and the statement inserts or updates
    whole rows.  Upserts and deletions of the same store, or of another process, may fall between. */
module BackfillOutside {
  import opened Options
  import opened Chunk
  import opened Shards
  import opened Plans
  import opened Backfill
  import opened BackfillRuns

  /** A step of the pool, or a write of one row by someone else; None deletes it. */
  datatype Move = Pool(step: Step) | Outside(id: string, row: Option<Row>)

  /** `base` is the table as all the others left it, without backfill. */
  datatype World = World(base: Table, state: State)

  function Overwrite(t: Table, id: string, row: Option<Row>): Table {
    if row.None? then t - {id} else t[id := row.value]
  }

  function Play(w: World, move: Move, maxBatches: nat, model: Model): World {
    match move
    case Pool(step) => w.(state := Next(w.state, step, maxBatches, model))
    case Outside(id, row) =>
      World(Overwrite(w.base, id, row), w.state.(table := Overwrite(w.state.table, id, row)))
  }

  function PlayAll(w: World, moves: seq<Move>, maxBatches: nat, model: Model): World
    decreases |moves|
  {
    if moves == [] then w
    else Play(PlayAll(w, moves[..|moves| - 1], maxBatches, model), moves[|moves| - 1], maxBatches, model)
  }

  /** The id is in a batch that has been read and not yet written back. */
  predicate InFlight(s: State, id: string) {
    exists w :: 0 <= w < |s.workers| && s.workers[w].Writing? && id in s.workers[w].ids
  }

  /** No outside write touches a batch between its read and its write. */
  predicate Undisturbed(w: World, moves: seq<Move>, maxBatches: nat, model: Model)
    decreases |moves|
  {
    moves == [] ||
    var n := |moves| - 1;
    && Undisturbed(w, moves[..n], maxBatches, model)
    && (moves[n].Outside? ==> !InFlight(PlayAll(w, moves[..n], maxBatches, model).state, moves[n].id))
  }

  ghost predicate Orderly(model: Model, w: World) {
    Between(model, w.base, w.state.table) && Owned(w.state) && AllFresh(w.state)
  }

  lemma FinishOwned(s: State, w: nat, count: nat, ok: bool)
    requires Owned(s) && w < |s.workers| && !s.workers[w].Idle?
    ensures Owned(Finish(s, w, count, ok))
  {
  }

  lemma ReplaceOwned(s: State, w: nat, worker: Worker)
    requires Owned(s) && w < |s.workers| && !s.workers[w].Idle? && !worker.Idle? && worker.shard == s.workers[w].shard
    ensures Owned(s.(workers := s.workers[w := worker]))
  {
  }

  lemma TakeIsOrderly(model: Model, base: Table, s: State, w: nat, cancelled: bool)
    requires Orderly(model, World(base, s))
    ensures Orderly(model, World(base, TakeStep(s, w, cancelled)))
  {
    hide Between, Fresh;
    IdleIsFresh(s.table, Reading(s.next, 0, 0));
  }

  lemma FinishIsOrderly(model: Model, base: Table, s: State, w: nat, count: nat, ok: bool)
    requires Between(model, base, s.table) && Owned(s) && w < |s.workers| && !s.workers[w].Idle?
    requires forall v :: 0 <= v < |s.workers| && v != w ==> Fresh(s.table, s.workers[v])
    ensures Orderly(model, World(base, Finish(s, w, count, ok)))
  {
    hide Between, Owned, AllFresh, Fresh;
    FinishOwned(s, w, count, ok);
    FinishFresh(s, w, count, ok);
  }

  lemma ReadIsOrderly(model: Model, base: Table, s: State, w: nat, rows: Option<seq<string>>)
    requires Orderly(model, World(base, s))
    ensures Orderly(model, World(base, ReadStep(s, w, rows)))
  {
    hide Between, Owned, FromRow, PendingIn;
    var s' := ReadStep(s, w, rows);
    if w < |s.workers| && s.workers[w].Reading? && s' != s {
      if s'.workers[w].Writing? {
        ReplaceOwned(s, w, s'.workers[w]);
      } else {
        FinishIsOrderly(model, base, s, w, s.workers[w].embedded, s'.results[|s.results|].ok);
      }
    }
  }

  lemma ReplaceIsOrderly(model: Model, base: Table, s: State, w: nat, worker: Worker)
    requires Between(model, base, s.table) && Owned(s) && w < |s.workers| && !s.workers[w].Idle?
    requires worker.Reading? && worker.shard == s.workers[w].shard
    requires forall v :: 0 <= v < |s.workers| && v != w ==> Fresh(s.table, s.workers[v])
    ensures Orderly(model, World(base, s.(workers := s.workers[w := worker])))
  {
    hide Between, Owned, Fresh;
    IdleIsFresh(s.table, worker);
    ReplaceOwned(s, w, worker);
  }

  /** Writing a batch back leaves the batches of the other workers as they read them. */
  lemma WrittenTable(model: Model, base: Table, s: State, w: nat)
    requires Orderly(model, World(base, s)) && w < |s.workers| && s.workers[w].Writing?
    ensures var t' := Stored(s.table, model, s.workers[w].chunks);
            && Between(model, base, t')
            && forall v :: 0 <= v < |s.workers| && v != w ==> Fresh(t', s.workers[v])
  {
    hide Between, Fresh, Stored;
    var me := s.workers[w];
    StoredStaysBetween(model, base, s.table, me);
    forall v | 0 <= v < |s.workers| && v != w ensures Fresh(Stored(s.table, model, me.chunks), s.workers[v]) {
      OthersStayFresh(model, s.table, me, s.workers[v]);
    }
  }

  lemma WriteIsOrderly(model: Model, base: Table, s: State, w: nat, reply: WriteAnswer, maxBatches: nat)
    requires Orderly(model, World(base, s))
    ensures Orderly(model, World(base, WriteStep(s, w, reply, maxBatches, model)))
  {
    hide Between, Fresh, Stored;
    if w < |s.workers| && s.workers[w].Writing? {
      var me := s.workers[w];
      if reply.Rejected? {
        FinishIsOrderly(model, base, s, w, me.embedded, false);
      } else {
        var written := s.(table := Stored(s.table, model, me.chunks));
        WrittenTable(model, base, s, w);
        assert Owned(written);
        hide Owned, Orderly;
        FinishIsOrderly(model, base, written, w, me.embedded, false);
        FinishIsOrderly(model, base, written, w, me.embedded + |me.chunks|, false);
        ReplaceIsOrderly(model, base, written, w, Reading(me.shard, me.batch + 1, me.embedded + |me.chunks|));
      }
    }
  }

  lemma OverwriteStaysBetween(model: Model, base: Table, t: Table, id: string, row: Option<Row>)
    requires Between(model, base, t)
    ensures Between(model, Overwrite(base, id, row), Overwrite(t, id, row))
  {
    hide Rewritten, HasShardPrefix;
  }

  lemma OverwriteStaysFresh(t: Table, w: Worker, id: string, row: Option<Row>)
    requires Fresh(t, w) && (w.Writing? ==> id !in w.ids)
    ensures Fresh(Overwrite(t, id, row), w)
  {
    hide FromRow, InShard;
    if w.Writing? {
      var t' := Overwrite(t, id, row);
      forall i | 0 <= i < |w.ids| ensures w.ids[i] in t' && t'[w.ids[i]] == t[w.ids[i]] {
        assert w.ids[i] in t && w.ids[i] in PendingIn(t, w.shard);
      }
    }
  }

  lemma OutsideIsOrderly(model: Model, w: World, id: string, row: Option<Row>)
    requires Orderly(model, w) && !InFlight(w.state, id)
    ensures Orderly(model, World(Overwrite(w.base, id, row), w.state.(table := Overwrite(w.state.table, id, row))))
  {
    hide Between, Fresh, Overwrite;
    OverwriteStaysBetween(model, w.base, w.state.table, id, row);
    forall v | 0 <= v < |w.state.workers| ensures Fresh(Overwrite(w.state.table, id, row), w.state.workers[v]) {
      OverwriteStaysFresh(w.state.table, w.state.workers[v], id, row);
    }
  }

  lemma {:induction false} PlayIsOrderly(model: Model, t: Table, concurrency: nat, moves: seq<Move>, maxBatches: nat)
    requires Undisturbed(World(t, Begin(t, concurrency)), moves, maxBatches, model)
    ensures Orderly(model, PlayAll(World(t, Begin(t, concurrency)), moves, maxBatches, model))
    decreases |moves|
  {
    if moves != [] {
      hide Orderly, InFlight, TakeStep, ReadStep, WriteStep, Overwrite;
      var n := |moves| - 1;
      PlayIsOrderly(model, t, concurrency, moves[..n], maxBatches);
      var w := PlayAll(World(t, Begin(t, concurrency)), moves[..n], maxBatches, model);
      match moves[n] {
        case Outside(id, row) => OutsideIsOrderly(model, w, id, row);
        case Pool(step) =>
          match step {
            case Take(v, cancelled) => TakeIsOrderly(model, w.base, w.state, v, cancelled);
            case Read(v, rows) => ReadIsOrderly(model, w.base, w.state, v, rows);
            case Write(v, reply) => WriteIsOrderly(model, w.base, w.state, v, reply, maxBatches);
          }
      }
    }
  }

  /** In every interleaving of the pool with other writers that leaves batches in flight alone: each row is
      as the others last left it, up to the embedding of rows they left pending; no deletion comes back and
      no update is lost. */
  lemma OutsideWritesAreKept(model: Model, t: Table, concurrency: nat, moves: seq<Move>, maxBatches: nat)
    requires Undisturbed(World(t, Begin(t, concurrency)), moves, maxBatches, model)
    ensures var w := PlayAll(World(t, Begin(t, concurrency)), moves, maxBatches, model);
            && w.state.table == Complete(w.base, model, Filled(w.base, w.state.table))
            && Filled(w.base, w.state.table) <= AllPending(w.base)
  {
    hide PlayAll, Rewritten, Undisturbed, Owned, AllFresh;
    var w := PlayAll(World(t, Begin(t, concurrency)), moves, maxBatches, model);
    PlayIsOrderly(model, t, concurrency, moves, maxBatches);
    VectorSet(model, w.base);
    forall id | id in w.base
      ensures w.state.table[id] == Complete(w.base, model, Filled(w.base, w.state.table))[id]
    {
    }
  }

  // ---- Exactly when ---------------------------------------------------------------------------

  function WrittenRow(model: Model, c: Chunk): Row {
    ToRow(c, Some(model(c.content)))
  }

  /** Writing this chunk back changes nothing the others left: they left its row, and left it either just as
      it will be written, or pending and such that embedding it gives what will be written. */
  predicate Agrees(model: Model, base: Table, c: Chunk) {
    && c.id in base
    && (|| base[c.id] == WrittenRow(model, c)
        || (base[c.id].vector.None? && Rewritten(model, base[c.id]) == WrittenRow(model, c)))
  }

  predicate AllAgree(model: Model, base: Table, chunks: seq<Chunk>) {
    forall i :: 0 <= i < |chunks| ==> Agrees(model, base, chunks[i])
  }

  predicate HasPrefixes(chunks: seq<Chunk>) {
    forall i :: 0 <= i < |chunks| ==> HasShardPrefix(chunks[i].id)
  }

  lemma {:induction false} StoredElsewhere(model: Model, t: Table, chunks: seq<Chunk>, id: string)
    requires forall i :: 0 <= i < |chunks| ==> chunks[i].id != id
    ensures id in Stored(t, model, chunks) <==> id in t
    ensures id in t ==> Stored(t, model, chunks)[id] == t[id]
    decreases |chunks|
  {
    hide ToRow;
    if chunks != [] {
      StoredElsewhere(model, t, chunks[..|chunks| - 1], id);
    }
  }

  /** A write keeps the table between the others' rows and their completions if and only if it agrees. */
  lemma WriteKeepsExactly(model: Model, base: Table, t: Table, chunks: seq<Chunk>)
    requires Between(model, base, t) && DistinctChunks(chunks) && HasPrefixes(chunks)
    ensures Between(model, base, Stored(t, model, chunks)) <==> AllAgree(model, base, chunks)
  {
    hide ToRow, Rewritten, HasShardPrefix, Stored;
    var t' := Stored(t, model, chunks);
    forall i | 0 <= i < |chunks| ensures chunks[i].id in t' && t'[chunks[i].id] == WrittenRow(model, chunks[i]) {
      StoredRow(model, t, chunks, i);
    }
    if AllAgree(model, base, chunks) {
      forall id ensures id in t' <==> id in base
        ensures id in base ==> (t'[id] == base[id] || Completed(model, base, t', id))
      {
        if i :| 0 <= i < |chunks| && chunks[i].id == id {
          assert Agrees(model, base, chunks[i]);
        } else {
          StoredElsewhere(model, t, chunks, id);
        }
      }
      assert t'.Keys == base.Keys;
    }
    if Between(model, base, t') {
      forall i | 0 <= i < |chunks| ensures Agrees(model, base, chunks[i]) {
        assert chunks[i].id in t'.Keys;
      }
    }
  }

  predicate Completed(model: Model, base: Table, t: Table, id: string)
    requires id in base && id in t
  {
    base[id].vector.None? && HasShardPrefix(id) && t[id] == Rewritten(model, base[id])
  }

  /** A batch keeps the shape it was read with, whatever happens to the table. */
  predicate Shaped(w: Worker) {
    w.Writing? ==> DistinctChunks(w.chunks) && HasPrefixes(w.chunks)
  }

  predicate AllShaped(s: State) {
    forall v :: 0 <= v < |s.workers| ==> Shaped(s.workers[v])
  }

  lemma ReadIsShaped(t: Table, k: nat, ids: seq<string>)
    requires k < SHARDS && CorrectRead(t, k, ids) && AllReadable(t, ids)
    ensures Shaped(Writing(k, 0, 0, ids, ChunksAt(t, ids)))
  {
    hide ShardName, ValidChunk;
    var chunks := ChunksAt(t, ids);
    forall i | 0 <= i < |ids| ensures chunks[i].id == ids[i] && HasShardPrefix(ids[i]) {
      ExactlyOneShard(ids[i], k);
      assert FromRow(ids[i], t[ids[i]]) == Some(chunks[i]);
    }
  }

  lemma StepIsShaped(s: State, step: Step, maxBatches: nat, model: Model)
    requires AllShaped(s)
    ensures AllShaped(Next(s, step, maxBatches, model))
  {
    hide DistinctChunks, HasPrefixes, PendingIn, FromRow, Stored;
    match step {
      case Read(v, rows) =>
        if v < |s.workers| && s.workers[v].Reading? && s.workers[v].shard < SHARDS && rows.Some? {
          var me, ids := s.workers[v], rows.value;
          if CorrectRead(s.table, me.shard, ids) && AllReadable(s.table, ids) {
            ReadIsShaped(s.table, me.shard, ids);
          }
        }
      case _ =>
    }
  }

  /** The write that this move is, if it is one that reaches the table. */
  function ChunksWritten(s: State, move: Move): seq<Chunk> {
    if move.Pool? && move.step.Write? && move.step.worker < |s.workers| && s.workers[move.step.worker].Writing?
       && !move.step.reply.Rejected?
    then s.workers[move.step.worker].chunks
    else []
  }

  lemma MoveKeepsExactly(model: Model, w: World, move: Move, maxBatches: nat)
    requires Between(model, w.base, w.state.table) && AllShaped(w.state)
    ensures var w' := Play(w, move, maxBatches, model);
            && AllShaped(w'.state)
            && (Between(model, w'.base, w'.state.table) <==> AllAgree(model, w.base, ChunksWritten(w.state, move)))
  {
    hide Between, Agrees, DistinctChunks, HasPrefixes, Stored, CorrectRead, AllReadable;
    match move {
      case Outside(id, row) => OverwriteStaysBetween(model, w.base, w.state.table, id, row);
      case Pool(step) =>
        StepIsShaped(w.state, step, maxBatches, model);
        var chunks := ChunksWritten(w.state, move);
        if step.Write? && step.worker < |w.state.workers| && w.state.workers[step.worker].Writing? {
          assert Shaped(w.state.workers[step.worker]);
          WriteKeepsExactly(model, w.base, w.state.table, w.state.workers[step.worker].chunks);
        }
    }
  }

  /** At every moment each row is as the others last left it, up to the embedding of pending rows. */
  ghost predicate KeptThroughout(w: World, moves: seq<Move>, maxBatches: nat, model: Model)
    decreases |moves|
  {
    var now := PlayAll(w, moves, maxBatches, model);
    && Between(model, now.base, now.state.table)
    && (moves == [] || KeptThroughout(w, moves[..|moves| - 1], maxBatches, model))
  }

  /** Every write that reached the table agreed with what the others had left by then. */
  ghost predicate WritesAgree(w: World, moves: seq<Move>, maxBatches: nat, model: Model)
    decreases |moves|
  {
    moves == [] ||
    var n := |moves| - 1;
    var before := PlayAll(w, moves[..n], maxBatches, model);
    && WritesAgree(w, moves[..n], maxBatches, model)
    && AllAgree(model, before.base, ChunksWritten(before.state, moves[n]))
  }

  lemma {:induction false} OutsideWritesKeptExactly(model: Model, t: Table, concurrency: nat, moves: seq<Move>, maxBatches: nat)
    ensures var w := World(t, Begin(t, concurrency));
            KeptThroughout(w, moves, maxBatches, model) <==> WritesAgree(w, moves, maxBatches, model)
    ensures var w := World(t, Begin(t, concurrency));
            KeptThroughout(w, moves, maxBatches, model) ==> AllShaped(PlayAll(w, moves, maxBatches, model).state)
    decreases |moves|
  {
    hide Between, AllAgree, Shaped, Play;
    var w := World(t, Begin(t, concurrency));
    if moves == [] {
      BeginIsKept(model, t, concurrency);
    } else {
      var n := |moves| - 1;
      OutsideWritesKeptExactly(model, t, concurrency, moves[..n], maxBatches);
      if KeptThroughout(w, moves[..n], maxBatches, model) {
        var before := PlayAll(w, moves[..n], maxBatches, model);
        BetweenAtTheEnd(w, moves[..n], maxBatches, model);
        MoveKeepsExactly(model, before, moves[n], maxBatches);
      }
    }
  }

  lemma BetweenAtTheEnd(w: World, moves: seq<Move>, maxBatches: nat, model: Model)
    requires KeptThroughout(w, moves, maxBatches, model)
    ensures var now := PlayAll(w, moves, maxBatches, model); Between(model, now.base, now.state.table)
  {
  }

  lemma BeginIsKept(model: Model, t: Table, concurrency: nat)
    ensures Between(model, t, Begin(t, concurrency).table) && AllShaped(Begin(t, concurrency))
  {
  }

  // ---- The other case -------------------------------------------------------------------------

  predicate Spares(moves: seq<Move>, v: nat) {
    forall i :: 0 <= i < |moves| && moves[i].Pool? ==> moves[i].step.worker != v
  }

  lemma OthersLeaveWorker(w: World, move: Move, v: nat, maxBatches: nat, model: Model)
    requires v < |w.state.workers| && (move.Pool? ==> move.step.worker != v)
    ensures var w' := Play(w, move, maxBatches, model);
            |w'.state.workers| == |w.state.workers| && w'.state.workers[v] == w.state.workers[v]
  {
    hide Stored, CorrectRead, AllReadable;
  }

  lemma {:induction false} BatchIsCarried(w: World, moves: seq<Move>, v: nat, maxBatches: nat, model: Model)
    requires v < |w.state.workers| && Spares(moves, v)
    ensures var w' := PlayAll(w, moves, maxBatches, model);
            |w'.state.workers| == |w.state.workers| && w'.state.workers[v] == w.state.workers[v]
    decreases |moves|
  {
    hide Play;
    if moves != [] {
      var n := |moves| - 1;
      BatchIsCarried(w, moves[..n], v, maxBatches, model);
      OthersLeaveWorker(PlayAll(w, moves[..n], maxBatches, model), moves[n], v, maxBatches, model);
    }
  }

  /** Whatever happens between a worker's read and its write - any outside writes, deletion included, and any
      steps of other workers - the write puts back the row that was read, embedded. */
  lemma ReadRowComesBack(model: Model, w: World, v: nat, id: string, moves: seq<Move>, reply: WriteAnswer,
                         maxBatches: nat)
    requires v < |w.state.workers| && w.state.workers[v].Writing? && Fresh(w.state.table, w.state.workers[v])
    requires id in w.state.workers[v].ids && Spares(moves, v) && !reply.Rejected?
    ensures var w' := Play(PlayAll(w, moves, maxBatches, model), Pool(Write(v, reply)), maxBatches, model);
            id in w'.state.table && w'.state.table[id] == Rewritten(model, w.state.table[id])
  {
    hide FromRow, Rewritten, ToRow, PlayAll, Stored;
    var me := w.state.workers[v];
    var i :| 0 <= i < |me.ids| && me.ids[i] == id;
    BatchIsCarried(w, moves, v, maxBatches, model);
    StoredRow(model, PlayAll(w, moves, maxBatches, model).state.table, me.chunks, i);
    RewriteOne(w.state.table, model, id, me.chunks[i]);
    ChunkIds(w.state.table, model, me);
  }

  /** A run that brings a deleted row back, for every table with a readable pending row in the first shard. */
  lemma DeletedRowComesBack(model: Model, t: Table, id: string, maxBatches: nat)
    requires id in PendingIn(t, 0) && FromRow(id, t[id]).Some?
    ensures var moves := [Pool(Take(0, false)), Pool(Read(0, Some([id]))), Outside(id, None), Pool(Write(0, Committed))];
            var w := PlayAll(World(t, Begin(t, 1)), moves, maxBatches, model);
            id !in w.base && id in w.state.table && w.state.table[id] == Rewritten(model, t[id])
  {
    hide FromRow, Rewritten, InShard;
    var w0 := World(t, Begin(t, 1));
    var a, b, c, d := Pool(Take(0, false)), Pool(Read(0, Some([id]))), Outside(id, None), Pool(Write(0, Committed));
    PlayFour(w0, a, b, c, d, maxBatches, model);
    var w1 := Play(w0, a, maxBatches, model);
    assert w1.state.workers == [Reading(0, 0, 0)] && w1.state.table == t;
    var w2 := Play(w1, b, maxBatches, model);
    assert CorrectRead(t, 0, [id]) && AllReadable(t, [id]);
    assert w2.state.workers[0].Writing? && w2.state.workers[0].ids == [id] && w2.state.table == t && w2.base == t;
    hide Next;
    assert PlayAll(w2, [c], maxBatches, model) == Play(w2, c, maxBatches, model) by {
      assert [c][..0] == [];
    }
    ReadRowComesBack(model, w2, 0, id, [c], Committed, maxBatches);
  }

  lemma PlayFour(w: World, a: Move, b: Move, c: Move, d: Move, maxBatches: nat, model: Model)
    ensures PlayAll(w, [a, b, c, d], maxBatches, model)
         == Play(Play(Play(Play(w, a, maxBatches, model), b, maxBatches, model), c, maxBatches, model), d, maxBatches,
                 model)
  {
    hide Play;
    assert [a, b, c, d][..3] == [a, b, c] && [a, b, c][..2] == [a, b] && [a, b][..1] == [a] && [a][..0] == [];
    assert PlayAll(w, [a], maxBatches, model) == Play(PlayAll(w, [], maxBatches, model), a, maxBatches, model);
    assert PlayAll(w, [a, b], maxBatches, model) == Play(PlayAll(w, [a], maxBatches, model), b, maxBatches, model);
    assert PlayAll(w, [a, b, c], maxBatches, model) == Play(PlayAll(w, [a, b], maxBatches, model), c, maxBatches, model);
  }

  /** The chunks of a batch carry the ids of its rows. */
  lemma ChunkIds(t: Table, model: Model, me: Worker)
    requires me.Writing? && Fresh(t, me)
    ensures DistinctChunks(me.chunks)
  {
    hide FromRow, ToRow, Rewritten;
    forall i | 0 <= i < |me.chunks| ensures me.chunks[i].id == me.ids[i] {
      RewriteOne(t, model, me.ids[i], me.chunks[i]);
    }
  }

  predicate DistinctChunks(chunks: seq<Chunk>) {
    forall i, j :: 0 <= i < j < |chunks| ==> chunks[i].id != chunks[j].id
  }

  /** The statement stores each chunk under its id, whatever the table held there. */
  lemma {:induction false} StoredRow(model: Model, t: Table, chunks: seq<Chunk>, i: nat)
    requires i < |chunks|
    ensures DistinctChunks(chunks) ==>
              && chunks[i].id in Stored(t, model, chunks)
              && Stored(t, model, chunks)[chunks[i].id] == ToRow(chunks[i], Some(model(chunks[i].content)))
    decreases |chunks|
  {
    hide ToRow;
    var n := |chunks| - 1;
    if i < n {
      StoredRow(model, t, chunks[..n], i);
    }
  }
}
