/** Upsert plans and the columns they write (internal/history/store/plans.go). */
module Plans {
  import opened Options
  import opened Chunk
  import opened Shards

  type Vector = seq<real>

  const DIMENSION := 3072
  const MAX_UPSERT := 500

  datatype Strategy = RemoteModel | Deferred

  /** A chunk to store; the vector is empty when it is still to be embedded. */
  datatype Upload = Upload(chunk: Chunk, vector: Vector)

  /** A table row without its key.  NULL columns are None. */
  datatype Row = Row(
    content: string, chunkType: ChunkType, sessionID: string, projectPath: string, projectName: string,
    timestamp: Time, userUUID: Option<string>, assistantUUID: Option<string>, filePath: Option<string>,
    operation: Option<string>, model: Option<string>, sourceFile: string, sourceLine: int,
    parentChunkID: Option<string>, childChunkIDs: Option<seq<string>>, machineID: Option<string>,
    vector: Option<Vector>)

  predicate Bounded(s: string, maximum: nat) {
    s != "" && |s| <= maximum
  }

  /** `validateChunk`. */
  predicate ValidChunk(c: Chunk) {
    && Bounded(c.id, 64) && Bounded(c.content, 8_388_608) && Bounded(TypeName(c.chunkType), 32)
    && Bounded(c.sessionID, 128) && Bounded(c.projectPath, 8192) && Bounded(c.projectName, 256)
    && Bounded(c.sourceFile, 8192)
    && |c.userUUID| <= 128 && |c.assistantUUID| <= 128 && |c.filePath| <= 8192 && |c.operation| <= 32
    && |c.model| <= 256 && |c.parentChunkID| <= 64 && |c.machineID| <= 256
    && c.timestamp != ZERO_TIME && c.sourceLine >= 0 && |c.childChunkIDs| <= 10_000
    && forall i :: 0 <= i < |c.childChunkIDs| ==> Bounded(c.childChunkIDs[i], 64)
  }

  /** `validateChunk`, over its two lists of fields. */
  method ValidateChunk(c: Chunk) returns (ok: bool)
    ensures ok == ValidChunk(c)
  {
    var required := [(c.id, 64), (c.content, 8_388_608), (TypeName(c.chunkType), 32), (c.sessionID, 128),
                     (c.projectPath, 8192), (c.projectName, 256), (c.sourceFile, 8192)];
    for i := 0 to |required|
      invariant forall k :: 0 <= k < i ==> Bounded(required[k].0, required[k].1)
    {
      if required[i].0 == "" || |required[i].0| > required[i].1 {
        assert !Bounded(required[i].0, required[i].1);
        return false;
      }
    }
    assert Bounded(required[0].0, 64) && Bounded(required[1].0, 8_388_608) && Bounded(required[2].0, 32);
    assert Bounded(required[3].0, 128) && Bounded(required[4].0, 8192) && Bounded(required[5].0, 256);
    assert Bounded(required[6].0, 8192);
    var optional := [(c.userUUID, 128), (c.assistantUUID, 128), (c.filePath, 8192), (c.operation, 32), (c.model, 256),
                     (c.parentChunkID, 64), (c.machineID, 256)];
    for i := 0 to |optional|
      invariant forall k :: 0 <= k < i ==> |optional[k].0| <= optional[k].1
    {
      if |optional[i].0| > optional[i].1 {
        return false;
      }
    }
    assert |optional[0].0| <= 128 && |optional[1].0| <= 128 && |optional[2].0| <= 8192 && |optional[3].0| <= 32;
    assert |optional[4].0| <= 256 && |optional[5].0| <= 64 && |optional[6].0| <= 256;
    if c.timestamp == ZERO_TIME || c.sourceLine < 0 || |c.childChunkIDs| > 10_000 {
      return false;
    }
    for i := 0 to |c.childChunkIDs|
      invariant forall k :: 0 <= k < i ==> Bounded(c.childChunkIDs[k], 64)
    {
      if c.childChunkIDs[i] == "" || |c.childChunkIDs[i]| > 64 {
        assert !Bounded(c.childChunkIDs[i], 64);
        return false;
      }
    }
    return true;
  }

  const TINY := 0.0000000001

  function Magnitude(x: real): real {
    if x >= 0.0 then x else -x
  }

  /** `validateVector`: the right dimension and not all (nearly) zero. */
  predicate ValidVector(v: Vector) {
    |v| == DIMENSION && exists i :: 0 <= i < |v| && Magnitude(v[i]) >= TINY
  }

  method ValidateVector(v: Vector) returns (ok: bool)
    ensures ok == ValidVector(v)
  {
    if |v| != DIMENSION {
      return false;
    }
    var nonZero := false;
    for i := 0 to |v|
      invariant nonZero <==> exists k :: 0 <= k < i && Magnitude(v[k]) >= TINY
    {
      if Magnitude(v[i]) >= TINY {
        nonZero := true;
      }
    }
    return nonZero;
  }

  datatype Plan =
    | Refused
    | InsertRows(withVectors: bool)   // a mutation over the chunks
    | EmbedRows                       // the remote-model statement over the chunks

  predicate Acceptable(strategy: Strategy, u: Upload) {
    && ValidChunk(u.chunk)
    && (u.vector == [] ==> strategy == Deferred ==> HasShardPrefix(u.chunk.id))
    && (u.vector != [] ==> ValidVector(u.vector))
  }

  predicate AllEmbedded(uploads: seq<Upload>) {
    forall i :: 0 <= i < |uploads| ==> uploads[i].vector != []
  }

  predicate NoneEmbedded(uploads: seq<Upload>) {
    forall i :: 0 <= i < |uploads| ==> uploads[i].vector == []
  }

  /** What a batch must be: 1 to 500 acceptable chunks, all with a vector or all without. */
  predicate UpsertAccepted(strategy: Strategy, uploads: seq<Upload>) {
    && 1 <= |uploads| <= MAX_UPSERT
    && (forall i :: 0 <= i < |uploads| ==> Acceptable(strategy, uploads[i]))
    && (AllEmbedded(uploads) || NoneEmbedded(uploads))
  }

  /** `BuildUpsertPlan`: accepts exactly such batches, and embeds in the statement only what has no
      vector under the remote-model strategy. */
  method BuildUpsertPlan(configured: bool, strategy: Strategy, uploads: seq<Upload>) returns (plan: Plan)
    ensures !plan.Refused? <==> configured && UpsertAccepted(strategy, uploads)
    ensures plan.InsertRows? ==> plan.withVectors == AllEmbedded(uploads)
    ensures plan.EmbedRows? ==> NoneEmbedded(uploads) && strategy == RemoteModel
    ensures plan.InsertRows? && !plan.withVectors ==> strategy == Deferred && NoneEmbedded(uploads)
  {
    hide ValidChunk, HasShardPrefix, ValidVector;
    if !configured || |uploads| == 0 || |uploads| > MAX_UPSERT {
      return Refused;
    }
    var embedded, unembedded := 0, 0;
    for i := 0 to |uploads|
      invariant embedded + unembedded == i
      invariant forall k :: 0 <= k < i ==> Acceptable(strategy, uploads[k])
      invariant embedded == 0 <==> forall k :: 0 <= k < i ==> uploads[k].vector == []
      invariant unembedded == 0 <==> forall k :: 0 <= k < i ==> uploads[k].vector != []
    {
      var u := uploads[i];
      var valid := ValidateChunk(u.chunk);
      if !valid {
        assert !Acceptable(strategy, uploads[i]);
        return Refused;
      }
      if strategy == Deferred && |u.vector| == 0 && !HasShardPrefix(u.chunk.id) {
        assert !Acceptable(strategy, uploads[i]);
        return Refused;
      }
      if |u.vector| == 0 {
        unembedded := unembedded + 1;
      } else {
        embedded := embedded + 1;
        var ok := ValidateVector(u.vector);
        if !ok {
          assert !Acceptable(strategy, uploads[i]);
          return Refused;
        }
      }
    }
    assert uploads[0] == uploads[0];
    if embedded != 0 && unembedded != 0 {
      return Refused;
    }
    if embedded != 0 {
      return InsertRows(true);
    }
    if strategy == Deferred {
      return InsertRows(false);
    }
    return EmbedRows;
  }

  /** 500 chunks at most: one more refuses any batch, and up to there the number is no reason. */
  lemma FiveHundredAtMost(strategy: Strategy, uploads: seq<Upload>)
    ensures |uploads| > 500 || uploads == [] ==> !UpsertAccepted(strategy, uploads)
    ensures (&& 1 <= |uploads| <= 500 && NoneEmbedded(uploads)
             && forall i :: 0 <= i < |uploads| ==> Acceptable(strategy, uploads[i])) ==> UpsertAccepted(strategy, uploads)
  {
    hide Acceptable;
  }

  // ---- Columns --------------------------------------------------------------------------------

  function Nullable(s: string): Option<string> {
    if s == "" then None else Some(s)
  }

  function NullableIDs(ids: seq<string>): Option<seq<string>> {
    if ids == [] then None else Some(ids)
  }

  /** `chunkValues` and `chunkRow`: the columns of a chunk. */
  function ToRow(c: Chunk, vector: Option<Vector>): Row {
    Row(c.content, c.chunkType, c.sessionID, c.projectPath, c.projectName, c.timestamp, Nullable(c.userUUID),
        Nullable(c.assistantUUID), Nullable(c.filePath), Nullable(c.operation), Nullable(c.model), c.sourceFile,
        c.sourceLine, Nullable(c.parentChunkID), NullableIDs(c.childChunkIDs), Nullable(c.machineID), vector)
  }

  function OrEmpty(s: Option<string>): string {
    if s.None? then "" else s.value
  }

  function ReadColumns(id: string, r: Row): Chunk {
    Chunk(id, r.content, r.chunkType, r.sessionID, r.projectPath, r.projectName, r.timestamp, OrEmpty(r.userUUID),
          OrEmpty(r.assistantUUID), OrEmpty(r.filePath), OrEmpty(r.operation), OrEmpty(r.model), r.sourceFile,
          r.sourceLine, OrEmpty(r.parentChunkID), if r.childChunkIDs.None? then [] else r.childChunkIDs.value,
          OrEmpty(r.machineID))
  }

  /** One row of `backfillRows`. */
  function FromRow(id: string, r: Row): Option<Chunk> {
    var c := ReadColumns(id, r);
    if ValidChunk(c) && HasShardPrefix(id) then Some(c) else None
  }

  function Denull(s: Option<string>): Option<string> {
    if s == Some("") then None else s
  }

  /** A row with empty text and empty lists read as NULL. */
  function Normalized(r: Row): Row {
    r.(userUUID := Denull(r.userUUID), assistantUUID := Denull(r.assistantUUID), filePath := Denull(r.filePath),
       operation := Denull(r.operation), model := Denull(r.model), parentChunkID := Denull(r.parentChunkID),
       childChunkIDs := if r.childChunkIDs == Some([]) then None else r.childChunkIDs,
       machineID := Denull(r.machineID))
  }

  /** Reading a row and writing it back changes the vector and nothing else, up to empty and NULL. */
  lemma RewriteKeepsColumns(id: string, r: Row, vector: Option<Vector>)
    ensures ToRow(ReadColumns(id, r), vector) == Normalized(r).(vector := vector)
  {
  }

  /** For rows an upsert stored the rewrite is exact, and the chunk itself comes back. */
  lemma StoredRowsRoundTrip(c: Chunk, stored: Option<Vector>, vector: Option<Vector>)
    ensures ReadColumns(c.id, ToRow(c, stored)) == c
    ensures ToRow(ReadColumns(c.id, ToRow(c, stored)), vector) == ToRow(c, stored).(vector := vector)
    ensures ValidChunk(c) && HasShardPrefix(c.id) ==> FromRow(c.id, ToRow(c, stored)) == Some(c)
  {
  }

  /** The loop of `backfillRows`: one bad row refuses the batch. */
  method BackfillRows(ids: seq<string>, rows: seq<Row>) returns (chunks: Option<seq<Chunk>>)
    requires |ids| == |rows|
    ensures chunks.None? <==> exists i :: 0 <= i < |rows| && FromRow(ids[i], rows[i]).None?
    ensures chunks.Some? ==> |chunks.value| == |rows|
    ensures chunks.Some? ==> forall i :: 0 <= i < |rows| ==> FromRow(ids[i], rows[i]) == Some(chunks.value[i])
  {
    hide FromRow;
    var found: seq<Chunk> := [];
    for i := 0 to |rows|
      invariant |found| == i && forall k :: 0 <= k < i ==> FromRow(ids[k], rows[k]) == Some(found[k])
    {
      var chunk := FromRow(ids[i], rows[i]);
      if chunk.None? {
        return None;
      }
      found := found + [chunk.value];
    }
    return Some(found);
  }

  /** A batch of parsed chunks, none of them embedded yet. */
  function Unembedded(chunks: seq<Chunk>): (uploads: seq<Upload>)
    ensures |uploads| == |chunks|
  {
    seq(|chunks|, i requires 0 <= i < |chunks| => Upload(chunks[i], []))
  }
}
