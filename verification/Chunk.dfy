/** The stored unit of conversation history (internal/history/store/types.go). */
module Chunk {

  /** Instants are integers; `ZERO_TIME` is Go's zero `time.Time`, which `IsZero` recognises. */
  type Time = int

  const ZERO_TIME: Time := 0

  /** 1 January 1970, in nanoseconds after the zero time. */
  const UNIX_EPOCH: Time := 62_135_596_800_000_000_000

  /** The time a parser makes up for a record without one: its line number in microseconds. */
  function LineTime(line: nat): Time {
    UNIX_EPOCH + line * 1000
  }

  /** Made-up times are set, and differ by a microsecond from line to line. */
  lemma LineTimesAreDistinct(line: nat, other: nat)
    ensures LineTime(line) != ZERO_TIME
    ensures LineTime(other) - LineTime(line) == (other - line) * 1000
  {
  }

  datatype ChunkType = Turn | FileChange | Summary | OtherType(name: string)

  function TypeName(t: ChunkType): string {
    match t
    case Turn => "turn"
    case FileChange => "file_change"
    case Summary => "summary"
    case OtherType(name) => name
  }

  datatype Chunk = Chunk(
    id: string,
    content: string,
    chunkType: ChunkType,
    sessionID: string,
    projectPath: string,
    projectName: string,
    timestamp: Time,
    userUUID: string,
    assistantUUID: string,
    filePath: string,
    operation: string,
    model: string,
    sourceFile: string,
    sourceLine: int,
    parentChunkID: string,
    childChunkIDs: seq<string>,
    machineID: string)

  /** A time the forward cutoff admits: set, and not before the cutoff. */
  predicate Current(t: Time, cutoff: Time) {
    t != ZERO_TIME && t >= cutoff
  }
}
