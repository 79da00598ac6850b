/** The 256 backfill shards, named by two lower-case hexadecimal digits
    (internal/history/store/backfill.go:10-16, internal/history/store/plans.go:485-495). */
module Shards {

  const SHARDS := 256

  predicate IsLowerHex(c: char) {
    '0' <= c <= '9' || 'a' <= c <= 'f'
  }

  function HexDigit(d: nat): (c: char)
    requires d < 16
    ensures IsLowerHex(c) && HexValue(c) == d
  {
    if d < 10 then ('0' as int + d) as char else ('a' as int + d - 10) as char
  }

  function HexValue(c: char): (d: nat)
    requires IsLowerHex(c)
    ensures d < 16
  {
    if c <= '9' then c as int - '0' as int else c as int - 'a' as int + 10
  }

  lemma HexRoundTrip(c: char)
    requires IsLowerHex(c)
    ensures HexDigit(HexValue(c)) == c
  {
  }

  function ShardName(k: nat): (name: string)
    requires k < SHARDS
    ensures |name| == 2
  {
    [HexDigit(k / 16), HexDigit(k % 16)]
  }

  /** The shard an id belongs to: its name is a prefix of the id, as `STARTS_WITH` tests. */
  predicate InShard(id: string, k: nat)
    requires k < SHARDS
  {
    ShardName(k) <= id
  }

  method BackfillShards() returns (shards: seq<string>)
    ensures |shards| == SHARDS && forall k :: 0 <= k < SHARDS ==> shards[k] == ShardName(k)
  {
    shards := [];
    for value := 0 to SHARDS
      invariant |shards| == value && forall k :: 0 <= k < value ==> shards[k] == ShardName(k)
    {
      shards := shards + [ShardName(value)];
    }
  }

  predicate HasShardPrefix(id: string) {
    |id| >= 2 && IsLowerHex(id[0]) && IsLowerHex(id[1])
  }

  method HasLowerHexShardPrefix(id: string) returns (r: bool)
    ensures r == HasShardPrefix(id)
  {
    if |id| < 2 {
      return false;
    }
    for i := 0 to 2
      invariant forall j :: 0 <= j < i ==> IsLowerHex(id[j])
    {
      if !IsLowerHex(id[i]) {
        return false;
      }
    }
    return true;
  }

  function ShardOf(id: string): (k: nat)
    requires HasShardPrefix(id)
    ensures k < SHARDS
  {
    HexValue(id[0]) * 16 + HexValue(id[1])
  }

  /** An id with the prefix lies in exactly one shard, and no other id lies in any. */
  lemma ExactlyOneShard(id: string, k: nat)
    requires k < SHARDS
    ensures InShard(id, k) <==> HasShardPrefix(id) && ShardOf(id) == k
  {
    var name := ShardName(k);
    if InShard(id, k) {
      assert id[0] == name[0] && id[1] == name[1];
    }
    if HasShardPrefix(id) && ShardOf(id) == k {
      HexRoundTrip(id[0]);
      HexRoundTrip(id[1]);
      assert k / 16 == HexValue(id[0]) && k % 16 == HexValue(id[1]);
      assert id[..2] == name;
    }
  }
}
