/** The message order of a ChatGPT conversation given as a mapping
    (internal/history/source/chatgpt/chatgpt.go:154-188): the mapping is a Go map, whose iteration order
    changes from run to run, yet the documented message order is deterministic. */
module ChatGPTOrder {
  import opened Text
  import opened ChatGPT

  /** The comparison of the stable sort: timed messages first, by time, then by node. */
  predicate Before(a: Message, b: Message) {
    if a.time.Some? != b.time.Some? then a.time.Some?
    else if a.time.Some? && a.time.value != b.time.value then a.time.value < b.time.value
    else Less(a.nodeID, b.nodeID)
  }

  /** Messages of one mapping come from different nodes. */
  predicate DistinctNodes(ms: seq<Message>) {
    forall i, j :: 0 <= i < j < |ms| ==> ms[i].nodeID != ms[j].nodeID
  }

  predicate Sorted(ms: seq<Message>) {
    forall i, j :: 0 <= i < j < |ms| ==> Before(ms[i], ms[j])
  }

  lemma BeforeIsStrict(a: Message, b: Message)
    ensures !(Before(a, b) && Before(b, a))
    ensures a.nodeID != b.nodeID ==> Before(a, b) || Before(b, a)
    ensures !Before(a, a)
  {
    LessTotal(a.nodeID, b.nodeID);
  }

  lemma BeforeIsTransitive(a: Message, b: Message, c: Message)
    requires Before(a, b) && Before(b, c)
    ensures Before(a, c)
  {
    if Less(a.nodeID, b.nodeID) && Less(b.nodeID, c.nodeID) {
      LessTransitive(a.nodeID, b.nodeID, c.nodeID);
    }
  }

  /** One insertion of the sort; equal content never meets, because nodes differ. */
  method Insert(ms: seq<Message>, m: Message) returns (r: seq<Message>)
    requires Sorted(ms) && forall i :: 0 <= i < |ms| ==> ms[i].nodeID != m.nodeID
    ensures Sorted(r) && multiset(r) == multiset(ms) + multiset{m}
  {
    hide Before;
    var k := |ms|;
    while k > 0 && Before(m, ms[k - 1])
      invariant 0 <= k <= |ms|
      invariant forall i :: k <= i < |ms| ==> Before(m, ms[i])
    {
      k := k - 1;
    }
    r := ms[..k] + [m] + ms[k..];
    assert ms == ms[..k] + ms[k..];
    if k > 0 {
      BeforeIsStrict(m, ms[k - 1]);
    }
    forall i | 0 <= i < k ensures Before(ms[i], m) {
      if i < k - 1 {
        BeforeIsTransitive(ms[i], ms[k - 1], m);
      }
    }
  }

  /** `sort.SliceStable` over the messages collected from the mapping. */
  method OrderMessages(ms: seq<Message>) returns (r: seq<Message>)
    requires DistinctNodes(ms)
    ensures Sorted(r) && multiset(r) == multiset(ms)
  {
    hide Before;
    r := [];
    for i := 0 to |ms|
      invariant Sorted(r) && multiset(r) == multiset(ms[..i])
    {
      assert ms[..i + 1] == ms[..i] + [ms[i]];
      forall j | 0 <= j < |r| ensures r[j].nodeID != ms[i].nodeID {
        assert r[j] in multiset(r);
      }
      r := Insert(r, ms[i]);
    }
    assert ms[..|ms|] == ms;
  }

  lemma SmallestIsFirst(a: seq<Message>, b: seq<Message>)
    requires Sorted(a) && Sorted(b) && multiset(a) == multiset(b) && a != [] && b != []
    ensures a[0] == b[0]
  {
    hide Before;
    assert a[0] in multiset(b) && b[0] in multiset(a);
    var i :| 0 <= i < |b| && b[i] == a[0];
    var j :| 0 <= j < |a| && a[j] == b[0];
    BeforeIsStrict(a[0], b[0]);
  }

  /** There is one order: two sorted lists of the same messages are the same list, so the order the
      mapping is iterated in cannot show. */
  lemma {:induction false} OrderIsDeterministic(a: seq<Message>, b: seq<Message>)
    requires Sorted(a) && Sorted(b) && multiset(a) == multiset(b)
    ensures a == b
    decreases |a|
  {
    assert |a| == |multiset(a)| && |b| == |multiset(b)|;
    if a != [] {
      SmallestIsFirst(a, b);
      assert a == [a[0]] + a[1..] && b == [b[0]] + b[1..];
      assert multiset(a[1..]) == multiset(a) - multiset{a[0]};
      assert multiset(b[1..]) == multiset(b) - multiset{b[0]};
      OrderIsDeterministic(a[1..], b[1..]);
    }
  }

  /** What the order means: timed messages come first, by time, and equal times by node. */
  lemma SortedMeans(ms: seq<Message>, i: nat, j: nat)
    requires Sorted(ms) && i < j < |ms|
    ensures ms[j].time.Some? ==> ms[i].time.Some? && ms[i].time.value <= ms[j].time.value
    ensures ms[i].time == ms[j].time ==> Less(ms[i].nodeID, ms[j].nodeID)
  {
  }
}
