/** The durable upload queue (internal/history/uploadqueue/queue.go): a copy-on-write map and its file. */
module UploadQueue {
  import opened Options
  import opened Text
  import opened Chunk
  import opened DurableSlot

  datatype Item = Item(id: string, source: string, payload: string, attempts: int, next: Time)

  type Items = map<string, Item>

  datatype Reply = Nil | Full | Invalid | WriteError

  predicate ValidItem(v: Item) {
    v.id != "" && v.source != "" && v.payload != "" && v.attempts >= 0 && v.next != ZERO_TIME
  }

  predicate ValidItems(items: Items) {
    forall id :: id in items ==> items[id].id == id && ValidItem(items[id])
  }

  // ---- Lists in id order ----------------------------------------------------------------------

  predicate Ordered(list: seq<Item>) {
    forall i, j :: 0 <= i < j < |list| ==> Less(list[i].id, list[j].id)
  }

  /** The list holds exactly the items of the map, in id order. */
  ghost predicate Lists(list: seq<Item>, items: Items) {
    && Ordered(list)
    && (forall i :: 0 <= i < |list| ==> list[i].id in items && items[list[i].id] == list[i])
    && (forall id :: id in items ==> items[id] in list)
  }

  lemma OrderedIsDistinct(list: seq<Item>, i: nat, j: nat)
    requires Ordered(list) && i < j < |list|
    ensures list[i].id != list[j].id
  {
    LessTotal(list[i].id, list[j].id);
  }

  /** A listing without its last item lists the map without that item. */
  lemma ListedBefore(list: seq<Item>, items: Items)
    requires Lists(list, items) && ValidItems(items) && list != []
    ensures var n := |list| - 1;
            var rest := items - {list[n].id};
            && Lists(list[..n], rest) && ValidItems(rest) && ValidItem(list[n])
            && list[n].id !in rest && items == rest[list[n].id := list[n]]
  {
    hide Less, ValidItem;
    var n := |list| - 1;
    var id := list[n].id;
    forall i | 0 <= i < n ensures list[i].id != id {
      OrderedIsDistinct(list, i, n);
    }
    var rest := items - {id};
    forall other | other in rest ensures rest[other] in list[..n] {
      assert items[other] in list && items[other] != list[n];
    }
  }

  lemma {:induction false} ListingSize(list: seq<Item>, items: Items)
    requires Lists(list, items) && ValidItems(items)
    ensures |list| == |items|
    decreases |list|
  {
    if list == [] {
      assert items.Keys == {};
    } else {
      hide Lists, ValidItems;
      var n := |list| - 1;
      var rest := items - {list[n].id};
      ListedBefore(list, items);
      ListingSize(list[..n], rest);
      assert items.Keys == rest.Keys + {list[n].id};
    }
  }

  /** The place of an id in an ordered list. */
  function Place(list: seq<Item>, id: string): (k: nat)
    ensures k <= |list|
    ensures forall i :: 0 <= i < k ==> Less(list[i].id, id)
    ensures k < |list| ==> !Less(list[k].id, id)
  {
    if list == [] || !Less(list[0].id, id) then 0
    else
      var k := Place(list[1..], id);
      assert forall i :: 1 <= i < k + 1 ==> list[i] == list[1..][i - 1];
      k + 1
  }

  /** `sort.Slice` by id, one item at a time. */
  method InsertOrdered(list: seq<Item>, v: Item) returns (r: seq<Item>)
    requires Ordered(list) && forall i :: 0 <= i < |list| ==> list[i].id != v.id
    ensures Ordered(r) && forall x :: x in r <==> x == v || x in list
  {
    hide Less;
    var k := Place(list, v.id);
    r := list[..k] + [v] + list[k..];
    assert list == list[..k] + list[k..];
    forall i, j | 0 <= i < j < |r| ensures Less(r[i].id, r[j].id) {
      if j == k {
        assert r[i] == list[i];
      } else if i == k {
        AfterPlace(list, v.id, j - 1);
      }
    }
  }

  lemma AfterPlace(list: seq<Item>, id: string, j: nat)
    requires Ordered(list) && Place(list, id) <= j < |list| && list[Place(list, id)].id != id
    ensures Less(id, list[j].id)
  {
    hide Less;
    var k := Place(list, id);
    LessTotal(list[k].id, id);
    if k < j {
      LessTransitive(id, list[k].id, list[j].id);
    }
  }

  function Due(items: Items, now: Time): Items {
    map id | id in items && items[id].next <= now :: items[id]
  }

  /** The list `save` writes: all items in id order. */
  method Listing(items: Items) returns (list: seq<Item>)
    requires ValidItems(items)
    ensures Lists(list, items)
  {
    hide Less, Ordered, ValidItem;
    list := [];
    NothingListed();
    var left := items.Keys;
    while left != {}
      invariant left <= items.Keys && Ordered(list)
      invariant forall x :: x in list <==> x.id in items && x.id !in left && items[x.id] == x
      decreases left
    {
      var id :| id in left;
      list := InsertOrdered(list, items[id]);
      left := left - {id};
    }
  }

  lemma NothingListed()
    ensures Ordered([])
  {
  }

  /** One step of the loop of `Open`: a bad or repeated item is corruption. */
  function Decoded(list: seq<Item>): (r: Option<Items>) {
    if list == [] then Some(map[])
    else
      var n := |list| - 1;
      var rest := Decoded(list[..n]);
      if rest.None? || !ValidItem(list[n]) || list[n].id in rest.value then None
      else Some(rest.value[list[n].id := list[n]])
  }

  lemma {:induction false} DecodedMembers(list: seq<Item>)
    requires Decoded(list).Some?
    ensures forall id :: id in Decoded(list).value ==> exists i :: 0 <= i < |list| && list[i].id == id
    ensures ValidItems(Decoded(list).value) && |Decoded(list).value| == |list|
    decreases |list|
  {
    if list != [] {
      var n := |list| - 1;
      DecodedMembers(list[..n]);
      assert Decoded(list).value.Keys == Decoded(list[..n]).value.Keys + {list[n].id};
    }
  }

  /** What was saved is what a later `Open` reads. */
  lemma {:induction false} SaveOpenRoundTrip(list: seq<Item>, items: Items)
    requires Lists(list, items) && ValidItems(items)
    ensures Decoded(list) == Some(items)
    decreases |list|
  {
    if list == [] {
      assert items == map[];
    } else {
      hide Lists, ValidItems, ValidItem;
      var n := |list| - 1;
      ListedBefore(list, items);
      SaveOpenRoundTrip(list[..n], items - {list[n].id});
    }
  }

  method DecodeItems(list: seq<Item>, capacity: nat) returns (r: Option<Items>)
    ensures r == if |list| > capacity then None else Decoded(list)
  {
    hide ValidItem;
    if |list| > capacity {
      return None;
    }
    var items: Items := map[];
    for i := 0 to |list|
      invariant Decoded(list[..i]) == Some(items)
    {
      assert list[..i + 1][..i] == list[..i];
      if !ValidItem(list[i]) || list[i].id in items {
        BadPrefix(list, i + 1);
        return None;
      }
      items := items[list[i].id := list[i]];
    }
    assert list[..|list|] == list;
    return Some(items);
  }

  lemma {:induction false} BadPrefix(list: seq<Item>, i: nat)
    requires i <= |list| && Decoded(list[..i]).None?
    ensures Decoded(list).None?
    decreases |list| - i
  {
    if i < |list| {
      assert list[..i + 1][..i] == list[..i];
      BadPrefix(list, i + 1);
    } else {
      assert list[..i] == list;
    }
  }

  // ---- Operations -----------------------------------------------------------------------------

  datatype View = View(items: Items, capacity: nat, slot: Slot<Items>)

  /** Memory takes the new map only when the save reports nil. */
  function Saved(q: View, next: Items, outcome: WriteOutcome): (View, Reply) {
    var slot := q.slot.Write(next, outcome);
    if outcome.Confirmed? then (View(next, q.capacity, slot), Nil) else (q.(slot := slot), WriteError)
  }

  function Enqueued(q: View, v: Item, outcome: WriteOutcome): (View, Reply) {
    if !ValidItem(v) then (q, Invalid)
    else if v.id in q.items then (q, if q.items[v.id] == v then Nil else Invalid)
    else if |q.items| >= q.capacity then (q, Full)
    else Saved(q, q.items[v.id := v], outcome)
  }

  function Acked(q: View, id: string, outcome: WriteOutcome): (View, Reply) {
    if id !in q.items then (q, Nil) else Saved(q, q.items - {id}, outcome)
  }

  function Retried(q: View, id: string, next: Time, outcome: WriteOutcome): (View, Reply) {
    if next == ZERO_TIME then (q, Invalid)
    else if id !in q.items then (q, Nil)
    else
      var v := q.items[id];
      Saved(q, q.items[id := v.(attempts := v.attempts + 1, next := next)], outcome)
  }

  class Queue {
    var items: Items
    var slot: Slot<Items>
    const capacity: nat

    ghost function Contents(): View
      reads this
    {
      View(items, capacity, slot)
    }

    constructor (items: Items, capacity: nat, slot: Slot<Items>)
      ensures Contents() == View(items, capacity, slot)
    {
      this.items, this.capacity, this.slot := items, capacity, slot;
    }

    method Save(next: Items, outcome: WriteOutcome) returns (r: Reply)
      modifies this
      ensures (Contents(), r) == Saved(old(Contents()), next, outcome)
    {
      slot := slot.Write(next, outcome);
      if !outcome.Confirmed? {
        return WriteError;
      }
      items := next;
      return Nil;
    }

    method Enqueue(v: Item, outcome: WriteOutcome) returns (r: Reply)
      modifies this
      ensures (Contents(), r) == Enqueued(old(Contents()), v, outcome)
    {
      if !ValidItem(v) {
        return Invalid;
      }
      if v.id in items {
        if items[v.id] == v {
          return Nil;
        }
        return Invalid;
      }
      if |items| >= capacity {
        return Full;
      }
      var next := items;
      next := next[v.id := v];
      r := Save(next, outcome);
    }

    method Ack(id: string, outcome: WriteOutcome) returns (r: Reply)
      modifies this
      ensures (Contents(), r) == Acked(old(Contents()), id, outcome)
    {
      if id !in items {
        return Nil;
      }
      r := Save(items - {id}, outcome);
    }

    method Retry(id: string, next: Time, outcome: WriteOutcome) returns (r: Reply)
      modifies this
      ensures (Contents(), r) == Retried(old(Contents()), id, next, outcome)
    {
      if next == ZERO_TIME {
        return Invalid;
      }
      if id !in items {
        return Nil;
      }
      var v := items[id];
      v := v.(attempts := v.attempts + 1);
      v := v.(next := next);
      r := Save(items[id := v], outcome);
    }

    /** The due items in id order, up to a positive limit. */
    method Ready(now: Time, limit: int) returns (r: seq<Item>)
      requires ValidItems(items)
      ensures Ordered(r) && (limit > 0 ==> |r| <= limit)
      ensures forall v :: v in r ==> v.id in items && items[v.id] == v && v.next <= now
      ensures limit <= 0 || |r| < limit ==> forall id :: id in items && items[id].next <= now ==> items[id] in r
      ensures forall v, id :: v in r && id in items && items[id].next <= now && items[id] !in r ==> Less(v.id, id)
    {
      hide Less, Ordered, Lists, ValidItem;
      var due := Due(items, now);
      DueMeans(items, now);
      hide Due;
      DueIsValid(items, now);
      r := Listing(due);
      ListingSize(r, due);
      PrefixIsFirst(r, due, limit);
      if limit > 0 && |r| > limit {
        r := r[..limit];
      } else {
        AllAreListed(r, due);
      }
    }
  }

  lemma DueMeans(items: Items, now: Time)
    ensures forall id :: id in Due(items, now) <==> id in items && items[id].next <= now
    ensures forall id :: id in Due(items, now) ==> Due(items, now)[id] == items[id]
  {
  }

  lemma AllAreListed(list: seq<Item>, items: Items)
    requires Lists(list, items)
    ensures forall id :: id in items ==> items[id] in list
  {
  }

  /** The first of these items in id order, as many as the limit allows. */
  ghost predicate FirstOf(r: seq<Item>, items: Items, limit: int) {
    && Ordered(r)
    && |r| == (if 0 < limit < |items| then limit else |items|)
    && (forall v :: v in r ==> v.id in items && items[v.id] == v)
    && (forall v, id :: v in r && id in items && items[id] !in r ==> Less(v.id, id))
  }

  lemma DueIsValid(items: Items, now: Time)
    requires ValidItems(items)
    ensures ValidItems(Due(items, now))
  {
  }

  lemma PrefixIsFirst(all: seq<Item>, items: Items, limit: int)
    requires Lists(all, items) && ValidItems(items) && |all| == |items|
    ensures FirstOf(if 0 < limit < |all| then all[..limit] else all, items, limit)
  {
    hide Less, ValidItem;
    var r := if 0 < limit < |all| then all[..limit] else all;
    forall v, id | v in r && id in items && items[id] !in r ensures Less(v.id, id) {
      var i :| 0 <= i < |r| && r[i] == v;
      var j :| 0 <= j < |all| && all[j] == items[id];
      assert i < j && all[i] == v;
    }
  }

  /** What Enqueue turns away as invalid: an item without id, source or payload, with negative attempts or no
      next time, or one that differs from the item queued under its id. */
  lemma InvalidExactly(q: View, v: Item, outcome: WriteOutcome)
    ensures Enqueued(q, v, outcome).1 == Invalid
       <==> || v.id == "" || v.source == "" || v.payload == "" || v.attempts < 0 || v.next == ZERO_TIME
            || (v.id in q.items && q.items[v.id] != v)
  {
  }

  /** A failed operation leaves memory alone, and the file at the old or the attempted map. */
  lemma FailureIsContained(q: View, next: Items, outcome: WriteOutcome)
    ensures var (q', r) := Saved(q, next, outcome);
            && (r != Nil ==> q'.items == q.items && (q'.slot == q.slot || q'.slot.visible == Some(next)))
            && (r != Nil ==> q'.slot.survivors <= q.slot.survivors + {Some(next)})
            && (r == Nil ==> q'.items == next && q'.slot == Slot(Some(next), {Some(next)}))
  {
  }
}
