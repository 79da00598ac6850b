/** The duplicate-key walk over a state file's JSON tokens (internal/history/watch/forward.go:217-273).
    Section 4 of RFC 8259 asks that the names within an object be unique; Go's decoder does not check. */
module JsonWalk {

  datatype Json =
    | Scalar                                  // a number, true, false or null
    | Text(text: string)
    | Array(items: seq<Json>)
    | Object(members: seq<Member>)

  datatype Member = Member(name: string, value: Json)

  datatype Token = Plain | Str(text: string) | Delim(c: char)

  /** The token stream of a value, as `json.Decoder.Token` delivers it. */
  function Tokens(v: Json): (ts: seq<Token>)
    ensures ts != [] && (ts[0] != Delim(']') && ts[0] != Delim('}'))
    decreases v, 1
  {
    match v
    case Scalar => [Plain]
    case Text(s) => [Str(s)]
    case Array(items) => [Delim('[')] + ItemTokens(items) + [Delim(']')]
    case Object(members) => [Delim('{')] + MemberTokens(members) + [Delim('}')]
  }

  function ItemTokens(items: seq<Json>): seq<Token>
    decreases items, 0
  {
    if items == [] then [] else Tokens(items[0]) + ItemTokens(items[1..])
  }

  function MemberTokens(members: seq<Member>): seq<Token>
    decreases members, 0
  {
    if members == [] then []
    else [Str(members[0].name)] + Tokens(members[0].value) + MemberTokens(members[1..])
  }

  predicate DistinctNames(members: seq<Member>) {
    forall i, j :: 0 <= i < j < |members| ==> members[i].name != members[j].name
  }

  /** Every object at every depth has distinct names. */
  predicate Distinct(v: Json)
    decreases v
  {
    match v
    case Scalar => true
    case Text(_) => true
    case Array(items) => forall i :: 0 <= i < |items| ==> Distinct(items[i])
    case Object(members) => DistinctNames(members) && forall i :: 0 <= i < |members| ==> Distinct(members[i].value)
  }

  datatype Walked = Ok(rest: seq<Token>) | Bad

  /** `decoder.More`. */
  predicate More(ts: seq<Token>) {
    ts != [] && ts[0] != Delim(']') && ts[0] != Delim('}')
  }

  /** `walkForwardJSON` on the remaining tokens. */
  function Walk(ts: seq<Token>): (r: Walked)
    ensures r.Ok? ==> |r.rest| < |ts|
    decreases |ts|, 0
  {
    if ts == [] then Bad
    else if !ts[0].Delim? then Ok(ts[1..])
    else if ts[0].c == '{' then WalkMembers(ts[1..], {})
    else if ts[0].c == '[' then WalkItems(ts[1..])
    else Bad
  }

  function WalkItems(ts: seq<Token>): (r: Walked)
    ensures r.Ok? ==> |r.rest| < |ts|
    decreases |ts|, 1
  {
    if More(ts) then
      var head := Walk(ts);
      if head.Bad? then Bad else WalkItems(head.rest)
    else if ts != [] && ts[0] == Delim(']') then Ok(ts[1..])
    else Bad
  }

  function WalkMembers(ts: seq<Token>, seen: set<string>): (r: Walked)
    ensures r.Ok? ==> |r.rest| < |ts|
    decreases |ts|, 1
  {
    if More(ts) then
      if !ts[0].Str? || ts[0].text in seen then Bad
      else
        var head := Walk(ts[1..]);
        if head.Bad? then Bad else WalkMembers(head.rest, seen + {ts[0].text})
    else if ts != [] && ts[0] == Delim('}') then Ok(ts[1..])
    else Bad
  }

  class Decoder {
    const tokens: seq<Token>
    var pos: nat

    ghost predicate Valid()
      reads this
    {
      pos <= |tokens|
    }

    ghost function Remaining(): seq<Token>
      requires Valid()
      reads this
    {
      tokens[pos..]
    }

    constructor (tokens: seq<Token>)
      ensures Valid() && Remaining() == tokens
    {
      this.tokens := tokens;
      this.pos := 0;
    }

    method HasMore() returns (more: bool)
      requires Valid()
      ensures more == More(Remaining())
    {
      more := pos < |tokens| && tokens[pos] != Delim(']') && tokens[pos] != Delim('}');
    }

    /** Consumes a token; none is left at the end of the input. */
    method Token() returns (found: bool, token: Token)
      requires Valid()
      modifies this
      ensures Valid()
      ensures found == (old(Remaining()) != [])
      ensures found ==> token == old(Remaining())[0] && Remaining() == old(Remaining())[1..]
      ensures !found ==> Remaining() == old(Remaining())
    {
      if pos == |tokens| {
        return false, Plain;
      }
      found, token := true, tokens[pos];
      pos := pos + 1;
    }
  }

  /** The recursive walk, with a fresh `seen` set per object. */
  method WalkForwardJSON(d: Decoder) returns (ok: bool)
    requires d.Valid()
    modifies d
    ensures d.Valid()
    ensures ok == Walk(old(d.Remaining())).Ok?
    ensures ok ==> d.Remaining() == Walk(old(d.Remaining())).rest
    decreases |d.Remaining()|
  {
    var found, token := d.Token();
    if !found {
      return false;
    }
    if !token.Delim? {
      return true;
    }
    ghost var start := d.Remaining();
    if token.c == '{' {
      var seen := {};
      var more := d.HasMore();
      while more
        invariant d.Valid() && |d.Remaining()| < |old(d.Remaining())|
        invariant more == More(d.Remaining())
        invariant WalkMembers(start, {}) == WalkMembers(d.Remaining(), seen)
        decreases |d.Remaining()|
      {
        var _, key := d.Token();
        if !key.Str? || key.text in seen {
          return false;
        }
        var inner := WalkForwardJSON(d);
        if !inner {
          return false;
        }
        seen := seen + {key.text};
        more := d.HasMore();
      }
      var closed, closing := d.Token();
      return closed && closing == Delim('}');
    }
    if token.c == '[' {
      var more := d.HasMore();
      while more
        invariant d.Valid() && |d.Remaining()| < |old(d.Remaining())|
        invariant more == More(d.Remaining())
        invariant WalkItems(start) == WalkItems(d.Remaining())
        decreases |d.Remaining()|
      {
        var inner := WalkForwardJSON(d);
        if !inner {
          return false;
        }
        more := d.HasMore();
      }
      var closed, closing := d.Token();
      return closed && closing == Delim(']');
    }
    return false;
  }

  /** `rejectDuplicateForwardKeys`: one value and nothing after it. */
  method RejectDuplicateKeys(tokens: seq<Token>) returns (accepted: bool)
    ensures accepted <==> exists v :: Distinct(v) && tokens == Tokens(v)
  {
    var d := new Decoder(tokens);
    var ok := WalkForwardJSON(d);
    if ok && d.pos == |d.tokens| {
      var v := WalkSound(tokens);
      assert tokens == Tokens(v);
      return true;
    }
    forall v | Distinct(v) ensures tokens != Tokens(v) {
      WalkTokens(v, []);
      assert Tokens(v) + [] == Tokens(v);
    }
    return false;
  }

  // ---- The walk accepts exactly the values whose objects have distinct names ------------------

  predicate AllDistinct(items: seq<Json>) {
    forall i :: 0 <= i < |items| ==> Distinct(items[i])
  }

  /** Members acceptable after the names already seen. */
  predicate DistinctBeyond(members: seq<Member>, seen: set<string>) {
    && DistinctNames(members)
    && (forall i :: 0 <= i < |members| ==> members[i].name !in seen)
    && (forall i :: 0 <= i < |members| ==> Distinct(members[i].value))
  }

  lemma BeyondFirst(members: seq<Member>, seen: set<string>)
    requires members != []
    ensures DistinctBeyond(members, seen) <==>
              && members[0].name !in seen && Distinct(members[0].value)
              && DistinctBeyond(members[1..], seen + {members[0].name})
  {
  }

  /** One round of the member loop. */
  lemma WalkOneMember(name: string, value: seq<Token>, seen: set<string>)
    ensures WalkMembers([Str(name)] + value, seen)
         == if name in seen then Bad
            else var head := Walk(value); if head.Bad? then Bad else WalkMembers(head.rest, seen + {name})
  {
  }

  lemma WalkEnd(c: char, rest: seq<Token>, seen: set<string>)
    ensures c == ']' ==> WalkItems([Delim(c)] + rest) == Ok(rest)
    ensures c == '}' ==> WalkMembers([Delim(c)] + rest, seen) == Ok(rest)
  {
  }

  lemma WalkInside(c: char, inner: seq<Token>)
    ensures c == '[' ==> Walk([Delim(c)] + inner) == WalkItems(inner)
    ensures c == '{' ==> Walk([Delim(c)] + inner) == WalkMembers(inner, {})
  {
  }

  lemma WalkLeaf(token: Token, rest: seq<Token>)
    requires !token.Delim?
    ensures Walk([token] + rest) == Ok(rest)
  {
  }

  /** Walking a value's tokens consumes exactly them, and succeeds exactly for distinct names. */
  lemma {:induction false} WalkTokens(v: Json, rest: seq<Token>)
    ensures Walk(Tokens(v) + rest) == if Distinct(v) then Ok(rest) else Bad
    decreases v, 1
  {
    hide Walk, WalkItems, WalkMembers, ItemTokens, MemberTokens, DistinctNames;
    match v
    case Scalar => WalkLeaf(Plain, rest);
    case Text(s) => WalkLeaf(Str(s), rest);
    case Array(items) =>
      var inner := ItemTokens(items) + ([Delim(']')] + rest);
      assert Tokens(v) + rest == [Delim('[')] + inner;
      WalkInside('[', inner);
      WalkItemTokens(items, rest);
    case Object(members) =>
      var inner := MemberTokens(members) + ([Delim('}')] + rest);
      assert Tokens(v) + rest == [Delim('{')] + inner;
      WalkInside('{', inner);
      WalkMemberTokens(members, {}, rest);
  }

  lemma {:induction false} WalkItemTokens(items: seq<Json>, rest: seq<Token>)
    ensures WalkItems(ItemTokens(items) + ([Delim(']')] + rest)) == if AllDistinct(items) then Ok(rest) else Bad
    decreases items, 0
  {
    if items == [] {
      assert ItemTokens(items) + ([Delim(']')] + rest) == [Delim(']')] + rest;
      WalkEnd(']', rest, {});
    } else {
      var tail := ItemTokens(items[1..]) + ([Delim(']')] + rest);
      assert ItemTokens(items) + ([Delim(']')] + rest) == Tokens(items[0]) + tail;
      WalkTokens(items[0], tail);
      WalkItemTokens(items[1..], rest);
      assert items == [items[0]] + items[1..];
    }
  }

  lemma {:induction false} WalkMemberTokens(members: seq<Member>, seen: set<string>, rest: seq<Token>)
    ensures WalkMembers(MemberTokens(members) + ([Delim('}')] + rest), seen)
         == if DistinctBeyond(members, seen) then Ok(rest) else Bad
    decreases members, 0
  {
    if members == [] {
      assert MemberTokens(members) + ([Delim('}')] + rest) == [Delim('}')] + rest;
      WalkEnd('}', rest, seen);
    } else {
      hide Walk, WalkMembers, Distinct, DistinctBeyond, Tokens;
      var first := members[0];
      var tail := MemberTokens(members[1..]) + ([Delim('}')] + rest);
      assert MemberTokens(members) + ([Delim('}')] + rest) == [Str(first.name)] + (Tokens(first.value) + tail);
      WalkOneMember(first.name, Tokens(first.value) + tail, seen);
      WalkTokens(first.value, tail);
      WalkMemberTokens(members[1..], seen + {first.name}, rest);
      BeyondFirst(members, seen);
    }
  }

  /** Whatever the walk accepts is the token stream of one value with distinct names. */
  lemma {:induction false} WalkSound(ts: seq<Token>) returns (v: Json)
    requires Walk(ts).Ok?
    ensures Distinct(v) && ts == Tokens(v) + Walk(ts).rest
    decreases |ts|, 0
  {
    if ts[0].Plain? {
      v := Scalar;
    } else if ts[0].Str? {
      v := Text(ts[0].text);
    } else if ts[0].c == '[' {
      var items := WalkItemsSound(ts[1..]);
      v := Array(items);
    } else {
      var members := WalkMembersSound(ts[1..], {});
      v := Object(members);
    }
  }

  lemma {:induction false} WalkItemsSound(ts: seq<Token>) returns (items: seq<Json>)
    requires WalkItems(ts).Ok?
    ensures forall i :: 0 <= i < |items| ==> Distinct(items[i])
    ensures ts == ItemTokens(items) + ([Delim(']')] + WalkItems(ts).rest)
    decreases |ts|, 1
  {
    if More(ts) {
      var head := WalkSound(ts);
      var tail := WalkItemsSound(Walk(ts).rest);
      items := [head] + tail;
      assert items[1..] == tail;
    } else {
      items := [];
    }
  }

  lemma {:induction false} WalkMembersSound(ts: seq<Token>, seen: set<string>) returns (members: seq<Member>)
    requires WalkMembers(ts, seen).Ok?
    ensures DistinctNames(members)
    ensures forall i :: 0 <= i < |members| ==> members[i].name !in seen && Distinct(members[i].value)
    ensures ts == MemberTokens(members) + ([Delim('}')] + WalkMembers(ts, seen).rest)
    decreases |ts|, 1
  {
    if More(ts) {
      var value := WalkSound(ts[1..]);
      var tail := WalkMembersSound(Walk(ts[1..]).rest, seen + {ts[0].text});
      members := [Member(ts[0].text, value)] + tail;
      assert members[1..] == tail;
    } else {
      members := [];
    }
  }
}
