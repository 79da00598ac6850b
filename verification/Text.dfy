/** The string helpers the daemon takes from Go's `strings`, `path/filepath` and `regexp` packages.
    Strings are sequences of characters; case mapping is the ASCII part of `strings.ToLower`. */
module Text {

  /** The white space of `unicode.IsSpace`. */
  predicate IsSpace(c: char) {
    || '\t' <= c <= '\r'
    || c in {' ', '\U{0085}', '\U{00A0}', '\U{1680}', '\U{2028}', '\U{2029}', '\U{202F}', '\U{205F}', '\U{3000}'}
    || '\U{2000}' <= c <= '\U{200A}'
  }

  predicate Blank(s: string) {
    forall i :: 0 <= i < |s| ==> IsSpace(s[i])
  }

  function TrimLeft(s: string): string {
    if s == "" || !IsSpace(s[0]) then s else TrimLeft(s[1..])
  }

  function TrimRight(s: string): string {
    if s == "" || !IsSpace(s[|s| - 1]) then s else TrimRight(s[..|s| - 1])
  }

  /** `strings.TrimSpace`. */
  function Trim(s: string): string {
    TrimRight(TrimLeft(s))
  }

  lemma {:induction false} TrimLeftBlank(s: string)
    ensures Blank(TrimLeft(s)) <==> Blank(s)
  {
    if s != "" && IsSpace(s[0]) {
      TrimLeftBlank(s[1..]);
      assert s == [s[0]] + s[1..];
    }
  }

  lemma {:induction false} TrimRightBlank(s: string)
    ensures Blank(TrimRight(s)) <==> Blank(s)
    ensures Blank(s) ==> TrimRight(s) == ""
  {
    if s != "" && IsSpace(s[|s| - 1]) {
      TrimRightBlank(s[..|s| - 1]);
      assert s == s[..|s| - 1] + [s[|s| - 1]];
    }
  }

  /** Trimming leaves nothing exactly of white space. */
  lemma TrimEmpty(s: string)
    ensures Trim(s) == "" <==> Blank(s)
  {
    TrimLeftBlank(s);
    TrimRightBlank(TrimLeft(s));
  }

  lemma TrimBlankness(s: string)
    ensures Blank(Trim(s)) <==> Blank(s)
  {
    TrimLeftBlank(s);
    TrimRightBlank(TrimLeft(s));
  }

  function LowerChar(c: char): char {
    if 'A' <= c <= 'Z' then (c as int + 32) as char else c
  }

  /** `strings.ToLower` on ASCII letters. */
  function Lower(s: string): string {
    seq(|s|, i requires 0 <= i < |s| => LowerChar(s[i]))
  }

  lemma {:induction false} LowerTrimLeft(s: string)
    ensures TrimLeft(Lower(s)) == Lower(TrimLeft(s))
  {
    if s != "" && IsSpace(s[0]) {
      LowerTrimLeft(s[1..]);
      assert Lower(s)[1..] == Lower(s[1..]);
    }
  }

  lemma {:induction false} LowerTrimRight(s: string)
    ensures TrimRight(Lower(s)) == Lower(TrimRight(s))
  {
    var n := |s| - 1;
    if s != "" && IsSpace(s[n]) {
      LowerTrimRight(s[..n]);
      assert Lower(s)[..n] == Lower(s[..n]);
    }
  }

  /** Lower-casing moves no white space, so the two steps of normalising commute. */
  lemma LowerTrim(s: string)
    ensures Trim(Lower(s)) == Lower(Trim(s))
  {
    LowerTrimLeft(s);
    LowerTrimRight(TrimLeft(s));
  }

  lemma LowerTwice(s: string)
    ensures Lower(Lower(s)) == Lower(s)
  {
  }

  /** Trimming text that neither starts nor ends with white space. */
  lemma TrimNothing(s: string)
    requires s == "" || (!IsSpace(s[0]) && !IsSpace(s[|s| - 1]))
    ensures Trim(s) == s
  {
  }

  lemma {:induction false} TrimmedLeft(s: string)
    ensures TrimLeft(s) == "" || !IsSpace(TrimLeft(s)[0])
  {
    if s != "" && IsSpace(s[0]) {
      TrimmedLeft(s[1..]);
    }
  }

  lemma {:induction false} TrimmedRight(s: string)
    ensures TrimRight(s) == "" || !IsSpace(TrimRight(s)[|TrimRight(s)| - 1])
    ensures TrimRight(s) != "" ==> s != "" && TrimRight(s)[0] == s[0]
  {
    if s != "" && IsSpace(s[|s| - 1]) {
      TrimmedRight(s[..|s| - 1]);
    }
  }

  lemma TrimTwice(s: string)
    ensures Trim(Trim(s)) == Trim(s)
  {
    TrimmedLeft(s);
    TrimmedRight(TrimLeft(s));
    TrimNothing(Trim(s));
  }

  predicate EndsWith(s: string, tail: string) {
    |tail| <= |s| && s[|s| - |tail|..] == tail
  }

  lemma AppendEndsWith(head: string, tail: string)
    ensures EndsWith(head + tail, tail)
  {
  }

  predicate IsHexDigit(c: char) {
    '0' <= c <= '9' || 'a' <= c <= 'f' || 'A' <= c <= 'F'
  }

  /** Byte order on strings, as Go's `<` compares them. */
  predicate Less(a: string, b: string) {
    if a == "" then b != ""
    else if b == "" then false
    else a[0] < b[0] || (a[0] == b[0] && Less(a[1..], b[1..]))
  }

  lemma {:induction false} LessTransitive(a: string, b: string, c: string)
    requires Less(a, b) && Less(b, c)
    ensures Less(a, c)
  {
    if a != "" && b != "" && c != "" && a[0] == b[0] == c[0] {
      LessTransitive(a[1..], b[1..], c[1..]);
    }
  }

  lemma {:induction false} LessTotal(a: string, b: string)
    ensures Less(a, b) || Less(b, a) || a == b
    ensures !(Less(a, b) && Less(b, a))
    ensures !Less(a, a)
  {
    if a != "" {
      LessTotal(a[1..], a[1..]);
      if b != "" {
        LessTotal(a[1..], b[1..]);
        assert a == [a[0]] + a[1..] && b == [b[0]] + b[1..];
      }
    }
  }

  /** A UUID in 8-4-4-4-12 form. */
  predicate IsUuid(s: string) {
    |s| == 36 &&
    forall k :: 0 <= k < 36 ==> if k in {8, 13, 18, 23} then s[k] == '-' else IsHexDigit(s[k])
  }

  /** The leftmost UUID at or after position i, or "" when there is none. */
  function FindUuid(s: string, i: nat): (r: string)
    ensures r == "" || !Blank(r)
    decreases |s| - i
  {
    if i + 36 > |s| then ""
    else if IsUuid(s[i..i + 36]) then
      var r := s[i..i + 36];
      assert r[8] == '-' && !IsSpace(r[8]);
      r
    else FindUuid(s, i + 1)
  }

  /** The text after the last '/'. */
  function Base(path: string): string
    decreases |path|
  {
    if path == "" then ""
    else if path[|path| - 1] == '/' then ""
    else Base(path[..|path| - 1]) + [path[|path| - 1]]
  }

  lemma LowerBlank(s: string)
    ensures Blank(Lower(s)) <==> Blank(s)
  {
    forall i | 0 <= i < |s| ensures IsSpace(Lower(s)[i]) <==> IsSpace(s[i]) {
    }
  }

  // ---- What these helpers mean, in other words ------------------------------------------------

  /** The part stands at this position of the text. */
  predicate StandsAt(text: string, position: int, part: string) {
    0 <= position <= |text| - |part| && text[position..position + |part|] == part
  }

  lemma StandsInConcat(before: string, part: string, after: string)
    ensures StandsAt(before + part + after, |before|, part)
  {
    assert (before + part + after)[|before|..|before| + |part|] == part;
  }

  lemma StandsLater(front: string, text: string, position: int, part: string)
    requires StandsAt(text, position, part)
    ensures StandsAt(front + text, |front| + position, part)
  {
    assert (front + text)[|front| + position..|front| + position + |part|] == text[position..position + |part|];
  }

  /** Two labelled parts after a head: each stands directly after its label, in this order, with nothing else. */
  predicate HoldsLabelled(text: string, head: string, label1: string, part1: string, label2: string, part2: string) {
    && head <= text
    && StandsAt(text, |head|, label1 + part1)
    && StandsAt(text, |head| + |label1| + |part1|, label2 + part2)
    && |text| == |head| + |label1| + |part1| + |label2| + |part2|
  }

  lemma LabelledParts(head: string, label1: string, part1: string, label2: string, part2: string)
    ensures HoldsLabelled(head + label1 + part1 + label2 + part2, head, label1, part1, label2, part2)
  {
    var text := head + label1 + part1 + label2 + part2;
    assert text == head + (label1 + part1) + (label2 + part2);
    StandsInConcat(head, label1 + part1, label2 + part2);
    assert text == (head + label1 + part1) + (label2 + part2) + "";
    StandsInConcat(head + label1 + part1, label2 + part2, "");
  }

  /** Among ASCII characters, white space is tab, line feed, vertical tab, form feed, return and space. */
  lemma AsciiSpaces(c: char)
    requires c as int < 0x80
    ensures IsSpace(c) <==> c as int in {9, 10, 11, 12, 13, 32}
  {
  }

  /** Lower case has no capitals, and changes nothing but capitals, each to its own small letter. */
  lemma LowerFolds(s: string)
    ensures |Lower(s)| == |s|
    ensures forall i :: 0 <= i < |s| ==>
              && !('A' <= Lower(s)[i] <= 'Z')
              && (!('A' <= s[i] <= 'Z') ==> Lower(s)[i] == s[i])
              && ('A' <= s[i] <= 'Z' ==> Lower(s)[i] as int - 'a' as int == s[i] as int - 'A' as int)
  {
  }

  lemma {:induction false} TrimLeftIsSuffix(s: string)
    ensures |TrimLeft(s)| <= |s| && s[|s| - |TrimLeft(s)|..] == TrimLeft(s)
    ensures Blank(s[..|s| - |TrimLeft(s)|])
  {
    if s != "" && IsSpace(s[0]) {
      hide IsSpace, Blank;
      var rest := s[1..];
      TrimLeftIsSuffix(rest);
      assert TrimLeft(s) == TrimLeft(rest);
      hide TrimLeft;
      var n := |rest| - |TrimLeft(rest)|;
      assert s[n + 1..] == rest[n..] && s[..n + 1] == [s[0]] + rest[..n];
      SpaceBefore(s[0], rest[..n]);
    }
  }

  lemma SpaceBefore(c: char, s: string)
    requires IsSpace(c) && Blank(s)
    ensures Blank([c] + s)
  {
  }

  lemma {:induction false} TrimRightIsPrefix(s: string)
    ensures TrimRight(s) <= s && Blank(s[|TrimRight(s)|..])
  {
    var n := |s| - 1;
    if s != "" && IsSpace(s[n]) {
      TrimRightIsPrefix(s[..n]);
      var k := |TrimRight(s)|;
      assert s[k..] == s[..n][k..] + [s[n]];
    }
  }

  /** Trimming takes white space off both ends, and all of it. */
  lemma TrimIsMiddle(s: string) returns (before: string, after: string)
    ensures s == before + Trim(s) + after && Blank(before) && Blank(after)
    ensures Trim(s) == "" || (!IsSpace(Trim(s)[0]) && !IsSpace(Trim(s)[|Trim(s)| - 1]))
  {
    hide TrimLeft, TrimRight, Blank, IsSpace;
    var left := TrimLeft(s);
    TrimLeftIsSuffix(s);
    TrimRightIsPrefix(left);
    TrimmedLeft(s);
    TrimmedRight(left);
    before, after := s[..|s| - |left|], left[|Trim(s)|..];
    assert s == before + left && left == Trim(s) + after;
  }

  /** Byte order is decided at the first difference, or by length where one text begins the other. */
  lemma {:induction false} LessIsLexicographic(a: string, b: string, k: nat)
    requires k <= |a| && k <= |b| && a[..k] == b[..k]
    ensures k < |a| && k < |b| && a[k] < b[k] ==> Less(a, b)
    ensures k == |a| < |b| ==> Less(a, b)
    ensures k < |a| && k < |b| && a[k] > b[k] ==> !Less(a, b)
    ensures k == |b| ==> !Less(a, b)
  {
    if k > 0 {
      assert a[0] == a[..k][0] && b[0] == b[..k][0];
      assert a[1..][..k - 1] == a[..k][1..] && b[1..][..k - 1] == b[..k][1..];
      LessIsLexicographic(a[1..], b[1..], k - 1);
    }
  }

  /** The name is the last element of the path: what follows its last '/'. */
  predicate LastElement(path: string, name: string) {
    && EndsWith(path, name) && '/' !in name
    && (|name| == |path| || path[|path| - |name| - 1] == '/')
  }

  lemma {:induction false} BaseIsLastElement(path: string)
    ensures LastElement(path, Base(path))
  {
    if path != "" && path[|path| - 1] != '/' {
      var n := |path| - 1;
      BaseIsLastElement(path[..n]);
      var name := Base(path[..n]);
      assert Base(path) == name + [path[n]];
      assert path[|path| - |Base(path)|..] == path[..n][n - |name|..] + [path[n]];
    }
  }

  lemma LastElementIsUnique(path: string, a: string, b: string)
    requires LastElement(path, a) && LastElement(path, b)
    ensures a == b
  {
  }

  predicate UuidAt(s: string, i: nat) {
    i + 36 <= |s| && IsUuid(s[i..i + 36])
  }

  /** The leftmost UUID from position i on starts at k. */
  predicate FirstUuidAt(s: string, i: nat, k: nat) {
    i <= k && UuidAt(s, k) && forall j: nat :: i <= j < k ==> !UuidAt(s, j)
  }

  /** The search finds the leftmost UUID from i on. */
  lemma {:induction false} FindsFirstUuid(s: string, i: nat, k: nat)
    requires FirstUuidAt(s, i, k)
    ensures FindUuid(s, i) == s[k..k + 36]
    decreases |s| - i
  {
    hide IsUuid;
    if i < k {
      assert !UuidAt(s, i);
      FindsFirstUuid(s, i + 1, k);
    }
  }

  /** And finds nothing only when there is none. */
  lemma {:induction false} FindsSomeUuid(s: string, i: nat) returns (k: nat)
    requires FindUuid(s, i) != ""
    ensures FirstUuidAt(s, i, k)
    decreases |s| - i
  {
    hide IsUuid;
    if UuidAt(s, i) {
      k := i;
    } else {
      k := FindsSomeUuid(s, i + 1);
    }
  }

  /** A concrete UUID, as session files carry it. */
  lemma SampleUuid()
    ensures IsUuid("123e4567-e89b-12d3-a456-426614174000")
  {
  }
}
