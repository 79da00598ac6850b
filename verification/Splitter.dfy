/** Splitting long turn content into overlapping parts.

    The Claude splitter (internal/history/source/claude/claude.go:371-392) returns at its last part; the
    Codex, Gemini and ChatGPT splitters (internal/history/source/codex/codex.go:455-475 and its copies)
    keep looping.  Positions are byte positions. */
module Splitter {

  const MAX_CONTENT := 8000
  const OVERLAP := 1500
  const SEARCH_REGION := 1000

  function Max(a: int, b: int): int {
    if a >= b then a else b
  }

  predicate Occurs(s: string, pattern: string, i: int) {
    0 <= i <= |s| - |pattern| && s[i..i + |pattern|] == pattern
  }

  /** `strings.LastIndex`, looking at positions up to and including i. */
  function LastIndexAt(s: string, pattern: string, i: int): (r: int)
    requires i <= |s| - |pattern|
    ensures -1 <= r && (r >= 0 ==> r <= i && Occurs(s, pattern, r))
    ensures forall j :: r < j <= i ==> !Occurs(s, pattern, j)
    decreases i
  {
    if i < 0 then -1
    else if Occurs(s, pattern, i) then i
    else LastIndexAt(s, pattern, i - 1)
  }

  function LastIndex(s: string, pattern: string): (r: int)
    ensures -1 <= r && (r >= 0 ==> Occurs(s, pattern, r))
    ensures forall j :: r < j ==> !Occurs(s, pattern, j)
  {
    LastIndexAt(s, pattern, |s| - |pattern|)
  }

  function SentenceBreak(region: string): (r: int)
    ensures -1 <= r && (r >= 0 ==> r + 1 <= |region|)
  {
    Max(Max(LastIndex(region, ". "), LastIndex(region, "! ")), Max(LastIndex(region, "? "), LastIndex(region, "\n")))
  }

  /** Where a part that does not reach the end stops: after a paragraph or sentence break in its last
      1000 bytes, or at 8000 bytes. */
  function Cut(content: string, start: nat): (end: nat)
    requires start + MAX_CONTENT < |content|
    ensures start + 7002 <= end <= start + MAX_CONTENT
  {
    var limit := start + MAX_CONTENT;
    var region := content[limit - SEARCH_REGION..limit];
    var paragraph := LastIndex(region, "\n\n");
    if paragraph > 0 then limit - SEARCH_REGION + paragraph + 2
    else
      var sentence := SentenceBreak(region);
      if sentence > 0 then limit - SEARCH_REGION + sentence + 1 else limit
  }

  /** A paragraph break starts at j, strictly inside the last 1000 bytes before the limit. */
  predicate ParagraphAt(content: string, limit: nat, j: int)
    requires SEARCH_REGION <= limit <= |content|
  {
    limit - SEARCH_REGION < j <= limit - 2 && content[j] == '\n' && content[j + 1] == '\n'
  }

  /** A line end, or a full stop, exclamation or question mark before a space, at j in that region. */
  predicate SentenceAt(content: string, limit: nat, j: int)
    requires SEARCH_REGION <= limit <= |content|
  {
    && limit - SEARCH_REGION < j < limit
    && (content[j] == '\n' || (j + 1 < limit && content[j] in {'.', '!', '?'} && content[j + 1] == ' '))
  }

  /** A part ends right after the last paragraph break of its last 1000 bytes; without one, one byte after
      the start of the last sentence break there; without either, at 8000 bytes. */
  ghost predicate AtLastBreak(content: string, start: nat, end: nat)
    requires start + MAX_CONTENT < |content|
  {
    var limit := start + MAX_CONTENT;
    if exists j :: ParagraphAt(content, limit, j) then
      ParagraphAt(content, limit, end - 2) && forall j :: ParagraphAt(content, limit, j) ==> j <= end - 2
    else if exists j :: SentenceAt(content, limit, j) then
      SentenceAt(content, limit, end - 1) && forall j :: SentenceAt(content, limit, j) ==> j <= end - 1
    else end == limit
  }

  lemma PairOccurs(s: string, pattern: string, i: int)
    requires |pattern| == 2
    ensures Occurs(s, pattern, i) <==> 0 <= i <= |s| - 2 && s[i] == pattern[0] && s[i + 1] == pattern[1]
  {
    if 0 <= i <= |s| - 2 {
      assert s[i..i + 2] == [s[i], s[i + 1]];
      assert pattern == [pattern[0], pattern[1]];
    }
  }

  lemma LineOccurs(s: string, i: int)
    ensures Occurs(s, "\n", i) <==> 0 <= i < |s| && s[i] == '\n'
  {
    if 0 <= i < |s| {
      assert s[i..i + 1] == [s[i]];
    }
  }

  /** A sentence break at a position of the region, as the four searches see it. */
  predicate BreaksAt(region: string, i: int) {
    Occurs(region, ". ", i) || Occurs(region, "! ", i) || Occurs(region, "? ", i) || Occurs(region, "\n", i)
  }

  lemma LastSentenceBreak(region: string)
    ensures SentenceBreak(region) >= 0 ==> BreaksAt(region, SentenceBreak(region))
    ensures forall i :: i > SentenceBreak(region) ==> !BreaksAt(region, i)
  {
    hide Occurs, LastIndex;
  }

  lemma BreaksInContent(content: string, limit: nat, i: int)
    requires SEARCH_REGION <= limit <= |content|
    ensures var region := content[limit - SEARCH_REGION..limit];
            && (i > 0 ==> (Occurs(region, "\n\n", i) <==> ParagraphAt(content, limit, limit - SEARCH_REGION + i)))
            && (i > 0 ==> (BreaksAt(region, i) <==> SentenceAt(content, limit, limit - SEARCH_REGION + i)))
  {
    hide Occurs;
    var region := content[limit - SEARCH_REGION..limit];
    PairOccurs(region, "\n\n", i);
    PairOccurs(region, ". ", i);
    PairOccurs(region, "! ", i);
    PairOccurs(region, "? ", i);
    LineOccurs(region, i);
  }

  /** The two searches together find the last break, read off the content itself. */
  lemma CutIsAtLastBreak(content: string, start: nat)
    requires start + MAX_CONTENT < |content|
    ensures AtLastBreak(content, start, Cut(content, start))
  {
    hide Occurs, LastIndex, SentenceBreak, BreaksAt, ParagraphAt, SentenceAt;
    var limit := start + MAX_CONTENT;
    var base := limit - SEARCH_REGION;
    var region := content[base..limit];
    LastSentenceBreak(region);
    forall j ensures ParagraphAt(content, limit, j) ==> j > base && Occurs(region, "\n\n", j - base)
      ensures SentenceAt(content, limit, j) ==> j > base && BreaksAt(region, j - base)
    {
      BreaksAfterBase(content, limit, j);
      BreaksInContent(content, limit, j - base);
    }
    BreaksInContent(content, limit, LastIndex(region, "\n\n"));
    BreaksInContent(content, limit, SentenceBreak(region));
  }

  lemma BreaksAfterBase(content: string, limit: nat, j: int)
    requires SEARCH_REGION <= limit <= |content|
    ensures ParagraphAt(content, limit, j) || SentenceAt(content, limit, j) ==> j > limit - SEARCH_REGION
  {
  }

  /** The break search both splitters share. */
  method FindCut(content: string, start: nat) returns (end: nat)
    requires start + MAX_CONTENT < |content|
    ensures end == Cut(content, start)
    ensures AtLastBreak(content, start, end)
  {
    CutIsAtLastBreak(content, start);
    hide AtLastBreak;
    end := start + MAX_CONTENT;
    var regionStart := Max(start, end - SEARCH_REGION);
    var region := content[regionStart..end];
    var at := LastIndex(region, "\n\n");
    if at > 0 {
      end := regionStart + at + 2;
    } else {
      at := SentenceBreak(region);
      if at > 0 {
        end := regionStart + at + 1;
      }
    }
  }

  datatype Span = Span(start: nat, end: nat)

  /** The spans of the Claude splitter from a start position. */
  function SpansFrom(content: string, start: nat): (spans: seq<Span>)
    requires start < |content|
    ensures spans != [] && spans[0].start == start && spans[|spans| - 1].end == |content|
    decreases |content| - start
  {
    if start + MAX_CONTENT >= |content| then [Span(start, |content|)]
    else
      var end := Cut(content, start);
      [Span(start, end)] + SpansFrom(content, end - OVERLAP)
  }

  /** The geometry every later claim rests on: parts of at most 8000 bytes, neighbours overlapping by
      exactly 1500, and every non-final part advancing by 5502 to 6500. */
  predicate Tiled(spans: seq<Span>) {
    && (forall i :: 0 <= i < |spans| ==> spans[i].start <= spans[i].end <= spans[i].start + MAX_CONTENT)
    && (forall i :: 0 <= i < |spans| - 1 ==>
          spans[i].start + 5502 <= spans[i + 1].start == spans[i].end - OVERLAP <= spans[i].start + 6500)
  }

  /** All within the content, and every later span longer than the overlap. */
  predicate Inside(spans: seq<Span>, length: nat) {
    && (forall i :: 0 <= i < |spans| ==> spans[i].end <= length)
    && (forall i :: 1 <= i < |spans| ==> spans[i].start + OVERLAP < spans[i].end)
  }

  lemma {:induction false} SpansAreTiled(content: string, start: nat)
    requires start < |content|
    ensures Tiled(SpansFrom(content, start)) && Inside(SpansFrom(content, start), |content|)
    decreases |content| - start
  {
    hide SpansFrom, Cut;
    if start + MAX_CONTENT < |content| {
      hide Tiled, Inside;
      var end := Cut(content, start);
      SpansAreTiled(content, end - OVERLAP);
      FirstSpan(content, end - OVERLAP);
      PrependedIsTiled(Span(start, end), SpansFrom(content, end - OVERLAP), |content|);
      NextSpans(content, start);
    } else {
      SingleSpan(content, start);
    }
  }

  lemma NextSpans(content: string, start: nat)
    requires start + MAX_CONTENT < |content|
    ensures var end := Cut(content, start);
            SpansFrom(content, start) == [Span(start, end)] + SpansFrom(content, end - OVERLAP)
  {
  }

  lemma FirstSpan(content: string, start: nat)
    requires start + OVERLAP < |content|
    ensures SpansFrom(content, start)[0].start + OVERLAP < SpansFrom(content, start)[0].end
  {
  }

  lemma PrependedIsTiled(first: Span, rest: seq<Span>, length: nat)
    requires Tiled(rest) && Inside(rest, length) && rest != []
    requires first.start <= first.end <= first.start + MAX_CONTENT && first.end <= length
    requires first.start + 5502 <= rest[0].start == first.end - OVERLAP <= first.start + 6500
    requires rest[0].start + OVERLAP < rest[0].end
    ensures Tiled([first] + rest) && Inside([first] + rest, length)
  {
    var spans := [first] + rest;
    forall i | 0 <= i < |spans| - 1
      ensures spans[i].start + 5502 <= spans[i + 1].start == spans[i].end - OVERLAP <= spans[i].start + 6500
    {
      if i > 0 {
        assert spans[i] == rest[i - 1] && spans[i + 1] == rest[i - 1 + 1];
      }
    }
  }

  /** The number of parts, from both step bounds. */
  lemma {:induction false} SpanCount(content: string, start: nat)
    requires start < |content| && start + MAX_CONTENT < |content|
    ensures var n, left := |SpansFrom(content, start)|, |content| - start - MAX_CONTENT;
            5502 * (n - 2) < left <= 6500 * (n - 1)
    decreases |content| - start
  {
    hide Cut;
    var next := Cut(content, start) - OVERLAP;
    var rest := |SpansFrom(content, next)|;
    assert |SpansFrom(content, start)| == 1 + rest;
    hide SpansFrom;
    if next + MAX_CONTENT < |content| {
      SpanCount(content, next);
    } else {
      SingleSpan(content, next);
    }
  }

  lemma SingleSpan(content: string, start: nat)
    requires start < |content| <= start + MAX_CONTENT
    ensures SpansFrom(content, start) == [Span(start, |content|)]
  {
  }

  // ---- The Claude splitter --------------------------------------------------------------------

  function ClaudeFrom(content: string, start: nat): (parts: seq<string>)
    requires start < |content|
    decreases |content| - start
  {
    if start + MAX_CONTENT >= |content| then [content[start..]]
    else
      var end := Cut(content, start);
      [content[start..end]] + ClaudeFrom(content, end - OVERLAP)
  }

  function ClaudeParts(content: string): (parts: seq<string>) {
    if |content| <= MAX_CONTENT then [content] else ClaudeFrom(content, 0)
  }

  /** The loop of the Claude splitter. */
  method SplitClaude(content: string) returns (parts: seq<string>)
    ensures parts == ClaudeParts(content)
  {
    hide Cut, AtLastBreak;
    if |content| <= MAX_CONTENT {
      return [content];
    }
    parts := [];
    var start := 0;
    while start < |content|
      invariant 0 <= start < |content|
      invariant parts + ClaudeFrom(content, start) == ClaudeFrom(content, 0)
      decreases |content| - start
    {
      if start + MAX_CONTENT >= |content| {
        return parts + [content[start..]];
      }
      var end := FindCut(content, start);
      Shift(parts, content[start..end], ClaudeFrom(content, end - OVERLAP));
      parts := parts + [content[start..end]];
      start := Max(start + 1, end - OVERLAP);
    }
  }

  lemma Shift(parts: seq<string>, next: string, rest: seq<string>)
    ensures parts + ([next] + rest) == (parts + [next]) + rest
  {
  }

  /** The parts are the slices at the spans. */
  lemma {:induction false} PartsAreSlices(content: string, start: nat)
    requires start < |content|
    ensures |ClaudeFrom(content, start)| == |SpansFrom(content, start)|
    ensures forall i :: 0 <= i < |SpansFrom(content, start)| ==>
              && SpansFrom(content, start)[i].start <= SpansFrom(content, start)[i].end <= |content|
              && ClaudeFrom(content, start)[i]
                 == content[SpansFrom(content, start)[i].start..SpansFrom(content, start)[i].end]
    decreases |content| - start
  {
    hide Cut, AtLastBreak;
    SpansAreTiled(content, start);
    if start + MAX_CONTENT < |content| {
      PartsAreSlices(content, Cut(content, start) - OVERLAP);
    }
  }

  /** Dropping the first 1500 bytes of every part but the first. */
  function Rejoin(parts: seq<string>): string
    requires forall i :: 1 <= i < |parts| ==> |parts[i]| >= OVERLAP
    decreases |parts|
  {
    if parts == [] then ""
    else if |parts| == 1 then parts[0]
    else Rejoin(parts[..|parts| - 1]) + parts[|parts| - 1][OVERLAP..]
  }

  predicate SlicesOf(content: string, parts: seq<string>, spans: seq<Span>) {
    |parts| == |spans| &&
    forall i :: 0 <= i < |spans| ==>
      spans[i].start <= spans[i].end <= |content| && parts[i] == content[spans[i].start..spans[i].end]
  }

  lemma {:induction false} RejoinSlices(content: string, parts: seq<string>, spans: seq<Span>)
    requires spans != [] && SlicesOf(content, parts, spans) && Tiled(spans)
    requires Inside(spans, |content|)
    ensures spans[0].start <= spans[|spans| - 1].end
    ensures Rejoin(parts) == content[spans[0].start..spans[|spans| - 1].end]
    decreases |spans|
  {
    var n := |spans| - 1;
    if n > 0 {
      var middle := spans[n - 1].end;
      PrefixIsTiled(spans, n);
      RejoinSlices(content, parts[..n], spans[..n]);
      assert spans[n - 1 + 1].start == middle - OVERLAP;
      assert parts[n][OVERLAP..] == content[middle..spans[n].end];
      Adjacent(content, spans[0].start, middle, spans[n].end);
    }
  }

  lemma Adjacent(content: string, a: nat, b: nat, c: nat)
    requires a <= b <= c <= |content|
    ensures content[a..b] + content[b..c] == content[a..c]
  {
  }

  lemma PrefixIsTiled(spans: seq<Span>, n: nat)
    requires Tiled(spans) && n <= |spans|
    ensures Tiled(spans[..n])
  {
  }

  /** The last 1500 bytes of a part open the next one. */
  predicate Joins(a: string, b: string) {
    |a| >= OVERLAP && |b| >= OVERLAP && a[|a| - OVERLAP..] == b[..OVERLAP]
  }

  ghost predicate Overlapping(parts: seq<string>) {
    forall i, j :: 0 <= i < j < |parts| && j == i + 1 ==> Joins(parts[i], parts[j])
  }

  lemma SlicesOverlap(content: string, parts: seq<string>, spans: seq<Span>)
    requires SlicesOf(content, parts, spans) && Tiled(spans)
    requires Inside(spans, |content|)
    ensures Overlapping(parts)
  {
  }

  /** Nothing is lost and every bound is kept: parts of at most 8000 bytes, later parts longer than the
      overlap, neighbours sharing exactly 1500 bytes, and the content back by dropping each overlap. */
  ghost predicate GoodSplit(content: string, parts: seq<string>) {
    && parts != []
    && (forall i :: 0 <= i < |parts| ==> |parts[i]| <= MAX_CONTENT)
    && (forall i :: 1 <= i < |parts| ==> |parts[i]| > OVERLAP)
    && Overlapping(parts)
    && Rejoin(parts) == content
  }

  lemma SlicesAreGoodSplit(content: string, parts: seq<string>, spans: seq<Span>)
    requires spans != [] && SlicesOf(content, parts, spans) && Tiled(spans)
    requires Inside(spans, |content|)
    requires spans[0].start == 0 && spans[|spans| - 1].end == |content|
    ensures GoodSplit(content, parts)
  {
    hide Rejoin, Overlapping;
    RejoinSlices(content, parts, spans);
    SlicesOverlap(content, parts, spans);
    assert content[0..|content|] == content;
  }

  /** The Claude splitter splits well, for all content. */
  lemma ClaudeRoundTrip(content: string)
    ensures GoodSplit(content, ClaudeParts(content))
    ensures MAX_CONTENT == 8000 && OVERLAP == 1500 && SEARCH_REGION == 1000
  {
    if |content| > MAX_CONTENT {
      hide *;
      SpansAreTiled(content, 0);
      SliceView(content);
      SlicesAreGoodSplit(content, ClaudeFrom(content, 0), SpansFrom(content, 0));
      ClaudePartsOfLong(content);
    }
  }

  lemma SliceView(content: string)
    requires content != ""
    ensures SlicesOf(content, ClaudeFrom(content, 0), SpansFrom(content, 0))
  {
    hide ClaudeFrom, SpansFrom;
    PartsAreSlices(content, 0);
  }

  lemma ClaudePartsOfLong(content: string)
    requires |content| > MAX_CONTENT
    ensures ClaudeParts(content) == ClaudeFrom(content, 0)
  {
  }

  /** The number of parts lies between 1 + ceil((L-8000)/6500) and 1 + ceil((L-8000)/5502). */
  lemma ClaudePartCount(content: string)
    ensures var n, left := |ClaudeParts(content)|, |content| - MAX_CONTENT;
            if left <= 0 then n == 1 else 1 + (left + 6499) / 6500 <= n <= 1 + (left + 5501) / 5502
  {
    if |content| > MAX_CONTENT {
      SpanCount(content, 0);
      PartsAreSlices(content, 0);
    }
  }

  // ---- The Codex, Gemini and ChatGPT splitter -------------------------------------------------

  /** The parts of the looping splitter from a start position. */
  function LoopingFrom(content: string, start: nat): seq<string>
    decreases Max(0, |content| - start)
  {
    if start >= |content| then []
    else
      var end := if start + MAX_CONTENT < |content| then Cut(content, start) else |content|;
      [content[start..end]] + LoopingFrom(content, Max(start + 1, end - OVERLAP))
  }

  function CodexParts(content: string): seq<string> {
    if |content| <= MAX_CONTENT then [content] else LoopingFrom(content, 0)
  }

  lemma LoopingNext(content: string, start: nat)
    requires start < |content|
    ensures var end := if start + MAX_CONTENT < |content| then Cut(content, start) else |content|;
            && Max(start + 1, end - OVERLAP) > start
            && LoopingFrom(content, start) == [content[start..end]] + LoopingFrom(content, Max(start + 1, end - OVERLAP))
  {
    hide Cut;
  }

  /** Moving one part over to the parts collected so far. */
  lemma LoopingStep(content: string, start: nat, end: nat, parts: seq<string>)
    requires start < |content| && end == if start + MAX_CONTENT < |content| then Cut(content, start) else |content|
    ensures start <= end <= |content| && Max(start + 1, end - OVERLAP) > start
    ensures parts + [content[start..end]] + LoopingFrom(content, Max(start + 1, end - OVERLAP))
         == parts + LoopingFrom(content, start)
  {
    hide Cut, LoopingFrom;
    LoopingNext(content, start);
  }

  lemma LongParts(content: string)
    requires |content| > MAX_CONTENT
    ensures CodexParts(content) == [] + LoopingFrom(content, 0)
  {
    hide LoopingFrom;
  }

  lemma LoopingEnds(content: string, start: nat)
    requires start >= |content|
    ensures LoopingFrom(content, start) == []
  {
  }

  method SplitCodex(content: string) returns (parts: seq<string>)
    ensures parts == CodexParts(content)
  {
    if |content| <= MAX_CONTENT {
      return [content];
    }
    hide *;
    LongParts(content);
    parts := [];
    var start := 0;
    while start < |content|
      invariant 0 <= start
      invariant parts + LoopingFrom(content, start) == LoopingFrom(content, 0)
      decreases |content| - start
    {
      var end := |content|;
      if start + MAX_CONTENT < |content| {
        end := FindCut(content, start);
      }
      LoopingStep(content, start, end, parts);
      parts := parts + [content[start..end]];
      start := Max(start + 1, end - OVERLAP);
    }
    LoopingEnds(content, start);
  }

  /** Every suffix of the content from a position on, each one byte shorter than the one before. */
  function SuffixesFrom(content: string, start: nat): (parts: seq<string>)
    requires start <= |content|
    ensures |parts| == |content| - start
    ensures forall i :: 0 <= i < |parts| ==> parts[i] == content[start + i..]
    decreases |content| - start
  {
    if start == |content| then []
    else
      var rest := SuffixesFrom(content, start + 1);
      [content[start..]] + rest
  }

  lemma {:induction false} TailIsSuffixes(content: string, start: nat)
    requires |content| > MAX_CONTENT && |content| - OVERLAP <= start <= |content|
    ensures LoopingFrom(content, start) == SuffixesFrom(content, start)
    decreases |content| - start
  {
    if start < |content| {
      TailIsSuffixes(content, start + 1);
      assert content[start..|content|] == content[start..];
      assert Max(start + 1, |content| - OVERLAP) == start + 1;
    }
  }

  lemma {:induction false} LoopingExtendsClaude(content: string, start: nat)
    requires |content| > MAX_CONTENT && start < |content| - OVERLAP
    ensures LoopingFrom(content, start)
         == ClaudeFrom(content, start) + SuffixesFrom(content, |content| - OVERLAP)
    decreases |content| - start
  {
    hide Cut, SuffixesFrom;
    if start + MAX_CONTENT < |content| {
      var end := Cut(content, start);
      LoopingExtendsClaude(content, end - OVERLAP);
    } else {
      TailIsSuffixes(content, |content| - OVERLAP);
      assert content[start..|content|] == content[start..];
    }
  }

  /** For content over 8000 bytes the looping splitter returns the Claude parts followed by the 1500
      suffixes of the last 1500 bytes, each one byte shorter; for shorter content the two agree. */
  lemma CodexIsClaudeAndSuffixes(content: string)
    ensures |content| <= MAX_CONTENT ==> CodexParts(content) == ClaudeParts(content)
    ensures |content| > MAX_CONTENT ==>
              && CodexParts(content) == ClaudeParts(content) + SuffixesFrom(content, |content| - OVERLAP)
              && |CodexParts(content)| == |ClaudeParts(content)| + OVERLAP > OVERLAP + 1
  {
    if |content| > MAX_CONTENT {
      LoopingExtendsClaude(content, 0);
      ClaudePartCount(content);
    }
  }
}
