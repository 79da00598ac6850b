/** The shape of assembled output (internal/history/source/codex/codex.go:108-210,
    internal/history/source/gemini/gemini.go:119-201): one group for each opening message, and blocks in
    which the first chunk heads exactly the file chunks that follow it. */
module Grouping {
  import opened Options
  import opened Chunk
  import opened Text
  import opened Splitter
  import opened Assembly

  // ---- One group per opening ------------------------------------------------------------------

  /** The slices of the records that belong to the openings before hi, in order. */
  function Slices(items: seq<Item>, hi: nat): seq<(nat, nat)>
    requires hi <= |items|
    decreases hi
  {
    var last := LastOpening(items, hi);
    if last.None? then [] else Slices(items, last.value) + [(last.value, hi)]
  }

  /** A slice runs from an opening to the next one, or to hi. */
  predicate IsSlice(items: seq<Item>, hi: nat, slice: (nat, nat)) {
    && slice.0 < hi <= |items| && items[slice.0].role.Opening?
    && slice.1 == SliceEnd(items, slice.0, hi)
  }

  predicate Increasing(slices: seq<(nat, nat)>) {
    forall a, b :: 0 <= a < b < |slices| ==> slices[a].0 < slices[b].0
  }

  predicate Listed(slices: seq<(nat, nat)>, p: nat) {
    exists k :: 0 <= k < |slices| && slices[k].0 == p
  }

  lemma SliceGrows(items: seq<Item>, mid: nat, hi: nat, slice: (nat, nat))
    requires mid < hi <= |items| && items[mid].role.Opening? && IsSlice(items, mid, slice)
    ensures IsSlice(items, hi, slice)
  {
    hide SliceEnd;
    SameSlice(items, slice.0, mid, hi);
  }

  /** Each opening has exactly one slice, and the slices are in record order. */
  lemma {:induction false} EachOpeningHasOneSlice(items: seq<Item>, hi: nat)
    requires hi <= |items|
    ensures forall k :: 0 <= k < |Slices(items, hi)| ==> IsSlice(items, hi, Slices(items, hi)[k])
    ensures Increasing(Slices(items, hi))
    ensures forall p :: 0 <= p < hi && items[p].role.Opening? ==> Listed(Slices(items, hi), p)
    decreases hi
  {
    hide SliceEnd, IsSlice;
    var last := LastOpening(items, hi);
    if last.Some? {
      var mid := last.value;
      var before, all := Slices(items, mid), Slices(items, hi);
      EachOpeningHasOneSlice(items, mid);
      forall k | 0 <= k < |before| ensures IsSlice(items, hi, before[k]) && before[k].0 < mid {
        SliceGrows(items, mid, hi, before[k]);
        SliceIsBefore(items, mid, before[k]);
      }
      LastSlice(items, mid, hi);
      forall p | 0 <= p < hi && items[p].role.Opening? ensures Listed(all, p) {
        if p < mid {
          var k :| 0 <= k < |before| && before[k].0 == p;
          assert all[k].0 == p;
        } else {
          assert all[|before|].0 == p;
        }
      }
    }
  }

  lemma SliceIsBefore(items: seq<Item>, hi: nat, slice: (nat, nat))
    requires IsSlice(items, hi, slice)
    ensures slice.0 < hi
  {
  }

  lemma LastSlice(items: seq<Item>, p: nat, hi: nat)
    requires p < hi <= |items| && items[p].role.Opening?
    requires forall i :: p < i < hi ==> !items[i].role.Opening?
    ensures IsSlice(items, hi, (p, hi))
  {
    hide SliceEnd;
  }

  /** What the slice of one opening emits: what could not wait, then its group. */
  function SliceChunks(style: Style, start: Settings, items: seq<Item>, slice: (nat, nat)): seq<Chunk>
    requires slice.0 < slice.1 <= |items|
  {
    Immediates(style, start, items, slice.0 + 1, slice.1, true) + GroupOf(style, start, items, slice.0, slice.1)
  }

  predicate WithinItems(items: seq<Item>, slices: seq<(nat, nat)>) {
    forall k :: 0 <= k < |slices| ==> slices[k].0 < slices[k].1 <= |items|
  }

  function AllSlices(style: Style, start: Settings, items: seq<Item>, slices: seq<(nat, nat)>): seq<Chunk>
    requires WithinItems(items, slices)
  {
    if slices == [] then []
    else
      var n := |slices| - 1;
      AllSlices(style, start, items, slices[..n]) + SliceChunks(style, start, items, slices[n])
  }

  function FirstOpening(items: seq<Item>, hi: nat): (p: nat)
    requires hi <= |items|
  {
    if Slices(items, hi) == [] then hi else Slices(items, hi)[0].0
  }

  lemma {:induction false} SlicesStayWithin(items: seq<Item>, hi: nat)
    requires hi <= |items|
    ensures WithinItems(items, Slices(items, hi)) && FirstOpening(items, hi) <= hi
    decreases hi
  {
    var last := LastOpening(items, hi);
    if last.Some? {
      SlicesStayWithin(items, last.value);
    }
  }

  /** The output is the records before the first opening one by one, and then exactly one group for each
      opening, in order, with what its slice emitted at once in front of it. */
  lemma {:induction false} OutputIsOneGroupPerOpening(style: Style, start: Settings, items: seq<Item>, hi: nat)
    requires hi <= |items|
    ensures WithinItems(items, Slices(items, hi)) && FirstOpening(items, hi) <= hi
    ensures Assembled(style, start, items, hi)
         == Immediates(style, start, items, 0, FirstOpening(items, hi), false)
            + AllSlices(style, start, items, Slices(items, hi))
    decreases hi
  {
    hide *;
    SlicesStayWithin(items, hi);
    var last := LastOpening(items, hi);
    if last.Some? {
      var p := last.value;
      LastSliceEmits(style, start, items, hi, p);
      OutputIsOneGroupPerOpening(style, start, items, p);
      MoreSlices(style, start, items, Slices(items, p), (p, hi));
    } else {
      OnlyImmediates(style, start, items, hi);
    }
  }

  lemma OnlyImmediates(style: Style, start: Settings, items: seq<Item>, hi: nat)
    requires hi <= |items| && LastOpening(items, hi).None?
    ensures Slices(items, hi) == [] && FirstOpening(items, hi) == hi
    ensures Assembled(style, start, items, hi) == Immediates(style, start, items, 0, hi, false)
    ensures AllSlices(style, start, items, []) == []
  {
    hide Immediates;
  }

  lemma LastSliceEmits(style: Style, start: Settings, items: seq<Item>, hi: nat, p: nat)
    requires hi <= |items| && LastOpening(items, hi) == Some(p)
    ensures p < hi && Slices(items, hi) == Slices(items, p) + [(p, hi)]
    ensures FirstOpening(items, hi) == FirstOpening(items, p)
    ensures Assembled(style, start, items, hi)
         == Assembled(style, start, items, p) + SliceChunks(style, start, items, (p, hi))
  {
    hide Immediates, GroupOf;
  }

  lemma MoreSlices(style: Style, start: Settings, items: seq<Item>, slices: seq<(nat, nat)>, slice: (nat, nat))
    requires WithinItems(items, slices) && slice.0 < slice.1 <= |items|
    ensures WithinItems(items, slices + [slice])
    ensures AllSlices(style, start, items, slices + [slice])
         == AllSlices(style, start, items, slices) + SliceChunks(style, start, items, slice)
  {
    hide SliceChunks;
    assert (slices + [slice])[..|slices|] == slices;
  }

  // ---- Blocks ---------------------------------------------------------------------------------

  /** n turn chunks, the first of which lists exactly the file chunks that follow; each of those names it
      as its parent. */
  ghost predicate Block(b: seq<Chunk>, n: nat) {
    && 0 < n <= |b|
    && (forall i :: 0 <= i < n ==> b[i].chunkType == Turn)
    && (forall i :: 0 < i < |b| ==> b[i].childChunkIDs == [])
    && (forall i :: n <= i < |b| ==> b[i].chunkType == FileChange && b[i].parentChunkID == b[0].id)
    && b[0].childChunkIDs == Ids(b[n..])
  }

  /** The chunks fall into blocks from the first to the last. */
  ghost predicate InBlocks(chunks: seq<Chunk>)
    decreases |chunks|
  {
    chunks == [] || exists k: nat, n: nat :: k < |chunks| && Block(chunks[k..], n) && InBlocks(chunks[..k])
  }

  lemma {:induction false} BlocksConcat(a: seq<Chunk>, b: seq<Chunk>)
    requires InBlocks(a) && InBlocks(b)
    ensures InBlocks(a + b)
    decreases |b|
  {
    hide Block;
    if b == [] {
      assert a + b == a;
    } else {
      var k: nat, n: nat :| k < |b| && Block(b[k..], n) && InBlocks(b[..k]);
      BlocksConcat(a, b[..k]);
      var all := a + b;
      assert all[|a| + k..] == b[k..] && all[..|a| + k] == a + b[..k];
    }
  }

  lemma OneBlock(b: seq<Chunk>, n: nat)
    requires Block(b, n)
    ensures InBlocks(b)
  {
    assert b[0..] == b && b[..0] == [];
    assert InBlocks(b[..0]);
  }

  lemma EmissionIsBlock(style: Style, s: Settings, time: Time, line: nat, content: string, ops: seq<FileOp>)
    ensures Block(Emission(style, s, time, line, content, ops), |CodexParts(content)|)
    ensures InBlocks(Emission(style, s, time, line, content, ops))
  {
    hide CodexParts;
    var turns := MakeChunks(style, s, time, line, content);
    hide MakeChunks;
    var files := FileChunks(style, s, time, line, ops, turns[0].id);
    hide FileChunks;
    var b := Emission(style, s, time, line, content, ops);
    assert b[|turns|..] == files;
    OneBlock(b, |turns|);
  }

  lemma NothingIsInBlocks()
    ensures InBlocks([])
  {
  }

  lemma StandaloneIsInBlocks(style: Style, s: Settings, heading: string, text: string, ops: seq<FileOp>, time: Time,
                             line: nat)
    ensures InBlocks(Standalone(style, s, heading, text, ops, time, line))
  {
    hide InBlocks, Emission, Trim;
    NothingIsInBlocks();
    EmissionIsBlock(style, s, time, line, Headed(style, s, heading, text), ops);
  }

  lemma ImmediateIsInBlocks(style: Style, s: Settings, item: Item, inTurn: bool)
    ensures InBlocks(Immediate(style, s, item, inTurn))
  {
    hide InBlocks, Standalone;
    NothingIsInBlocks();
    StandaloneIsInBlocks(style, s, item.heading, item.text, [], item.time, item.line);
    StandaloneIsInBlocks(style, s, RESPONDED, item.text, item.ops, item.time, item.line);
  }

  lemma {:induction false} ImmediatesAreInBlocks(style: Style, start: Settings, items: seq<Item>, lo: nat, hi: nat,
                                                 inTurn: bool)
    requires lo <= hi <= |items|
    ensures InBlocks(Immediates(style, start, items, lo, hi, inTurn))
    decreases hi
  {
    hide InBlocks, Immediate, SettingsAt;
    if lo == hi {
      NothingIsInBlocks();
    } else {
      var s := SettingsAt(start, items, hi);
      ImmediatesAreInBlocks(style, start, items, lo, hi - 1, inTurn);
      ImmediateIsInBlocks(style, s, items[hi - 1], inTurn);
      BlocksConcat(Immediates(style, start, items, lo, hi - 1, inTurn), Immediate(style, s, items[hi - 1], inTurn));
    }
  }

  /** The text of a finished turn. */
  function GroupText(style: Style, start: Settings, items: seq<Item>, p: nat, hi: nat): string
    requires p < hi <= |items|
  {
    Headed(style, SettingsAt(start, items, hi), ASKED,
           items[p].text + "\n\nAssistant responded:\n" + Trim(Join(Fragments(items, p + 1, hi))))
  }

  // ---- What a turn says -----------------------------------------------------------------------

  /** A record that adds text to the turn it falls in. */
  predicate Speaks(item: Item) {
    item.role.Reply? && item.text != ""
  }

  /** Where the text of record j begins among the replies from record lo on: after every earlier reply and
      one line end each. */
  function TextOffset(items: seq<Item>, lo: nat, j: nat): nat
    requires lo <= j <= |items|
  {
    if j == lo then 0
    else TextOffset(items, lo, j - 1) + if Speaks(items[j - 1]) then |items[j - 1].text| + 1 else 0
  }

  lemma {:induction false} FragmentOffsets(items: seq<Item>, lo: nat, j: nat)
    requires lo <= j <= |items|
    ensures PartOffset(Fragments(items, lo, j), |Fragments(items, lo, j)|) == TextOffset(items, lo, j)
    decreases j
  {
    if lo < j {
      FragmentOffsets(items, lo, j - 1);
      var before, all := Fragments(items, lo, j - 1), Fragments(items, lo, j);
      assert all[..|before|] == before;
      SameOffsets(all, |before|, |before|);
    }
  }

  lemma {:induction false} FragmentsGrow(items: seq<Item>, lo: nat, j: nat, hi: nat)
    requires lo <= j <= hi <= |items|
    ensures Fragments(items, lo, j) <= Fragments(items, lo, hi)
    decreases hi
  {
    if j < hi {
      FragmentsGrow(items, lo, j, hi - 1);
    }
  }

  /** In the joined replies each reply stands at its offset. */
  lemma ReplyStands(items: seq<Item>, lo: nat, j: nat, hi: nat)
    requires lo <= j < hi <= |items| && Speaks(items[j])
    ensures StandsAt(Join(Fragments(items, lo, hi)), TextOffset(items, lo, j), items[j].text)
  {
    hide Join, StandsAt, PartOffset;
    var all, before := Fragments(items, lo, hi), Fragments(items, lo, j);
    assert Fragments(items, lo, j + 1) == before + [items[j].text];
    hide Fragments;
    FragmentsGrow(items, lo, j + 1, hi);
    FragmentOffsets(items, lo, j);
    assert all[..|before|] == before && all[|before|] == items[j].text;
    SameOffsets(all, |before|, |before|);
    JoinIsInOrder(all, |before|);
  }

  lemma {:induction false} OffsetsGrow(items: seq<Item>, lo: nat, j: nat, k: nat)
    requires lo <= j < k <= |items| && Speaks(items[j])
    ensures TextOffset(items, lo, j) + |items[j].text| < TextOffset(items, lo, k)
    decreases k
  {
    if j < k - 1 {
      OffsetsGrow(items, lo, j, k - 1);
    }
  }

  /** The turn text is the opening's own text after its label, and then, after theirs, the texts of all
      replies of the slice, whole, in record order and one line end apart - up to white space at the two
      ends, which is taken off. */
  lemma TurnSaysEverythingInOrder(style: Style, start: Settings, items: seq<Item>, p: nat, hi: nat)
    returns (before: string, answered: string, after: string)
    requires p < hi <= |items|
    ensures GroupText(style, start, items, p, hi)
         == "In project " + style.projectName(ProjectPath(SettingsAt(start, items, hi))) + ", user asked:\n"
            + items[p].text + "\n\nAssistant responded:\n" + answered
    ensures Blank(before) && Blank(after)
    ensures forall j :: p < j < hi && Speaks(items[j]) ==>
              StandsAt(before + answered + after, TextOffset(items, p + 1, j), items[j].text)
    ensures forall j, k :: p < j < k < hi && Speaks(items[j]) && Speaks(items[k]) ==>
              TextOffset(items, p + 1, j) + |items[j].text| < TextOffset(items, p + 1, k)
    ensures |before + answered + after| + 1 == TextOffset(items, p + 1, hi) || before + answered + after == ""
  {
    hide Join, StandsAt, Fragments, TextOffset, Blank;
    var said := Join(Fragments(items, p + 1, hi));
    before, after := TrimIsMiddle(said);
    answered := Trim(said);
    GroupTextIs(style, start, items, p, hi);
    forall j | p < j < hi && Speaks(items[j]) ensures StandsAt(said, TextOffset(items, p + 1, j), items[j].text) {
      ReplyStands(items, p + 1, j, hi);
    }
    forall j, k | p < j < k < hi && Speaks(items[j]) && Speaks(items[k])
      ensures TextOffset(items, p + 1, j) + |items[j].text| < TextOffset(items, p + 1, k)
    {
      OffsetsGrow(items, p + 1, j, k);
    }
    SaidLength(items, p + 1, hi);
  }

  lemma SaidLength(items: seq<Item>, lo: nat, hi: nat)
    requires lo <= hi <= |items|
    ensures var said := Join(Fragments(items, lo, hi)); |said| + 1 == TextOffset(items, lo, hi) || said == ""
  {
    hide PartOffset;
    FragmentOffsets(items, lo, hi);
    if Fragments(items, lo, hi) != [] {
      JoinLength(Fragments(items, lo, hi));
    }
  }

  lemma GroupTextIs(style: Style, start: Settings, items: seq<Item>, p: nat, hi: nat)
    requires p < hi <= |items|
    ensures GroupText(style, start, items, p, hi)
         == "In project " + style.projectName(ProjectPath(SettingsAt(start, items, hi))) + ", user asked:\n"
            + items[p].text + "\n\nAssistant responded:\n" + Trim(Join(Fragments(items, p + 1, hi)))
  {
    hide Trim, Join, Fragments, SettingsAt;
    var name := style.projectName(ProjectPath(SettingsAt(start, items, hi)));
    var said := Trim(Join(Fragments(items, p + 1, hi)));
    assert "In project " + name + ASKED + (items[p].text + "\n\nAssistant responded:\n" + said)
        == "In project " + name + ", user asked:\n" + items[p].text + "\n\nAssistant responded:\n" + said;
  }

  /** A group's chunks carry its opening's time and line, and the settings in force where its slice ends. */
  lemma GroupFields(style: Style, start: Settings, items: seq<Item>, p: nat, hi: nat, c: Chunk)
    requires p < hi <= |items| && c in GroupOf(style, start, items, p, hi)
    ensures c.timestamp == items[p].time && c.sourceLine == items[p].line
    ensures c.sessionID == SettingsAt(start, items, hi).session
    ensures c.projectPath == ProjectPath(SettingsAt(start, items, hi))
    ensures c.chunkType == Turn ==> c.model == SettingsAt(start, items, hi).model
  {
    hide Headed, Trim, Join, CodexParts, SettingsAt, Fragments, OpsIn;
  }

  /** The last record before hi that names a value decides it; without one it is what it was at the start. */
  lemma {:induction false} SettingsAreLastNamed(start: Settings, items: seq<Item>, hi: nat, i: nat)
    requires hi <= |items| && i <= hi
    ensures var s := SettingsAt(start, items, hi);
            && (i < hi && items[i].update.session != "" && (forall k :: i < k < hi ==> items[k].update.session == "") ==>
                  s.session == items[i].update.session)
            && (i < hi && items[i].update.sessionCWD != ""
                && (forall k :: i < k < hi ==> items[k].update.sessionCWD == "") ==>
                  s.sessionCWD == items[i].update.sessionCWD)
            && (i < hi && items[i].update.lastCWD != "" && (forall k :: i < k < hi ==> items[k].update.lastCWD == "") ==>
                  s.lastCWD == items[i].update.lastCWD)
            && (i < hi && items[i].update.model != "" && (forall k :: i < k < hi ==> items[k].update.model == "") ==>
                  s.model == items[i].update.model)
    ensures (forall k :: 0 <= k < hi ==> items[k].update == KEEP) ==> SettingsAt(start, items, hi) == start
    decreases hi
  {
    if hi > 0 {
      SettingsAreLastNamed(start, items, hi - 1, if i < hi then i else 0);
    }
  }

  /** The project is the working directory of the turn, else of the session, else unknown. */
  lemma ProjectIsWorkingDirectory(s: Settings)
    ensures s.lastCWD != "" ==> ProjectPath(s) == s.lastCWD
    ensures s.lastCWD == "" && s.sessionCWD != "" ==> ProjectPath(s) == s.sessionCWD
    ensures s.lastCWD == "" && s.sessionCWD == "" ==> ProjectPath(s) == "/unknown"
  {
  }

  /** Text on its own: its label says who spoke, and the text stands whole after it. */
  lemma StandaloneSays(style: Style, s: Settings, heading: string, text: string, ops: seq<FileOp>, time: Time, line: nat)
    requires Trim(text) != ""
    ensures var content := "In project " + style.projectName(ProjectPath(s)) + heading + text;
            && Standalone(style, s, heading, text, ops, time, line) == Emission(style, s, time, line, content, ops)
            && |content| > 0
    ensures SAID == ", user said:\n" && RESPONDED == ", assistant responded:\n" && ASKED == ", user asked:\n"
  {
    hide Emission, Trim;
  }

  /** A file chunk names project, file and kind, and ends with the summary. */
  lemma FileChunkSays(style: Style, s: Settings, time: Time, line: nat, op: FileOp, i: nat, parent: string)
    ensures FileChunk(style, s, time, line, op, i, parent).content
         == "In project " + style.projectName(ProjectPath(s)) + ", file " + op.path + " was " + op.kind + ".\nSummary: "
            + op.summary
    ensures FileChunk(style, s, time, line, op, i, parent).sourceLine == line
    ensures var c := FileChunk(style, s, time, line, op, i, parent);
            c.id == style.hash(c.content + c.sessionID + style.stamp(time) + op.path + style.number(i))
  {
  }

  /** Parts after the first name one common parent, which is no part's own text; the first names none. */
  lemma PartsNameOneParent(style: Style, s: Settings, time: Time, line: nat, content: string, i: nat)
    requires i < |CodexParts(content)|
    ensures var chunks := MakeChunks(style, s, time, line, content);
            var whole := style.hash(content + s.session + style.stamp(time));
            && chunks[0].parentChunkID == ""
            && (i > 0 ==> chunks[i].parentChunkID == whole)
            && (|chunks| == 1 ==> chunks[0].id == whole && chunks[0].content == content)
  {
    hide Cut;
    if |content| > MAX_CONTENT {
      CodexIsClaudeAndSuffixes(content);
    }
  }

  /** A group is one block: its head is its own first chunk. */
  lemma GroupIsBlock(style: Style, start: Settings, items: seq<Item>, p: nat, hi: nat)
    requires p < hi <= |items|
    ensures Block(GroupOf(style, start, items, p, hi), |CodexParts(GroupText(style, start, items, p, hi))|)
    ensures InBlocks(GroupOf(style, start, items, p, hi))
  {
    hide Block, InBlocks, Emission, Trim, Join, CodexParts;
    EmissionIsBlock(style, SettingsAt(start, items, hi), items[p].time, items[p].line,
                    GroupText(style, start, items, p, hi), OpsIn(items, p + 1, hi));
  }

  /** The whole output falls into blocks: every file chunk names the first chunk of its own block as its
      parent, and that chunk lists exactly the block's file chunks. */
  lemma {:induction false} AssembledIsInBlocks(style: Style, start: Settings, items: seq<Item>, hi: nat)
    requires hi <= |items|
    ensures InBlocks(Assembled(style, start, items, hi))
    decreases hi
  {
    hide InBlocks, Immediates, GroupOf, Block;
    var last := LastOpening(items, hi);
    if last.None? {
      ImmediatesAreInBlocks(style, start, items, 0, hi, false);
    } else {
      var p := last.value;
      hide LastOpening;
      var before := Assembled(style, start, items, p);
      var asides := Immediates(style, start, items, p + 1, hi, true);
      AssembledIsInBlocks(style, start, items, p);
      ImmediatesAreInBlocks(style, start, items, p + 1, hi, true);
      GroupIsBlock(style, start, items, p, hi);
      BlocksConcat(before, asides);
      BlocksConcat(before + asides, GroupOf(style, start, items, p, hi));
    }
  }
}
