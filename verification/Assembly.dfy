/** Turn assembly, shared by the Codex and Gemini sources (internal/history/source/codex/codex.go:90-210,
    internal/history/source/gemini/gemini.go:119-201).

    Both read their records once, keep a pending user message with the text and file operations that
    follow it, and emit the turn when the next user message or the end arrives.  The specification here
    has no pending state: it says which slice of the records belongs to which opening message. */
module Assembly {
  import opened Options
  import opened Chunk
  import opened Text
  import opened Splitter

  /** Hashing and formatting the chunker depends on but does not decide. */
  datatype Style = Style(
    hash: string -> string,          // chunkID of the joined content, session and key
    stamp: Time -> string,           // timestampKey
    number: nat -> string,           // decimal digits
    projectName: string -> string,
    sourceFile: string,
    machineID: string)

  datatype FileOp = FileOp(path: string, kind: string, summary: string)

  /** Values carried from record to record; a record overrides the non-empty ones it names. */
  datatype Settings = Settings(session: string, sessionCWD: string, lastCWD: string, model: string)

  function Override(current: string, update: string): string {
    if update == "" then current else update
  }

  function Merge(s: Settings, update: Settings): Settings {
    Settings(Override(s.session, update.session), Override(s.sessionCWD, update.sessionCWD),
             Override(s.lastCWD, update.lastCWD), Override(s.model, update.model))
  }

  const KEEP := Settings("", "", "", "")

  function ProjectPath(s: Settings): string {
    if s.lastCWD != "" then s.lastCWD else if s.sessionCWD != "" then s.sessionCWD else "/unknown"
  }

  datatype Role =
    | Opening   // a user message that opens a turn
    | Reply     // assistant or tool text, with the file operations found in it
    | Aside     // text emitted on its own, whatever is pending
    | Silent

  datatype Item = Item(role: Role, heading: string, text: string, ops: seq<FileOp>, time: Time, line: nat,
                       update: Settings)

  // ---- Chunks of one emission -----------------------------------------------------------------

  function TurnChunk(style: Style, s: Settings, time: Time, line: nat, id: string, content: string, parent: string)
    : Chunk
  {
    Chunk(id, content, Turn, s.session, ProjectPath(s), style.projectName(ProjectPath(s)), time, "", "", "", "",
          s.model, style.sourceFile, line, parent, [], style.machineID)
  }

  /** One part of `makeChunks`. */
  function PartChunk(style: Style, s: Settings, time: Time, line: nat, content: string, parts: seq<string>, i: nat)
    : Chunk
    requires i < |parts|
  {
    var whole := style.hash(content + s.session + style.stamp(time));
    if |parts| == 1 then TurnChunk(style, s, time, line, whole, parts[i], "")
    else
      var text := "[Part " + style.number(i + 1) + "/" + style.number(|parts|) + "] " + parts[i];
      var id := style.hash(text + s.session + style.stamp(time) + "_part" + style.number(i + 1));
      TurnChunk(style, s, time, line, id, text, if i > 0 then whole else "")
  }

  /** `makeChunks`. */
  function MakeChunks(style: Style, s: Settings, time: Time, line: nat, content: string): (chunks: seq<Chunk>)
    ensures |chunks| == |CodexParts(content)| > 0
    ensures forall i :: 0 <= i < |chunks| ==> chunks[i].chunkType == Turn && chunks[i].timestamp == time
    ensures forall i :: 0 <= i < |chunks| ==> chunks[i].childChunkIDs == [] && chunks[i].sessionID == s.session
  {
    var parts := CodexParts(content);
    seq(|parts|, i requires 0 <= i < |parts| => PartChunk(style, s, time, line, content, parts, i))
  }

  /** How part i of a turn reads: alone as it is, one of several after its number. */
  predicate IsPart(style: Style, text: string, parts: seq<string>, i: nat)
    requires i < |parts|
  {
    && EndsWith(text, parts[i])
    && var label0 := "[Part " + style.number(i + 1) + "/" + style.number(|parts|) + "] ";
       if |parts| == 1 then |text| == |parts[i]| else label0 <= text && |text| == |label0| + |parts[i]|
  }

  lemma PartReads(style: Style, parts: seq<string>, i: nat)
    requires i < |parts|
    ensures |parts| == 1 ==> IsPart(style, parts[i], parts, i)
    ensures |parts| != 1 ==>
              IsPart(style, "[Part " + style.number(i + 1) + "/" + style.number(|parts|) + "] " + parts[i], parts, i)
  {
    AppendEndsWith("", parts[i]);
    AppendEndsWith("[Part " + style.number(i + 1) + "/" + style.number(|parts|) + "] ", parts[i]);
  }

  /** The chunks of a turn end with the splitter's parts of its text, in order, and carry the settings. */
  lemma TurnKeepsParts(style: Style, s: Settings, time: Time, line: nat, content: string)
    ensures var chunks, parts := MakeChunks(style, s, time, line, content), CodexParts(content);
            forall i :: 0 <= i < |chunks| ==>
              && IsPart(style, chunks[i].content, parts, i)
              && chunks[i].sessionID == s.session && chunks[i].projectPath == ProjectPath(s)
              && chunks[i].model == s.model && chunks[i].sourceLine == line
  {
    hide CodexParts, IsPart;
    var parts := CodexParts(content);
    forall i | 0 <= i < |parts|
      ensures IsPart(style, PartChunk(style, s, time, line, content, parts, i).content, parts, i)
    {
      PartReads(style, parts, i);
    }
  }

  function FileChunk(style: Style, s: Settings, time: Time, line: nat, op: FileOp, i: nat, parent: string): Chunk {
    var name := style.projectName(ProjectPath(s));
    var content := "In project " + name + ", file " + op.path + " was " + op.kind + ".\nSummary: " + op.summary;
    var id := style.hash(content + s.session + style.stamp(time) + op.path + style.number(i));
    Chunk(id, content, FileChange, s.session, ProjectPath(s), name, time, "", "", op.path, op.kind, "",
          style.sourceFile, line, parent, [], style.machineID)
  }

  /** `fileChunks`: one chunk per operation, in order. */
  function FileChunks(style: Style, s: Settings, time: Time, line: nat, ops: seq<FileOp>, parent: string)
    : (chunks: seq<Chunk>)
    ensures |chunks| == |ops|
    ensures forall i :: 0 <= i < |ops| ==>
              && chunks[i].chunkType == FileChange && chunks[i].timestamp == time && chunks[i].parentChunkID == parent
              && chunks[i].filePath == ops[i].path && chunks[i].operation == ops[i].kind
              && chunks[i].childChunkIDs == []
  {
    seq(|ops|, i requires 0 <= i < |ops| => FileChunk(style, s, time, line, ops[i], i, parent))
  }

  function Ids(chunks: seq<Chunk>): (ids: seq<string>)
    ensures |ids| == |chunks| && forall i :: 0 <= i < |ids| ==> ids[i] == chunks[i].id
  {
    seq(|chunks|, i requires 0 <= i < |chunks| => chunks[i].id)
  }

  /** Turn chunks, the first one linked to the file chunks that follow. */
  function Emission(style: Style, s: Settings, time: Time, line: nat, content: string, ops: seq<FileOp>)
    : (chunks: seq<Chunk>)
  {
    var turns := MakeChunks(style, s, time, line, content);
    var files := FileChunks(style, s, time, line, ops, turns[0].id);
    turns[0 := turns[0].(childChunkIDs := Ids(files))] + files
  }

  function Headed(style: Style, s: Settings, heading: string, text: string): string {
    "In project " + style.projectName(ProjectPath(s)) + heading + text
  }

  const ASKED := ", user asked:\n"
  const SAID := ", user said:\n"
  const RESPONDED := ", assistant responded:\n"

  /** Assistant or user text on its own; blank text is not stored. */
  function Standalone(style: Style, s: Settings, heading: string, text: string, ops: seq<FileOp>, time: Time, line: nat)
    : seq<Chunk>
  {
    if Trim(text) == "" then [] else Emission(style, s, time, line, Headed(style, s, heading, text), ops)
  }

  function Join(parts: seq<string>): string {
    if parts == [] then ""
    else if |parts| == 1 then parts[0]
    else Join(parts[..|parts| - 1]) + "\n" + parts[|parts| - 1]
  }

  /** Where part k begins in the joined text. */
  function PartOffset(parts: seq<string>, k: nat): nat
    requires k <= |parts|
  {
    if k == 0 then 0 else PartOffset(parts, k - 1) + |parts[k - 1]| + 1
  }

  /** Joined text is as long as its parts and the line ends between them. */
  lemma {:induction false} JoinLength(parts: seq<string>)
    requires parts != []
    ensures |Join(parts)| + 1 == PartOffset(parts, |parts|)
    decreases |parts|
  {
    hide Join, PartOffset;
    if |parts| == 1 {
      OnlyPart(parts);
    } else {
      var n := |parts| - 1;
      JoinLength(parts[..n]);
      SameOffsets(parts, n, n);
      JoinLast(parts);
    }
  }

  /** Each part stands in the joined text at its offset, so the parts are in order and apart. */
  lemma {:induction false} JoinIsInOrder(parts: seq<string>, k: nat)
    requires k < |parts|
    ensures StandsAt(Join(parts), PartOffset(parts, k), parts[k])
    decreases |parts|
  {
    hide Join, PartOffset, StandsAt;
    var n := |parts| - 1;
    if n == 0 {
      OnlyPart(parts);
    } else {
      JoinLast(parts);
      SameOffsets(parts, n, k);
      if k < n {
        JoinIsInOrder(parts[..n], k);
        LaterStands(Join(parts[..n]), parts[n], PartOffset(parts, k), parts[k]);
      } else {
        JoinLength(parts[..n]);
        LastStands(Join(parts[..n]), parts[n]);
      }
    }
  }

  lemma LaterStands(front: string, last: string, position: int, part: string)
    requires StandsAt(front, position, part)
    ensures StandsAt(front + "\n" + last, position, part)
  {
    StandsLonger(front, "\n" + last, position, part);
    assert front + ("\n" + last) == front + "\n" + last;
  }

  lemma LastStands(front: string, last: string)
    ensures StandsAt(front + "\n" + last, |front| + 1, last)
  {
    StandsInConcat(front + "\n", last, "");
    assert front + "\n" + last + "" == front + "\n" + last;
  }

  /** Between two parts there is one line end. */
  lemma {:induction false} JoinHasLineEnds(parts: seq<string>, k: nat)
    requires k + 1 < |parts|
    ensures StandsAt(Join(parts), PartOffset(parts, k + 1) - 1, "\n")
    decreases |parts|
  {
    hide Join, PartOffset, StandsAt;
    var n := |parts| - 1;
    JoinLast(parts);
    SameOffsets(parts, n, k + 1);
    if k + 1 < n {
      JoinHasLineEnds(parts[..n], k);
      LaterStands(Join(parts[..n]), parts[n], PartOffset(parts, k + 1) - 1, "\n");
    } else {
      JoinLength(parts[..n]);
      StandsInConcat(Join(parts[..n]), "\n", parts[n]);
    }
  }

  lemma OnlyPart(parts: seq<string>)
    requires |parts| == 1
    ensures Join(parts) == parts[0] && StandsAt(Join(parts), PartOffset(parts, 0), parts[0])
    ensures |Join(parts)| + 1 == PartOffset(parts, 1)
  {
  }

  lemma JoinLast(parts: seq<string>)
    requires |parts| > 1
    ensures var n := |parts| - 1;
            && Join(parts) == Join(parts[..n]) + "\n" + parts[n]
            && PartOffset(parts, |parts|) == PartOffset(parts, n) + |parts[n]| + 1
  {
  }

  lemma StandsLonger(text: string, more: string, position: int, part: string)
    requires StandsAt(text, position, part)
    ensures StandsAt(text + more, position, part)
  {
    assert (text + more)[position..position + |part|] == text[position..position + |part|];
  }

  lemma {:induction false} SameOffsets(parts: seq<string>, n: nat, k: nat)
    requires k <= |parts| && n <= |parts|
    ensures k <= n ==> PartOffset(parts[..n], k) == PartOffset(parts, k)
  {
    if 0 < k <= n {
      SameOffsets(parts, n, k - 1);
    }
  }

  /** One finished turn: the user text, everything answered, and the file operations. */
  function Group(style: Style, s: Settings, opening: Item, fragments: seq<string>, ops: seq<FileOp>): seq<Chunk> {
    Emission(style, s, opening.time, opening.line,
             Headed(style, s, ASKED, opening.text + "\n\nAssistant responded:\n" + Trim(Join(fragments))), ops)
  }

  // ---- The specification: slices between openings ---------------------------------------------

  function SettingsAt(start: Settings, items: seq<Item>, hi: nat): Settings
    requires hi <= |items|
  {
    if hi == 0 then start else Merge(SettingsAt(start, items, hi - 1), items[hi - 1].update)
  }

  /** The last opening before `hi`. */
  function LastOpening(items: seq<Item>, hi: nat): (r: Option<nat>)
    requires hi <= |items|
    ensures r.Some? ==> r.value < hi && items[r.value].role.Opening?
    ensures forall i :: (if r.Some? then r.value + 1 else 0) <= i < hi ==> !items[i].role.Opening?
  {
    if hi == 0 then None
    else if items[hi - 1].role.Opening? then Some(hi - 1)
    else LastOpening(items, hi - 1)
  }

  /** The reply texts of items[lo..hi], in order. */
  function Fragments(items: seq<Item>, lo: nat, hi: nat): seq<string>
    requires lo <= hi <= |items|
    decreases hi
  {
    if lo == hi then []
    else
      var last := items[hi - 1];
      Fragments(items, lo, hi - 1) + if last.role.Reply? && last.text != "" then [last.text] else []
  }

  /** The file operations of the replies in items[lo..hi], in order. */
  function OpsIn(items: seq<Item>, lo: nat, hi: nat): seq<FileOp>
    requires lo <= hi <= |items|
    decreases hi
  {
    if lo == hi then []
    else
      var last := items[hi - 1];
      OpsIn(items, lo, hi - 1) + if last.role.Reply? then last.ops else []
  }

  /** What one item emits at once: asides always, replies only outside a turn. */
  function Immediate(style: Style, s: Settings, item: Item, inTurn: bool): seq<Chunk> {
    match item.role
    case Aside => Standalone(style, s, item.heading, item.text, [], item.time, item.line)
    case Reply => if inTurn then [] else Standalone(style, s, RESPONDED, item.text, item.ops, item.time, item.line)
    case _ => []
  }

  function Immediates(style: Style, start: Settings, items: seq<Item>, lo: nat, hi: nat, inTurn: bool): seq<Chunk>
    requires lo <= hi <= |items|
    decreases hi
  {
    if lo == hi then []
    else Immediates(style, start, items, lo, hi - 1, inTurn)
         + Immediate(style, SettingsAt(start, items, hi), items[hi - 1], inTurn)
  }

  function GroupOf(style: Style, start: Settings, items: seq<Item>, opening: nat, hi: nat): seq<Chunk>
    requires opening < hi <= |items|
  {
    Group(style, SettingsAt(start, items, hi), items[opening], Fragments(items, opening + 1, hi),
          OpsIn(items, opening + 1, hi))
  }

  /** All chunks of items[..hi]: before the first opening each item on its own; then, per opening, what
      its slice emitted at once followed by its one group. */
  function Assembled(style: Style, start: Settings, items: seq<Item>, hi: nat): seq<Chunk>
    requires hi <= |items|
    decreases hi
  {
    var last := LastOpening(items, hi);
    if last.None? then Immediates(style, start, items, 0, hi, false)
    else
      var p := last.value;
      Assembled(style, start, items, p) + Immediates(style, start, items, p + 1, hi, true)
      + GroupOf(style, start, items, p, hi)
  }

  // ---- Properties of the specification --------------------------------------------------------

  /** The (path, kind) of every file_change chunk, in order. */
  function FileChanges(chunks: seq<Chunk>): seq<(string, string)> {
    if chunks == [] then []
    else
      var last := chunks[|chunks| - 1];
      FileChanges(chunks[..|chunks| - 1])
      + if last.chunkType == FileChange then [(last.filePath, last.operation)] else []
  }

  function Named(ops: seq<FileOp>): (r: seq<(string, string)>)
    ensures |r| == |ops|
    ensures forall i :: 0 <= i < |ops| ==> r[i] == (ops[i].path, ops[i].kind)
  {
    seq(|ops|, i requires 0 <= i < |ops| => (ops[i].path, ops[i].kind))
  }

  lemma {:induction false} FileChangesConcat(a: seq<Chunk>, b: seq<Chunk>)
    ensures FileChanges(a + b) == FileChanges(a) + FileChanges(b)
    decreases |b|
  {
    if b == [] {
      assert a + b == a;
    } else {
      var n := |b| - 1;
      assert (a + b)[..|a + b| - 1] == a + b[..n];
      FileChangesConcat(a, b[..n]);
    }
  }

  lemma {:induction false} NoFileChanges(chunks: seq<Chunk>)
    requires forall i :: 0 <= i < |chunks| ==> chunks[i].chunkType == Turn
    ensures FileChanges(chunks) == []
    decreases |chunks|
  {
    if chunks != [] {
      NoFileChanges(chunks[..|chunks| - 1]);
    }
  }

  lemma {:induction false} AllFileChanges(chunks: seq<Chunk>, ops: seq<FileOp>)
    requires |chunks| == |ops|
    requires forall i :: 0 <= i < |ops| ==>
               chunks[i].chunkType == FileChange && chunks[i].filePath == ops[i].path && chunks[i].operation == ops[i].kind
    ensures FileChanges(chunks) == Named(ops)
    decreases |chunks|
  {
    if chunks != [] {
      var n := |chunks| - 1;
      AllFileChanges(chunks[..n], ops[..n]);
      assert Named(ops) == Named(ops[..n]) + [(ops[n].path, ops[n].kind)];
    }
  }

  lemma EmissionFileChanges(style: Style, s: Settings, time: Time, line: nat, content: string, ops: seq<FileOp>)
    ensures FileChanges(Emission(style, s, time, line, content, ops)) == Named(ops)
  {
    var turns := MakeChunks(style, s, time, line, content);
    var files := FileChunks(style, s, time, line, ops, turns[0].id);
    var linked := turns[0 := turns[0].(childChunkIDs := Ids(files))];
    FileChangesConcat(linked, files);
    NoFileChanges(linked);
    AllFileChanges(files, ops);
  }

  lemma NamedConcat(a: seq<FileOp>, b: seq<FileOp>)
    ensures Named(a + b) == Named(a) + Named(b)
  {
  }

  /** A reply with file operations also has text, as both sources guarantee. */
  predicate OpsHaveText(items: seq<Item>) {
    forall i :: 0 <= i < |items| && items[i].role.Reply? && items[i].ops != [] ==> Trim(items[i].text) != ""
  }

  function ReplyOps(item: Item): seq<FileOp> {
    if item.role.Reply? then item.ops else []
  }

  lemma ItemFileChanges(style: Style, s: Settings, item: Item, inTurn: bool)
    requires item.role.Reply? && item.ops != [] ==> Trim(item.text) != ""
    ensures FileChanges(Immediate(style, s, item, inTurn)) == if inTurn then [] else Named(ReplyOps(item))
  {
    hide Emission, Headed, Trim, FileChanges;
    NoFileChanges([]);
    EmissionFileChanges(style, s, item.time, item.line, Headed(style, s, item.heading, item.text), []);
    EmissionFileChanges(style, s, item.time, item.line, Headed(style, s, RESPONDED, item.text), item.ops);
    assert Named([]) == [];
  }

  lemma {:induction false} ImmediateFileChanges(style: Style, start: Settings, items: seq<Item>, lo: nat, hi: nat,
                                                inTurn: bool)
    requires lo <= hi <= |items| && OpsHaveText(items)
    ensures FileChanges(Immediates(style, start, items, lo, hi, inTurn))
         == if inTurn then [] else Named(OpsIn(items, lo, hi))
    decreases hi
  {
    hide Immediate, SettingsAt, Trim, FileChanges, Named;
    if lo == hi {
      NoFileChanges([]);
    } else {
      var s, item := SettingsAt(start, items, hi), items[hi - 1];
      ImmediateFileChanges(style, start, items, lo, hi - 1, inTurn);
      ItemFileChanges(style, s, item, inTurn);
      FileChangesConcat(Immediates(style, start, items, lo, hi - 1, inTurn), Immediate(style, s, item, inTurn));
      NamedConcat(OpsIn(items, lo, hi - 1), ReplyOps(item));
    }
  }

  lemma {:induction false} OpsSplit(items: seq<Item>, lo: nat, mid: nat, hi: nat)
    requires lo <= mid <= hi <= |items|
    ensures OpsIn(items, lo, hi) == OpsIn(items, lo, mid) + OpsIn(items, mid, hi)
    decreases hi
  {
    if mid < hi {
      OpsSplit(items, lo, mid, hi - 1);
    }
  }

  /** Every file operation found in the records becomes exactly one file_change chunk, in record order. */
  lemma {:induction false} EveryOperationOnce(style: Style, start: Settings, items: seq<Item>, hi: nat)
    requires hi <= |items| && OpsHaveText(items)
    ensures FileChanges(Assembled(style, start, items, hi)) == Named(OpsIn(items, 0, hi))
    decreases hi
  {
    hide FileChanges, Immediates, GroupOf, OpsHaveText, Named, SettingsAt;
    var last := LastOpening(items, hi);
    if last.None? {
      ImmediateFileChanges(style, start, items, 0, hi, false);
    } else {
      var p := last.value;
      hide LastOpening;
      var before := Assembled(style, start, items, p);
      var asides := Immediates(style, start, items, p + 1, hi, true);
      var group := GroupOf(style, start, items, p, hi);
      EveryOperationOnce(style, start, items, p);
      ImmediateFileChanges(style, start, items, p + 1, hi, true);
      GroupFileChanges(style, start, items, p, hi);
      FileChangesConcat(before, asides);
      FileChangesConcat(before + asides, group);
      OpsSplit(items, 0, p, hi);
      OpsSplit(items, p, p + 1, hi);
      assert OpsIn(items, p, p + 1) == [];
      assert OpsIn(items, 0, hi) == OpsIn(items, 0, p) + OpsIn(items, p + 1, hi);
      NamedConcat(OpsIn(items, 0, p), OpsIn(items, p + 1, hi));
    }
  }

  lemma GroupFileChanges(style: Style, start: Settings, items: seq<Item>, p: nat, hi: nat)
    requires p < hi <= |items|
    ensures FileChanges(GroupOf(style, start, items, p, hi)) == Named(OpsIn(items, p + 1, hi))
  {
    var s := SettingsAt(start, items, hi);
    var content := Headed(style, s, ASKED,
                          items[p].text + "\n\nAssistant responded:\n" + Trim(Join(Fragments(items, p + 1, hi))));
    EmissionFileChanges(style, s, items[p].time, items[p].line, content, OpsIn(items, p + 1, hi));
  }

  /** The end of the slice that belongs to an opening: the next opening before hi, or hi. */
  function SliceEnd(items: seq<Item>, p: nat, hi: nat): (q: nat)
    requires p < hi <= |items|
    ensures p < q <= hi && (q < hi ==> items[q].role.Opening?)
    ensures forall i :: p < i < q ==> !items[i].role.Opening?
  {
    if p + 1 == hi || items[p + 1].role.Opening? then p + 1 else NextEnd(items, p + 2, hi)
  }

  function NextEnd(items: seq<Item>, i: nat, hi: nat): (q: nat)
    requires i <= hi <= |items|
    ensures i <= q <= hi && (q < hi ==> items[q].role.Opening?)
    ensures forall k :: i <= k < q ==> !items[k].role.Opening?
    decreases hi - i
  {
    if i == hi || items[i].role.Opening? then i else NextEnd(items, i + 1, hi)
  }

  /** Each opening yields its group: the output contains, in one piece, the chunks made from that opening
      and the reply texts and operations up to the next opening. */
  lemma {:induction false} EveryOpeningHasItsGroup(style: Style, start: Settings, items: seq<Item>, p: nat, hi: nat)
    returns (before: seq<Chunk>, after: seq<Chunk>)
    requires p < hi <= |items| && items[p].role.Opening?
    ensures Assembled(style, start, items, hi)
         == before + GroupOf(style, start, items, p, SliceEnd(items, p, hi)) + after
    decreases hi
  {
    hide GroupOf, Immediates, SliceEnd;
    var last := LastOpening(items, hi).value;
    var asides := Immediates(style, start, items, last + 1, hi, true);
    var end := SliceEnd(items, p, hi);
    if last == p {
      assert end == hi;
      before, after := Assembled(style, start, items, p) + asides, [];
    } else {
      SameSlice(items, p, last, hi);
      before, after := EveryOpeningHasItsGroup(style, start, items, p, last);
      after := after + asides + GroupOf(style, start, items, last, hi);
    }
  }

  lemma SameSlice(items: seq<Item>, p: nat, mid: nat, hi: nat)
    requires p < mid < hi <= |items| && items[mid].role.Opening?
    ensures SliceEnd(items, p, mid) == SliceEnd(items, p, hi)
  {
  }

  // ---- Times ----------------------------------------------------------------------------------

  /** Every chunk carries the time of some item that emits. */
  ghost predicate TimesFrom(chunks: seq<Chunk>, items: seq<Item>) {
    forall c :: c in chunks ==> exists i :: 0 <= i < |items| && !items[i].role.Silent? && items[i].time == c.timestamp
  }

  lemma EmissionTimes(style: Style, s: Settings, time: Time, line: nat, content: string, ops: seq<FileOp>)
    ensures forall c :: c in Emission(style, s, time, line, content, ops) ==> c.timestamp == time
  {
  }

  lemma ItemTimes(style: Style, s: Settings, item: Item, inTurn: bool)
    ensures forall c :: c in Immediate(style, s, item, inTurn) ==> c.timestamp == item.time && !item.role.Silent?
  {
    hide Emission, Headed, Trim;
    EmissionTimes(style, s, item.time, item.line, Headed(style, s, item.heading, item.text), []);
    EmissionTimes(style, s, item.time, item.line, Headed(style, s, RESPONDED, item.text), item.ops);
  }

  lemma GroupTimes(style: Style, start: Settings, items: seq<Item>, p: nat, hi: nat)
    requires p < hi <= |items|
    ensures forall c :: c in GroupOf(style, start, items, p, hi) ==> c.timestamp == items[p].time
  {
  }

  lemma {:induction false} ImmediateTimes(style: Style, start: Settings, items: seq<Item>, lo: nat, hi: nat,
                                          inTurn: bool)
    requires lo <= hi <= |items|
    ensures TimesFrom(Immediates(style, start, items, lo, hi, inTurn), items)
    decreases hi
  {
    hide Immediate, SettingsAt;
    if lo < hi {
      var s, item := SettingsAt(start, items, hi), items[hi - 1];
      ImmediateTimes(style, start, items, lo, hi - 1, inTurn);
      ItemTimes(style, s, item, inTurn);
    }
  }

  /** Every chunk of the output carries the time of one of the records that emit. */
  lemma {:induction false} AssembledTimes(style: Style, start: Settings, items: seq<Item>, hi: nat)
    requires hi <= |items|
    ensures TimesFrom(Assembled(style, start, items, hi), items)
    decreases hi
  {
    hide Immediates, GroupOf;
    var last := LastOpening(items, hi);
    if last.None? {
      ImmediateTimes(style, start, items, 0, hi, false);
    } else {
      var p := last.value;
      AssembledTimes(style, start, items, p);
      ImmediateTimes(style, start, items, p + 1, hi, true);
      GroupTimes(style, start, items, p, hi);
    }
  }

  // ---- Sessions -------------------------------------------------------------------------------

  /** The session carried at the start, or one that a record names. */
  predicate SessionFrom(start: Settings, items: seq<Item>, session: string) {
    session == start.session || exists i :: 0 <= i < |items| && items[i].update.session == session != ""
  }

  ghost predicate SessionsFrom(chunks: seq<Chunk>, start: Settings, items: seq<Item>) {
    forall c :: c in chunks ==> SessionFrom(start, items, c.sessionID)
  }

  lemma {:induction false} SettingsSession(start: Settings, items: seq<Item>, hi: nat)
    requires hi <= |items|
    ensures SessionFrom(start, items, SettingsAt(start, items, hi).session)
    decreases hi
  {
    if hi > 0 {
      SettingsSession(start, items, hi - 1);
    }
  }

  lemma EmissionSessions(style: Style, s: Settings, time: Time, line: nat, content: string, ops: seq<FileOp>)
    ensures forall c :: c in Emission(style, s, time, line, content, ops) ==> c.sessionID == s.session
  {
    hide CodexParts;
  }

  lemma ItemSessions(style: Style, s: Settings, item: Item, inTurn: bool)
    ensures forall c :: c in Immediate(style, s, item, inTurn) ==> c.sessionID == s.session
  {
    hide Emission, Headed, Trim;
    EmissionSessions(style, s, item.time, item.line, Headed(style, s, item.heading, item.text), []);
    EmissionSessions(style, s, item.time, item.line, Headed(style, s, RESPONDED, item.text), item.ops);
  }

  lemma GroupSessions(style: Style, start: Settings, items: seq<Item>, p: nat, hi: nat)
    requires p < hi <= |items|
    ensures SessionsFrom(GroupOf(style, start, items, p, hi), start, items)
  {
    hide Emission, Headed, Trim, Join, SessionFrom;
    var s := SettingsAt(start, items, hi);
    SettingsSession(start, items, hi);
    EmissionSessions(style, s, items[p].time, items[p].line,
                     Headed(style, s, ASKED,
                            items[p].text + "\n\nAssistant responded:\n" + Trim(Join(Fragments(items, p + 1, hi)))),
                     OpsIn(items, p + 1, hi));
  }

  lemma {:induction false} ImmediateSessions(style: Style, start: Settings, items: seq<Item>, lo: nat, hi: nat,
                                             inTurn: bool)
    requires lo <= hi <= |items|
    ensures SessionsFrom(Immediates(style, start, items, lo, hi, inTurn), start, items)
    decreases hi
  {
    hide Immediate, SettingsAt, SessionFrom;
    if lo < hi {
      ImmediateSessions(style, start, items, lo, hi - 1, inTurn);
      SettingsSession(start, items, hi);
      ItemSessions(style, SettingsAt(start, items, hi), items[hi - 1], inTurn);
    }
  }

  /** Every chunk of the output carries the starting session or one that a record names. */
  lemma {:induction false} AssembledSessions(style: Style, start: Settings, items: seq<Item>, hi: nat)
    requires hi <= |items|
    ensures SessionsFrom(Assembled(style, start, items, hi), start, items)
    decreases hi
  {
    hide Immediates, GroupOf, SessionFrom;
    var last := LastOpening(items, hi);
    if last.None? {
      ImmediateSessions(style, start, items, 0, hi, false);
    } else {
      var p := last.value;
      hide LastOpening;
      AssembledSessions(style, start, items, p);
      ImmediateSessions(style, start, items, p + 1, hi, true);
      GroupSessions(style, start, items, p, hi);
    }
  }

  // ---- The loop that both sources run ---------------------------------------------------------

  /** The state of the loop after `i` records, in terms of the specification. */
  ghost predicate Progress(style: Style, start: Settings, items: seq<Item>, i: nat, pending: Option<Item>,
                           fragments: seq<string>, ops: seq<FileOp>, settings: Settings, chunks: seq<Chunk>)
  {
    && i <= |items|
    && settings == SettingsAt(start, items, i)
    && var last := LastOpening(items, i);
       && (pending.None? <==> last.None?)
       && (last.None? ==> chunks == Immediates(style, start, items, 0, i, false) && fragments == [] && ops == [])
       && (last.Some? ==>
             && pending.value == items[last.value]
             && chunks == Assembled(style, start, items, last.value)
                          + Immediates(style, start, items, last.value + 1, i, true)
             && fragments == Fragments(items, last.value + 1, i)
             && ops == OpsIn(items, last.value + 1, i))
  }

  /** Finishing the pending turn completes the output of the records read so far. */
  lemma Finished(style: Style, start: Settings, items: seq<Item>, i: nat, pending: Option<Item>,
                 fragments: seq<string>, ops: seq<FileOp>, settings: Settings, chunks: seq<Chunk>)
    requires Progress(style, start, items, i, pending, fragments, ops, settings, chunks)
    ensures Assembled(style, start, items, i)
         == if pending.None? then chunks else chunks + Group(style, settings, pending.value, fragments, ops)
  {
  }

  /** Reading an item that does not open a turn. */
  lemma Advanced(style: Style, start: Settings, items: seq<Item>, i: nat, pending: Option<Item>,
                 fragments: seq<string>, ops: seq<FileOp>, settings: Settings, chunks: seq<Chunk>)
    requires Progress(style, start, items, i, pending, fragments, ops, settings, chunks) && i < |items|
    ensures !items[i].role.Opening? ==>
              var item := items[i];
              var settings' := Merge(settings, item.update);
              var chunks' := chunks + Immediate(style, settings', item, pending.Some?);
              var inTurn := pending.Some? && item.role.Reply?;
              Progress(style, start, items, i + 1, pending,
                       if inTurn && item.text != "" then fragments + [item.text] else fragments,
                       if inTurn then ops + item.ops else ops, settings', chunks')
  {
    hide Immediate, Merge, Assembled;
    var last := LastOpening(items, i);
    if last.Some? {
      var p := last.value;
      assert Immediates(style, start, items, p + 1, i + 1, true)
          == Immediates(style, start, items, p + 1, i, true)
             + Immediate(style, SettingsAt(start, items, i + 1), items[i], true);
    }
  }

  /** Reading an item that opens a turn, after finishing the one before. */
  lemma Opened(style: Style, start: Settings, items: seq<Item>, i: nat)
    requires i < |items| && items[i].role.Opening? && items[i].update == KEEP
    ensures Progress(style, start, items, i + 1, Some(items[i]), [], [], SettingsAt(start, items, i),
                     Assembled(style, start, items, i))
  {
    hide Assembled;
  }

  lemma Started(style: Style, start: Settings, items: seq<Item>)
    ensures Progress(style, start, items, 0, None, [], [], start, [])
  {
  }

  /** What both loops carry from record to record. */
  datatype Loop = Loop(pending: Option<Item>, fragments: seq<string>, ops: seq<FileOp>, settings: Settings,
                       chunks: seq<Chunk>)

  ghost predicate InStep(style: Style, start: Settings, items: seq<Item>, i: nat, s: Loop) {
    Progress(style, start, items, i, s.pending, s.fragments, s.ops, s.settings, s.chunks)
  }

  /** `finalize`, without the reset. */
  function Finalize(style: Style, s: Loop): seq<Chunk> {
    if s.pending.None? then s.chunks
    else s.chunks + Group(style, s.settings, s.pending.value, s.fragments, s.ops)
  }

  function Emit(style: Style, s: Loop, heading: string, text: string, ops: seq<FileOp>, time: Time, line: nat): Loop {
    s.(chunks := s.chunks + Standalone(style, s.settings, heading, text, ops, time, line))
  }

  lemma SettingsInStep(style: Style, start: Settings, items: seq<Item>, i: nat, s: Loop)
    requires i <= |items|
    ensures InStep(style, start, items, i, s) ==> s.settings == SettingsAt(start, items, i)
  {
  }

  lemma VisibleText(s: string, i: nat)
    requires i < |s| && !IsSpace(s[i])
    ensures Trim(s) != "" && Trim(Trim(s)) != ""
  {
    TrimEmpty(s);
    TrimBlankness(s);
    TrimEmpty(Trim(s));
  }
}
