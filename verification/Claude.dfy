/** The Claude source: transcript entries, the text and file operations of a message, and the loop of
    `claude.Chunks` (internal/history/source/claude/claude.go). */
module Claude {
  import opened Options
  import opened Chunk
  import opened Text
  import opened Splitter
  import opened Assembly
  import opened Pairing

  /** A content block; missing string fields are "". */
  datatype Block =
    | TextBlock(text: string)
    | ToolUse(name: string, id: string, path: string, command: string, before: Option<string>, after: Option<string>)
    | ToolResult(content: Option<string>)   // None: not a string
    | OtherBlock

  datatype Content = Plain(text: string) | Blocks(blocks: seq<Block>) | OtherContent

  datatype Message = Message(model: string, content: Content)

  datatype EntryKind = UserEntry | AssistantEntry | SummaryEntry | OtherEntry

  datatype Entry = Entry(kind: EntryKind, message: Option<Message>, summary: string, compact: bool, uuid: string,
                         time: Option<Time>, session: string, line: nat)

  function FirstNonEmpty(a: string, b: string): string {
    if a != "" then a else b
  }

  function Truncate(s: string, limit: nat): string {
    if |s| > limit then s[..limit] else s
  }

  function Ellipsis(s: string, limit: nat): string {
    if |s| > limit then "..." else ""
  }

  function OneLine(s: string): string {
    seq(|s|, i requires 0 <= i < |s| => if s[i] == '\n' || s[i] == '\r' then ' ' else s[i])
  }

  function ToolText(b: Block): (text: string)
    requires b.ToolUse?
    ensures text != "" && text[0] == '['
  {
    if b.name in {"Read", "Edit", "Write"} then "[Used " + b.name + " on " + FirstNonEmpty(b.path, "unknown") + "]"
    else if b.name == "Bash" then "[Ran command: " + OneLine(Truncate(b.command, 100)) + "]"
    else "[Used " + b.name + "]"
  }

  /** The lines one block adds to the text. */
  function BlockText(b: Block): seq<string> {
    match b
    case TextBlock(text) => [text]
    case ToolUse(_, _, _, _, _, _) => [ToolText(b)]
    case ToolResult(content) =>
      [if content.Some? && |content.value| < 500 then "[Result: " + content.value + "]" else "[Tool result truncated]"]
    case OtherBlock => []
  }

  function BlockTexts(blocks: seq<Block>): seq<string> {
    if blocks == [] then [] else BlockTexts(blocks[..|blocks| - 1]) + BlockText(blocks[|blocks| - 1])
  }

  /** `textContent`. */
  function TextContent(m: Option<Message>): string {
    if m.None? then ""
    else
      match m.value.content
      case Plain(text) => text
      case Blocks(blocks) => Join(BlockTexts(blocks))
      case OtherContent => ""
  }

  datatype Operation = Operation(op: FileOp, id: string)

  /** The operation one block stands for: a Write, or an Edit with both strings. */
  function BlockOperation(b: Block): seq<Operation> {
    if !b.ToolUse? then []
    else
      var path := FirstNonEmpty(b.path, "unknown");
      if b.name == "Write" then [Operation(FileOp(path, "write", "Created/overwrote file"), b.id)]
      else if b.name == "Edit" && b.before.Some? && b.after.Some? then
        var from, to := b.before.value, b.after.value;
        var summary := "Replaced '" + Truncate(from, 100) + Ellipsis(from, 100) + "' with '" + Truncate(to, 100)
                       + Ellipsis(to, 100) + "'";
        [Operation(FileOp(path, "edit", summary), b.id)]
      else []
  }

  function BlockOperations(blocks: seq<Block>): seq<Operation> {
    if blocks == [] then [] else BlockOperations(blocks[..|blocks| - 1]) + BlockOperation(blocks[|blocks| - 1])
  }

  /** `fileOperations`, with the nil message of `fileChunks`. */
  function Operations(m: Option<Message>): seq<Operation> {
    if m.Some? && m.value.content.Blocks? then BlockOperations(m.value.content.blocks) else []
  }

  method CollectText(blocks: seq<Block>) returns (parts: seq<string>)
    ensures parts == BlockTexts(blocks)
  {
    hide BlockText;
    parts := [];
    for i := 0 to |blocks|
      invariant parts == BlockTexts(blocks[..i])
    {
      assert blocks[..i + 1][..i] == blocks[..i];
      parts := parts + BlockText(blocks[i]);
    }
    assert blocks[..|blocks|] == blocks;
  }

  method CollectOperations(blocks: seq<Block>) returns (operations: seq<Operation>)
    ensures operations == BlockOperations(blocks)
  {
    hide BlockOperation;
    operations := [];
    for i := 0 to |blocks|
      invariant operations == BlockOperations(blocks[..i])
    {
      assert blocks[..i + 1][..i] == blocks[..i];
      operations := operations + BlockOperation(blocks[i]);
    }
    assert blocks[..|blocks|] == blocks;
  }

  // ---- Chunks of one entry --------------------------------------------------------------------

  /** `entryTimestamp`. */
  function EntryTime(first: Option<Time>, second: Option<Time>, line: nat): Time {
    if first.Some? then first.value else if second.Some? then second.value else LineTime(line)
  }

  function SessionOf(e: Entry): string {
    FirstNonEmpty(e.session, "unknown")
  }

  function SummaryText(e: Entry): string {
    Trim(FirstNonEmpty(e.summary, TextContent(e.message)))
  }

  /** `summaryChunk`. */
  function SummaryChunks(style: Style, project: string, e: Entry): seq<Chunk> {
    if SummaryText(e) == "" then []
    else
      var time := EntryTime(e.time, None, e.line);
      var content := "Session summary for " + style.projectName(project) + ":\n" + SummaryText(e);
      [Chunk(style.hash(content + SessionOf(e) + style.stamp(time)), content, Summary, SessionOf(e), project,
             style.projectName(project), time, "", "", "", "", "", style.sourceFile, e.line, "", [], style.machineID)]
  }

  function ModelOf(m: Option<Message>): string {
    if m.None? then "" else m.value.model
  }

  function OperationChunk(style: Style, project: string, e: Entry, prompt: string, parent: string, o: Operation, i: nat)
    : Chunk
  {
    var time := EntryTime(e.time, None, e.line);
    var content := "In project " + style.projectName(project) + ", file " + o.op.path + " was " + o.op.kind + ". "
                   + o.op.summary + ". This was in response to: " + Truncate(prompt, 200) + Ellipsis(prompt, 200);
    var tool := if o.id == "" then "idx" + style.number(i) else o.id;
    Chunk(style.hash(content + SessionOf(e) + style.stamp(time) + o.op.path + tool), content, FileChange, SessionOf(e),
          project, style.projectName(project), time, "", e.uuid, o.op.path, o.op.kind, ModelOf(e.message),
          style.sourceFile, e.line, parent, [], style.machineID)
  }

  /** `fileChunks`. */
  function EntryFileChunks(style: Style, project: string, e: Entry, prompt: string, parent: string)
    : (chunks: seq<Chunk>)
    ensures |chunks| == |Operations(e.message)|
    ensures forall i :: 0 <= i < |chunks| ==>
              && chunks[i].chunkType == FileChange && chunks[i].timestamp == EntryTime(e.time, None, e.line)
              && chunks[i].parentChunkID == parent && chunks[i].childChunkIDs == []
              && chunks[i].filePath == Operations(e.message)[i].op.path
              && chunks[i].operation == Operations(e.message)[i].op.kind
  {
    var ops := Operations(e.message);
    seq(|ops|, i requires 0 <= i < |ops| => OperationChunk(style, project, e, prompt, parent, ops[i], i))
  }

  /** The turn text; empty when neither side has any. */
  function TurnText(style: Style, project: string, user: Entry, assistant: Entry): string {
    var asked, answered := Trim(TextContent(user.message)), Trim(TextContent(assistant.message));
    var head := "In project " + style.projectName(project);
    if asked == "" && answered == "" then ""
    else if asked != "" && answered != "" then head + ", user asked:\n" + asked + "\n\nAssistant responded:\n" + answered
    else if asked != "" then head + ", user asked:\n" + asked + "\n\n[No assistant response]"
    else head + ", assistant response:\n" + answered
  }

  function TurnPart(style: Style, project: string, user: Entry, assistant: Entry, content: string, parts: seq<string>,
                    i: nat): Chunk
    requires i < |parts|
  {
    var time := EntryTime(assistant.time, user.time, assistant.line);
    var session := FirstNonEmpty(user.session, SessionOf(assistant));
    var whole := style.hash(content + session + style.stamp(time));
    var text := if |parts| > 1 then "[Part " + style.number(i + 1) + "/" + style.number(|parts|) + "] " + parts[i]
                else parts[i];
    var id := if |parts| > 1 then style.hash(text + session + style.stamp(time) + "_part" + style.number(i + 1)) else whole;
    Chunk(id, text, Turn, session, project, style.projectName(project), time, user.uuid, assistant.uuid, "", "",
          ModelOf(assistant.message), style.sourceFile, user.line, if i > 0 then whole else "", [], style.machineID)
  }

  /** `turnChunks`. */
  function TurnChunks(style: Style, project: string, user: Entry, assistant: Entry): (chunks: seq<Chunk>)
    ensures forall i :: 0 <= i < |chunks| ==>
              && chunks[i].chunkType == Turn && chunks[i].childChunkIDs == []
              && chunks[i].timestamp == EntryTime(assistant.time, user.time, assistant.line)
    ensures chunks == [] <==> Silent(user, assistant)
  {
    var content := TurnText(style, project, user, assistant);
    if content == "" then []
    else
      PartsExist(content);
      var parts := ClaudeParts(content);
      seq(|parts|, i requires 0 <= i < |parts| => TurnPart(style, project, user, assistant, content, parts, i))
  }

  predicate Silent(user: Entry, assistant: Entry) {
    Trim(TextContent(user.message)) == "" && Trim(TextContent(assistant.message)) == ""
  }

  lemma PartsExist(content: string)
    ensures ClaudeParts(content) != []
  {
  }

  const ANSWERED := "\n\nAssistant responded:\n"
  const UNANSWERED := "\n\n[No assistant response]"
  const ANSWER_ALONE := ", assistant response:\n"

  /** The text says who asked and who answered: each visible side stands whole, directly after its own label,
      the question before the answer, and nothing else is there. */
  predicate SaysTurn(text: string, name: string, asked: string, answered: string) {
    var head := "In project " + name;
    if asked != "" && answered != "" then HoldsLabelled(text, head, ASKED, asked, ANSWERED, answered)
    else if asked != "" then HoldsLabelled(text, head, ASKED, asked, UNANSWERED, "")
    else HoldsLabelled(text, head, ANSWER_ALONE, answered, "", "")
  }

  lemma TurnTextSays(style: Style, project: string, user: Entry, assistant: Entry)
    requires !Silent(user, assistant)
    ensures SaysTurn(TurnText(style, project, user, assistant), style.projectName(project),
                     Trim(TextContent(user.message)), Trim(TextContent(assistant.message)))
  {
    hide Trim, TextContent, HoldsLabelled;
    var asked, answered := Trim(TextContent(user.message)), Trim(TextContent(assistant.message));
    var head := "In project " + style.projectName(project);
    LabelledParts(head, ASKED, asked, ANSWERED, answered);
    LabelledParts(head, ASKED, asked, UNANSWERED, "");
    LabelledParts(head, ANSWER_ALONE, answered, "", "");
    assert head + ASKED + asked + UNANSWERED + "" == head + ASKED + asked + UNANSWERED;
    assert head + ANSWER_ALONE + answered + "" + "" == head + ANSWER_ALONE + answered;
  }

  /** Nothing of a turn is lost: its chunks end with the parts of a good split of the turn text, from which
      the text comes back, and each names both entries, the session and the answer's model. */
  lemma TurnKeepsText(style: Style, project: string, user: Entry, assistant: Entry)
    requires !Silent(user, assistant)
    ensures var text, chunks := TurnText(style, project, user, assistant), TurnChunks(style, project, user, assistant);
            && |chunks| == |ClaudeParts(text)| && GoodSplit(text, ClaudeParts(text))
            && SaysTurn(text, style.projectName(project), Trim(TextContent(user.message)),
                        Trim(TextContent(assistant.message)))
            && forall i :: 0 <= i < |chunks| ==>
                 && IsPart(style, chunks[i].content, ClaudeParts(text), i)
                 && chunks[i].userUUID == user.uuid && chunks[i].assistantUUID == assistant.uuid
                 && chunks[i].sessionID == FirstNonEmpty(user.session, SessionOf(assistant))
                 && chunks[i].model == ModelOf(assistant.message) && chunks[i].sourceLine == user.line
  {
    TurnTextSays(style, project, user, assistant);
    hide GoodSplit, ClaudeParts, Trim, TextContent, SaysTurn;
    var text := TurnText(style, project, user, assistant);
    ClaudeRoundTrip(text);
    var parts := ClaudeParts(text);
    hide IsPart;
    forall i | 0 <= i < |parts|
      ensures IsPart(style, TurnPart(style, project, user, assistant, text, parts, i).content, parts, i)
    {
      PartReads(style, parts, i);
    }
  }

  /** A question with its answer: turn chunks, the first linked to the answer's file chunks. */
  function PairChunks(style: Style, project: string, user: Entry, assistant: Entry): seq<Chunk> {
    var turns := TurnChunks(style, project, user, assistant);
    if turns == [] then []
    else
      var files := EntryFileChunks(style, project, assistant, TextContent(user.message), turns[0].id);
      turns[0 := turns[0].(childChunkIDs := Ids(files))] + files
  }

  /** What a prompt is cut to. */
  predicate Shortened(prompt: string, shown: string) {
    if |prompt| <= 200 then shown == prompt else |shown| == 203 && shown[..200] == prompt[..200] && shown[200..] == "..."
  }

  /** A file chunk names the file and what was done to it, ends with the prompt it answers, and carries the
      answer's id, model and line. */
  lemma OperationChunkSays(style: Style, project: string, e: Entry, prompt: string, parent: string, o: Operation, i: nat)
    returns (shown: string)
    ensures Shortened(prompt, shown)
    ensures var c := OperationChunk(style, project, e, prompt, parent, o, i);
            && c.content == "In project " + style.projectName(project) + ", file " + o.op.path + " was " + o.op.kind + ". "
                            + o.op.summary + ". This was in response to: " + shown
            && c.id == style.hash(c.content + c.sessionID + style.stamp(c.timestamp) + o.op.path
                                  + if o.id != "" then o.id else "idx" + style.number(i))
            && c.assistantUUID == e.uuid && c.userUUID == "" && c.model == ModelOf(e.message) && c.sourceLine == e.line
            && c.sessionID == if e.session != "" then e.session else "unknown"
  {
    shown := Truncate(prompt, 200) + Ellipsis(prompt, 200);
    var front := "In project " + style.projectName(project) + ", file " + o.op.path + " was " + o.op.kind + ". "
                 + o.op.summary + ". This was in response to: ";
    assert front + Truncate(prompt, 200) + Ellipsis(prompt, 200) == front + shown;
  }

  /** The file chunks of an answered question stand after its turn chunks and answer that question's text. */
  lemma PairPrompts(style: Style, project: string, user: Entry, assistant: Entry)
    requires !Silent(user, assistant)
    ensures var turns := TurnChunks(style, project, user, assistant);
            && turns != [] && |turns| <= |PairChunks(style, project, user, assistant)|
            && PairChunks(style, project, user, assistant)[|turns|..]
               == EntryFileChunks(style, project, assistant, TextContent(user.message), turns[0].id)
  {
    hide TurnChunks, EntryFileChunks, TextContent, Operations, Silent;
    var turns := TurnChunks(style, project, user, assistant);
    var files := EntryFileChunks(style, project, assistant, TextContent(user.message), turns[0].id);
    var linked := turns[0 := turns[0].(childChunkIDs := Ids(files))];
    assert PairChunks(style, project, user, assistant) == linked + files;
    AfterTheTurns(linked, files);
  }

  lemma AfterTheTurns(turns: seq<Chunk>, files: seq<Chunk>)
    ensures (turns + files)[|turns|..] == files
  {
  }

  lemma EntryFileChunk(style: Style, project: string, e: Entry, prompt: string, parent: string, i: nat)
    requires i < |Operations(e.message)|
    ensures EntryFileChunks(style, project, e, prompt, parent)[i]
         == OperationChunk(style, project, e, prompt, parent, Operations(e.message)[i], i)
  {
    hide OperationChunk, Operations;
  }

  /** A summary chunk holds the summary, or without one the message, after its label. */
  lemma SummarySays(style: Style, project: string, e: Entry)
    ensures e.summary != "" ==> SummaryText(e) == Trim(e.summary)
    ensures e.summary == "" ==> SummaryText(e) == Trim(TextContent(e.message))
    ensures SummaryText(e) != "" ==>
              && |SummaryChunks(style, project, e)| == 1
              && SummaryChunks(style, project, e)[0].content
                 == "Session summary for " + style.projectName(project) + ":\n" + SummaryText(e)
              && SummaryChunks(style, project, e)[0].chunkType == Summary
  {
    hide Trim, TextContent;
  }

  /** Which blocks are file operations, and of which kind. */
  lemma OperationKinds(b: Block)
    ensures b.ToolUse? && b.name == "Write" ==>
              |BlockOperation(b)| == 1 && BlockOperation(b)[0].op.kind == "write" && BlockOperation(b)[0].id == b.id
    ensures b.ToolUse? && b.name == "Edit" && b.before.Some? && b.after.Some? ==>
              |BlockOperation(b)| == 1 && BlockOperation(b)[0].op.kind == "edit" && BlockOperation(b)[0].id == b.id
    ensures BlockOperation(b) != [] ==>
              && b.ToolUse? && (b.name == "Write" || (b.name == "Edit" && b.before.Some? && b.after.Some?))
              && BlockOperation(b)[0].op.path == if b.path == "" then "unknown" else b.path
  {
  }

  /** A command is shown on one line, otherwise unchanged. */
  lemma OneLineMeans(s: string)
    ensures |OneLine(s)| == |s| && '\n' !in OneLine(s) && '\r' !in OneLine(s)
    ensures forall i :: 0 <= i < |s| ==> OneLine(s)[i] == s[i] || (OneLine(s)[i] == ' ' && (s[i] == '\n' || s[i] == '\r'))
  {
  }

  /** An edit reads as what was replaced and then what replaced it. */
  lemma EditSays(b: Block)
    requires b.ToolUse? && b.name == "Edit" && b.before.Some? && b.after.Some?
    requires |b.before.value| <= 100 && |b.after.value| <= 100
    ensures |BlockOperation(b)| == 1
    ensures BlockOperation(b)[0].op.summary
         == "Replaced '" + b.before.value + "' with '" + b.after.value + "'"
  {
    var from, to := b.before.value, b.after.value;
    assert from + "" == from && to + "" == to;
    assert "Replaced '" + from + "" + "' with '" + to + "" + "'" == "Replaced '" + from + "' with '" + to + "'";
  }

  /** How blocks read: text as it is, tools by name and file or command, short results whole. */
  lemma BlocksRead(b: Block)
    ensures b.TextBlock? ==> BlockText(b) == [b.text]
    ensures b.ToolUse? && (b.name == "Read" || b.name == "Edit" || b.name == "Write") && b.path != "" ==>
              BlockText(b) == ["[Used " + b.name + " on " + b.path + "]"]
    ensures b.ToolUse? && b.name == "Bash" && |b.command| <= 100 && '\n' !in b.command && '\r' !in b.command ==>
              BlockText(b) == ["[Ran command: " + b.command + "]"]
    ensures b.ToolResult? && b.content.Some? && |b.content.value| < 500 ==>
              BlockText(b) == ["[Result: " + b.content.value + "]"]
    ensures b.ToolResult? && (b.content.None? || |b.content.value| >= 500) ==> BlockText(b) == ["[Tool result truncated]"]
    ensures b.OtherBlock? ==> BlockText(b) == []
  {
    if b.ToolUse? && b.name == "Bash" && |b.command| <= 100 && '\n' !in b.command && '\r' !in b.command {
      assert OneLine(b.command) == b.command;
    }
  }

  // ---- Chunks of a transcript -----------------------------------------------------------------

  predicate IsSummary(e: Entry) {
    e.compact || e.kind.SummaryEntry?
  }

  function PartOf(e: Entry): Part {
    if IsSummary(e) then Skip
    else
      match e.kind
      case UserEntry => Ask
      case AssistantEntry => Answer
      case _ => Skip
  }

  function Parts(entries: seq<Entry>): (parts: seq<Part>)
    ensures |parts| == |entries| && forall i :: 0 <= i < |parts| ==> parts[i] == PartOf(entries[i])
  {
    seq(|entries|, i requires 0 <= i < |entries| => PartOf(entries[i]))
  }

  const UNPAIRED := "[unpaired assistant message]"

  /** What one entry emits. */
  function EntryChunks(style: Style, project: string, entries: seq<Entry>, i: nat): seq<Chunk>
    requires i < |entries|
  {
    var e := entries[i];
    if IsSummary(e) then SummaryChunks(style, project, e)
    else if e.kind.AssistantEntry? then
      match PendingAt(Parts(entries), i)
      case None => EntryFileChunks(style, project, e, UNPAIRED, "")
      case Some(p) => PairChunks(style, project, entries[p], e)
    else []
  }

  function TranscriptChunks(style: Style, project: string, entries: seq<Entry>, hi: nat): seq<Chunk>
    requires hi <= |entries|
  {
    if hi == 0 then []
    else TranscriptChunks(style, project, entries, hi - 1) + EntryChunks(style, project, entries, hi - 1)
  }

  /** The chunks of a Claude transcript. */
  function ClaudeChunks(style: Style, project: string, entries: seq<Entry>): seq<Chunk> {
    TranscriptChunks(style, project, entries, |entries|)
  }

  /** The loop of `claude.Chunks`. */
  method Chunks(style: Style, project: string, entries: seq<Entry>) returns (chunks: seq<Chunk>)
    ensures chunks == ClaudeChunks(style, project, entries)
  {
    hide SummaryChunks, EntryFileChunks, PairChunks;
    ghost var parts := Parts(entries);
    chunks := [];
    var pending: Option<Entry> := None;
    for i := 0 to |entries|
      invariant chunks == TranscriptChunks(style, project, entries, i)
      invariant pending == match PendingAt(parts, i) case None => None case Some(p) => Some(entries[p])
    {
      var e := entries[i];
      assert parts[i] == PartOf(e);
      if IsSummary(e) {
        chunks := chunks + SummaryChunks(style, project, e);
        continue;
      }
      match e.kind {
        case UserEntry =>
          pending := Some(e);
        case AssistantEntry =>
          if pending.None? {
            chunks := chunks + EntryFileChunks(style, project, e, UNPAIRED, "");
            continue;
          }
          chunks := chunks + PairChunks(style, project, pending.value, e);
          pending := None;
        case _ =>
      }
    }
  }

  // ---- Every operation becomes a chunk --------------------------------------------------------

  lemma {:induction false} BlockTextsBefore(blocks: seq<Block>, i: nat)
    requires i < |blocks| && blocks[i].ToolUse?
    ensures ToolText(blocks[i]) in BlockTexts(blocks)
    decreases |blocks|
  {
    hide ToolText;
    var n := |blocks| - 1;
    if i < n {
      BlockTextsBefore(blocks[..n], i);
    } else {
      assert ToolText(blocks[i]) in BlockText(blocks[n]);
    }
  }

  lemma {:induction false} OperationsComeFromTools(blocks: seq<Block>) returns (i: nat)
    requires BlockOperations(blocks) != []
    ensures i < |blocks| && blocks[i].ToolUse?
    decreases |blocks|
  {
    var n := |blocks| - 1;
    if BlockOperations(blocks[..n]) != [] {
      i := OperationsComeFromTools(blocks[..n]);
    } else {
      i := n;
    }
  }

  /** A joined text contains every character of its parts. */
  lemma {:induction false} JoinShows(parts: seq<string>, part: string, c: char)
    requires part in parts && c in part
    ensures c in Join(parts)
    decreases |parts|
  {
    var n := |parts| - 1;
    if n > 0 && part in parts[..n] {
      JoinShows(parts[..n], part, c);
    }
  }

  lemma OperationsHaveText(m: Option<Message>)
    requires Operations(m) != []
    ensures Trim(TextContent(m)) != ""
  {
    var blocks := m.value.content.blocks;
    var i := OperationsComeFromTools(blocks);
    BlockTextsBefore(blocks, i);
    JoinShows(BlockTexts(blocks), ToolText(blocks[i]), '[');
    var text := TextContent(m);
    var k :| 0 <= k < |text| && text[k] == '[';
    VisibleText(text, k);
  }

  function EntryOps(e: Entry): (ops: seq<FileOp>)
    ensures |ops| == |Operations(e.message)| && forall i :: 0 <= i < |ops| ==> ops[i] == Operations(e.message)[i].op
  {
    var found := Operations(e.message);
    seq(|found|, i requires 0 <= i < |found| => found[i].op)
  }

  /** The file operations of the assistant entries before hi, in order. */
  function TranscriptOps(entries: seq<Entry>, hi: nat): seq<FileOp>
    requires hi <= |entries|
  {
    if hi == 0 then []
    else TranscriptOps(entries, hi - 1) + if PartOf(entries[hi - 1]).Answer? then EntryOps(entries[hi - 1]) else []
  }

  lemma EntryFileChanges(style: Style, project: string, entries: seq<Entry>, i: nat)
    requires i < |entries|
    ensures FileChanges(EntryChunks(style, project, entries, i))
         == Named(if PartOf(entries[i]).Answer? then EntryOps(entries[i]) else [])
  {
    hide FileChanges, Trim, TextContent, Operations, PendingAt;
    var e := entries[i];
    assert Named([]) == [];
    NoFileChanges([]);
    if IsSummary(e) {
      OneSummary(style, project, e);
    } else if e.kind.AssistantEntry? {
      var p := PendingAt(Parts(entries), i);
      if p.None? {
        AllFileChanges(EntryFileChunks(style, project, e, UNPAIRED, ""), EntryOps(e));
      } else {
        PairFileChanges(style, project, entries[p.value], e);
      }
    }
  }

  lemma OneSummary(style: Style, project: string, e: Entry)
    ensures FileChanges(SummaryChunks(style, project, e)) == []
  {
  }

  lemma PairFileChanges(style: Style, project: string, user: Entry, assistant: Entry)
    ensures FileChanges(PairChunks(style, project, user, assistant)) == Named(EntryOps(assistant))
  {
    hide FileChanges, TurnChunks, Trim, TextContent, EntryFileChunks, Operations;
    var turns := TurnChunks(style, project, user, assistant);
    if turns == [] {
      NoFileChanges([]);
      assert Silent(user, assistant);
      if Operations(assistant.message) != [] {
        OperationsHaveText(assistant.message);
        assert false;
      }
      assert Named(EntryOps(assistant)) == [];
    } else {
      var files := EntryFileChunks(style, project, assistant, TextContent(user.message), turns[0].id);
      var linked := turns[0 := turns[0].(childChunkIDs := Ids(files))];
      FileChangesConcat(linked, files);
      NoFileChanges(linked);
      AllFileChanges(files, EntryOps(assistant));
    }
  }

  /** Every file operation of an assistant entry becomes exactly one file_change chunk, in order, whether
      or not the entry answers a question. */
  lemma {:induction false} ClaudeFileChunks(style: Style, project: string, entries: seq<Entry>, hi: nat)
    requires hi <= |entries|
    ensures FileChanges(TranscriptChunks(style, project, entries, hi)) == Named(TranscriptOps(entries, hi))
    decreases hi
  {
    hide FileChanges, EntryChunks, PartOf, EntryOps;
    if hi == 0 {
      NoFileChanges([]);
    } else {
      ClaudeFileChunks(style, project, entries, hi - 1);
      EntryFileChanges(style, project, entries, hi - 1);
      FileChangesConcat(TranscriptChunks(style, project, entries, hi - 1), EntryChunks(style, project, entries, hi - 1));
      NamedConcat(TranscriptOps(entries, hi - 1),
                  if PartOf(entries[hi - 1]).Answer? then EntryOps(entries[hi - 1]) else []);
    }
  }
}
