/** The Codex source: its records, and the assembler loop (internal/history/source/codex/codex.go). */
module Codex {
  import opened Options
  import opened Chunk
  import opened Text
  import opened Assembly
  import opened Grouping

  /** The `response_item` payloads `summarizeTool` knows; operations are those its rules extract. */
  datatype ToolItem =
    | FunctionCall(name: string, arguments: string, shellOps: seq<FileOp>, patchOps: seq<FileOp>)
    | FunctionOutput(output: string)
    | WebSearch(query: string)
    | Reasoning(parts: seq<string>)
    | GhostSnapshot
    | UnknownItem

  datatype Speaker = User | Assistant | OtherSpeaker

  datatype Body =
    | SessionMeta(id: string, cwd: string)
    | TurnContext(cwd: string, model: string)
    | EventMsg(message: string, fromUser: bool)
    | Message(speaker: Speaker, text: string)
    | Tool(item: ToolItem)
    | OtherEvent(json: string)

  datatype Event = Event(body: Body, time: Option<Time>, line: nat)

  function EventTime(e: Event): Time {
    if e.time.Some? then e.time.value else LineTime(e.line)
  }

  function JoinWords(parts: seq<string>): string {
    if parts == [] then "" else if |parts| == 1 then parts[0] else parts[0] + " " + JoinWords(parts[1..])
  }

  /** `summarizeTool`. */
  function SummarizeTool(item: ToolItem): (string, seq<FileOp>) {
    match item
    case FunctionCall(given, arguments, shellOps, patchOps) =>
      var name := if given == "" then "unknown" else given;
      var ops := if name == "apply_patch" && arguments != "" then patchOps
                 else if name in {"shell", "shell_command"} then shellOps else [];
      (Trim("[Tool call] " + name + " " + arguments), ops)
    case FunctionOutput(output) => (Trim("[Tool output] " + output), [])
    case WebSearch(query) => (Trim("[Web search] " + query), [])
    case Reasoning(parts) =>
      (if parts == [] then "[Reasoning summary]" else "[Reasoning summary] " + JoinWords(parts), [])
    case GhostSnapshot => ("[Ghost snapshot captured]", [])
    case UnknownItem => ("", [])
  }

  /** The text of a tool record: its label and its payload, up to white space at the end. */
  predicate Reads(full: string, text: string) {
    text <= full && Blank(full[|text|..]) && (text == "" || !IsSpace(text[|text| - 1]))
  }

  lemma TrimEnd(full: string)
    requires full != "" && !IsSpace(full[0])
    ensures Reads(full, Trim(full))
  {
    TrimRightIsPrefix(full);
    TrimmedRight(full);
  }

  /** What each tool record says, and which operations are kept: those of a patch with arguments or a shell. */
  lemma ToolSays(item: ToolItem)
    ensures var (text, ops) := SummarizeTool(item);
            match item
            case FunctionCall(name, arguments, shellOps, patchOps) =>
              var called := if name == "" then "unknown" else name;
              && Reads("[Tool call] " + called + " " + arguments, text)
              && (called == "apply_patch" && arguments != "" ==> ops == patchOps)
              && (called == "shell" || called == "shell_command" ==> ops == shellOps)
              && (ops != [] ==> called in {"apply_patch", "shell", "shell_command"})
            case FunctionOutput(output) => Reads("[Tool output] " + output, text) && ops == []
            case WebSearch(query) => Reads("[Web search] " + query, text) && ops == []
            case Reasoning(parts) =>
              text == "[Reasoning summary]" + (if parts == [] then "" else " " + JoinWords(parts)) && ops == []
            case GhostSnapshot => text == "[Ghost snapshot captured]" && ops == []
            case UnknownItem => text == "" && ops == []
  {
    hide Trim, JoinWords;
    match item {
      case FunctionCall(name, arguments, _, _) =>
        var full := "[Tool call] " + (if name == "" then "unknown" else name) + " " + arguments;
        assert full[0] == '[';
        TrimEnd(full);
      case FunctionOutput(output) =>
        assert ("[Tool output] " + output)[0] == '[';
        TrimEnd("[Tool output] " + output);
      case WebSearch(query) =>
        assert ("[Web search] " + query)[0] == '[';
        TrimEnd("[Web search] " + query);
      case Reasoning(parts) =>
        assert "[Reasoning summary]" + (" " + JoinWords(parts)) == "[Reasoning summary] " + JoinWords(parts);
      case _ =>
    }
  }

  function WordOffset(parts: seq<string>, k: nat): nat
    requires k <= |parts|
  {
    if k == 0 then 0 else WordOffset(parts, k - 1) + |parts[k - 1]| + 1
  }

  lemma {:induction false} WordsShift(parts: seq<string>, k: nat)
    requires 0 < k <= |parts|
    ensures WordOffset(parts, k) == |parts[0]| + 1 + WordOffset(parts[1..], k - 1)
  {
    if k > 1 {
      WordsShift(parts, k - 1);
    }
  }

  /** Summary parts are joined in order, a space apart. */
  lemma {:induction false} WordsAreInOrder(parts: seq<string>, k: nat)
    requires k < |parts|
    ensures StandsAt(JoinWords(parts), WordOffset(parts, k), parts[k])
    decreases |parts|
  {
    if |parts| > 1 {
      var rest := JoinWords(parts[1..]);
      assert JoinWords(parts) == parts[0] + " " + rest;
      hide JoinWords, StandsAt;
      if k == 0 {
        StandsInConcat("", parts[0], " " + rest);
        assert "" + parts[0] + (" " + rest) == parts[0] + " " + rest;
      } else {
        WordsAreInOrder(parts[1..], k - 1);
        WordsShift(parts, k);
        StandsLater(parts[0] + " ", rest, WordOffset(parts[1..], k - 1), parts[k]);
      }
    }
  }

  function Saying(role: Role, heading: string, text: string, ops: seq<FileOp>, e: Event): Item {
    Item(role, heading, text, ops, EventTime(e), e.line, KEEP)
  }

  function SilentItem(e: Event, update: Settings): Item {
    Item(Silent, "", "", [], EventTime(e), e.line, update)
  }

  /** The part one record plays in assembly. */
  function ItemOf(e: Event): Item {
    match e.body
    case SessionMeta(id, cwd) => SilentItem(e, Settings(id, cwd, "", ""))
    case TurnContext(cwd, model) => SilentItem(e, Settings("", "", cwd, model))
    case EventMsg(message, fromUser) => Saying(Aside, if fromUser then SAID else RESPONDED, message, [], e)
    case Message(speaker, raw) =>
      var text := Trim(raw);
      if text == "" then SilentItem(e, KEEP)
      else
        (match speaker
         case User => Saying(Opening, ASKED, text, [], e)
         case Assistant => Saying(Reply, RESPONDED, text, [], e)
         case OtherSpeaker => Saying(Aside, RESPONDED, text, [], e))
    case Tool(item) =>
      var (summary, ops) := SummarizeTool(item);
      Saying(Reply, RESPONDED, summary, ops, e)
    case OtherEvent(json) => Saying(Aside, RESPONDED, json, [], e)
  }

  function Items(events: seq<Event>): (items: seq<Item>)
    ensures |items| == |events| && forall i :: 0 <= i < |items| ==> items[i] == ItemOf(events[i])
  {
    seq(|events|, i requires 0 <= i < |events| => ItemOf(events[i]))
  }

  predicate IsStemChar(c: char) {
    c == '-' || IsHexDigit(c)
  }

  /** `sessionIDFromFilename` on the file name without its extension: its last 36 characters, in lower
      case, if they are hexadecimal digits and dashes. */
  function SessionOfStem(stem: string): (session: string)
    ensures session == "" || (|session| == 36 && forall i :: 0 <= i < 36 ==> !IsSpace(session[i]))
    ensures Lower(session) == session
  {
    if |stem| < 36 then ""
    else
      var candidate := stem[|stem| - 36..];
      if forall i :: 0 <= i < 36 ==> IsStemChar(candidate[i]) then Lower(candidate) else ""
  }

  function StartSettings(fileSession: string): Settings {
    Settings(if fileSession == "" then "unknown" else fileSession, "", "", "")
  }

  /** Before a record names a session it is the one at the end of the file name, if the last 36 characters
      there are hexadecimal digits and dashes, else unknown. */
  lemma SessionBeforeRecords(front: string, last: string)
    ensures |last| == 36 && (forall i :: 0 <= i < 36 ==> last[i] == '-' || IsHexDigit(last[i])) ==>
              StartSettings(SessionOfStem(front + last)).session == Lower(last)
    ensures |last| == 36 && (exists i :: 0 <= i < 36 && !(last[i] == '-' || IsHexDigit(last[i]))) ==>
              StartSettings(SessionOfStem(front + last)).session == "unknown"
    ensures |front + last| < 36 ==> StartSettings(SessionOfStem(front + last)).session == "unknown"
  {
    if |last| == 36 {
      assert (front + last)[|front + last| - 36..] == last;
      assert |Lower(last)| == 36;
    }
  }

  /** The chunks of a Codex source. */
  function CodexChunks(style: Style, fileSession: string, events: seq<Event>): seq<Chunk> {
    Assembled(style, StartSettings(fileSession), Items(events), |events|)
  }

  /** One round of the record switch. */
  method ReadRecord(style: Style, ghost start: Settings, ghost items: seq<Item>, ghost i: nat, event: Event, s: Loop)
    returns (r: Loop)
    requires i < |items| && items[i] == ItemOf(event) && InStep(style, start, items, i, s)
    ensures InStep(style, start, items, i + 1, r)
  {
    hide Progress, Standalone, Group, SummarizeTool, Trim;
    Advanced(style, start, items, i, s.pending, s.fragments, s.ops, s.settings, s.chunks);
    assert s.chunks + [] == s.chunks && s.ops + [] == s.ops;
    match event.body {
      case SessionMeta(id, cwd) =>
        return s.(settings := s.settings.(session := Override(s.settings.session, id),
                                          sessionCWD := Override(s.settings.sessionCWD, cwd)));
      case TurnContext(cwd, model) =>
        return s.(settings := s.settings.(lastCWD := Override(s.settings.lastCWD, cwd),
                                          model := Override(s.settings.model, model)));
      case EventMsg(message, fromUser) =>
        return Emit(style, s, if fromUser then SAID else RESPONDED, message, [], EventTime(event), event.line);
      case Message(speaker, raw) =>
        var text := Trim(raw);
        if text == "" {
          return s;
        }
        match speaker {
          case User =>
            Finished(style, start, items, i, s.pending, s.fragments, s.ops, s.settings, s.chunks);
            SettingsInStep(style, start, items, i, s);
            r := Loop(Some(Saying(Opening, ASKED, text, [], event)), [], [], s.settings, Finalize(style, s));
            Opened(style, start, items, i);
          case Assistant =>
            if s.pending.None? {
              return Emit(style, s, RESPONDED, text, [], EventTime(event), event.line);
            }
            return s.(fragments := s.fragments + [text]);
          case OtherSpeaker =>
            return Emit(style, s, RESPONDED, text, [], EventTime(event), event.line);
        }
      case Tool(item) =>
        var (summary, found) := SummarizeTool(item);
        if s.pending.None? {
          return Emit(style, s, RESPONDED, summary, found, EventTime(event), event.line);
        }
        r := s.(ops := s.ops + found);
        if summary != "" {
          r := r.(fragments := s.fragments + [summary]);
        }
      case OtherEvent(json) =>
        return Emit(style, s, RESPONDED, json, [], EventTime(event), event.line);
    }
  }

  /** The loop of `codex.Chunks`. */
  method Chunks(style: Style, fileSession: string, events: seq<Event>) returns (chunks: seq<Chunk>)
    ensures chunks == CodexChunks(style, fileSession, events)
  {
    hide Progress, Group, Assembled;
    ghost var start := StartSettings(fileSession);
    ghost var items := Items(events);
    var s := Loop(None, [], [], StartSettings(fileSession), []);
    Started(style, start, items);
    for i := 0 to |events|
      invariant InStep(style, start, items, i, s)
    {
      s := ReadRecord(style, start, items, i, events[i], s);
    }
    Finished(style, start, items, |events|, s.pending, s.fragments, s.ops, s.settings, s.chunks);
    chunks := Finalize(style, s);
  }

  lemma ToolOpsHaveText(item: ToolItem)
    ensures SummarizeTool(item).1 != [] ==> Trim(SummarizeTool(item).0) != ""
  {
    if item.FunctionCall? {
      var name := if item.name == "" then "unknown" else item.name;
      var line := "[Tool call] " + name + " " + item.arguments;
      assert line[0] == '[';
      VisibleText(line, 0);
    }
  }

  lemma RepliesWithOpsHaveText(events: seq<Event>)
    ensures OpsHaveText(Items(events))
  {
    hide Trim, SummarizeTool;
    var items := Items(events);
    forall i | 0 <= i < |items| && items[i].role.Reply? && items[i].ops != [] ensures Trim(items[i].text) != "" {
      if events[i].body.Tool? {
        ToolOpsHaveText(events[i].body.item);
      }
    }
  }

  /** For a whole Codex source: every extracted file operation becomes exactly one file_change chunk, in
      record order, and the chunks fall into blocks headed by the turn chunk that lists their file chunks. */
  lemma CodexFileChunks(style: Style, fileSession: string, events: seq<Event>)
    ensures FileChanges(CodexChunks(style, fileSession, events)) == Named(OpsIn(Items(events), 0, |events|))
    ensures InBlocks(CodexChunks(style, fileSession, events))
  {
    hide FileChanges, InBlocks, Assembled, OpsIn, OpsHaveText, Items;
    RepliesWithOpsHaveText(events);
    EveryOperationOnce(style, StartSettings(fileSession), Items(events), |events|);
    AssembledIsInBlocks(style, StartSettings(fileSession), Items(events), |events|);
  }

  ghost predicate TimedByRecord(c: Chunk, events: seq<Event>) {
    exists i :: 0 <= i < |events| && c.timestamp == EventTime(events[i])
  }

  /** Each chunk time is the time of some record. */
  lemma CodexTimes(style: Style, fileSession: string, events: seq<Event>)
    ensures forall c :: c in CodexChunks(style, fileSession, events) ==> TimedByRecord(c, events)
  {
    hide Assembled;
    AssembledTimes(style, StartSettings(fileSession), Items(events), |events|);
    var items := Items(events);
    forall c | c in CodexChunks(style, fileSession, events) ensures TimedByRecord(c, events) {
      var i :| 0 <= i < |items| && !items[i].role.Silent? && items[i].time == c.timestamp;
      assert EventTime(events[i]) == c.timestamp;
    }
  }
}
