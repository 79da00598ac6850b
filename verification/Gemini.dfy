/** The Gemini source: session documents, event logs, and the assembler loop
    (internal/history/source/gemini/gemini.go). */
module Gemini {
  import opened Options
  import opened Chunk
  import opened Text
  import opened Assembly
  import opened Grouping

  datatype Kind = UserMessage | GeminiMessage | InfoMessage | OtherMessage

  /** A tool call as rendered for the turn text, with the operations `toolOperations` finds in it. */
  datatype ToolCall = ToolCall(rendered: string, ops: seq<FileOp>)

  datatype Message = Message(id: string, kind: Kind, content: string, model: string, time: Option<Time>,
                             thoughts: seq<string>, calls: seq<ToolCall>, raw: string)

  datatype LogEvent = LogEvent(session: string, content: string, time: Option<Time>)

  datatype Document = Document(session: string, messages: seq<Message>, events: seq<LogEvent>)

  function TimeOr(time: Option<Time>, index: nat): Time {
    if time.Some? then time.value else LineTime(index)
  }

  /** `pendingIndex`: the position of the first message with this id, counting from one. */
  function PendingIndex(id: string, messages: seq<Message>, i: nat): nat
    decreases |messages| - i
  {
    if i >= |messages| then 1 else if messages[i].id == id then i + 1 else PendingIndex(id, messages, i + 1)
  }

  function Rendered(calls: seq<ToolCall>): (lines: seq<string>)
    ensures |lines| == |calls| && forall i :: 0 <= i < |calls| ==> lines[i] == calls[i].rendered
  {
    seq(|calls|, i requires 0 <= i < |calls| => calls[i].rendered)
  }

  function CallOps(calls: seq<ToolCall>): seq<FileOp> {
    if calls == [] then [] else CallOps(calls[..|calls| - 1]) + calls[|calls| - 1].ops
  }

  lemma CallOpsLast(calls: seq<ToolCall>, call: ToolCall)
    ensures CallOps(calls + [call]) == CallOps(calls) + call.ops
  {
    assert (calls + [call])[..|calls|] == calls;
  }

  /** The operations of a message are those of its calls, call by call. */
  lemma {:induction false} CallOpsInOrder(a: seq<ToolCall>, b: seq<ToolCall>)
    ensures CallOps(a + b) == CallOps(a) + CallOps(b)
    decreases |b|
  {
    if b == [] {
      assert a + b == a;
    } else {
      hide CallOps;
      var n := |b| - 1;
      CallOpsInOrder(a, b[..n]);
      CallOpsLast(b[..n], b[n]);
      CallOpsLast(a + b[..n], b[n]);
      assert b[..n] + [b[n]] == b && a + b[..n] + [b[n]] == a + b;
    }
  }

  function Paragraphs(first: string, second: string): string {
    if first == "" then second else if second == "" then first else first + "\n\n" + second
  }

  /** `geminiText`: content, thoughts and tool calls as paragraphs. */
  function GeminiText(m: Message): string {
    var thoughts := if m.thoughts == [] then "" else "Thoughts:\n" + Join(m.thoughts);
    var calls := if m.calls == [] then "" else "Tool calls:\n" + Join(Rendered(m.calls));
    Paragraphs(Paragraphs(m.content, thoughts), calls)
  }

  function Section(label1: string, lines: seq<string>): string {
    if lines == [] then "" else label1 + Join(lines)
  }

  lemma TwoParagraphs(first: string, second: string)
    ensures var text := Paragraphs(first, second);
            && StandsAt(text, 0, first) && EndsWith(text, second)
            && |text| == |first| + |second| + (if first != "" && second != "" then 2 else 0)
            && (first != "" && second != "" ==> StandsAt(text, |first|, "\n\n"))
  {
    if first != "" && second != "" {
      StandsInConcat("", first, "\n\n" + second);
      assert "" + first + ("\n\n" + second) == first + "\n\n" + second;
      StandsInConcat(first, "\n\n", second);
      AppendEndsWith(first + "\n\n", second);
    } else {
      AppendEndsWith("", second);
    }
  }

  /** A message reads as its own content, then its thoughts, then its tool calls, whole and in that order, each
      that there is in its own paragraph, and nothing else. */
  lemma GeminiTextSays(m: Message)
    ensures var text, thoughts := GeminiText(m), Section("Thoughts:\n", m.thoughts);
            var calls := Section("Tool calls:\n", Rendered(m.calls));
            var front := Paragraphs(m.content, thoughts);
            && StandsAt(text, 0, m.content) && StandsAt(text, 0, front)
            && EndsWith(front, thoughts) && EndsWith(text, calls)
            && |front| == |m.content| + |thoughts| + (if m.content != "" && thoughts != "" then 2 else 0)
            && |text| == |front| + |calls| + if front != "" && calls != "" then 2 else 0
  {
    hide Join, Paragraphs;
    var thoughts, calls := Section("Thoughts:\n", m.thoughts), Section("Tool calls:\n", Rendered(m.calls));
    var front := Paragraphs(m.content, thoughts);
    assert GeminiText(m) == Paragraphs(front, calls);
    TwoParagraphs(m.content, thoughts);
    TwoParagraphs(front, calls);
    assert GeminiText(m)[..|front|] == front;
    assert GeminiText(m)[0..|m.content|] == front[0..|m.content|];
  }

  /** A turn is placed at the first message with its opening's id. */
  lemma {:induction false} PendingIndexIsFirst(id: string, messages: seq<Message>, i: nat, k: nat)
    requires i <= k < |messages| && messages[k].id == id && forall j :: i <= j < k ==> messages[j].id != id
    ensures PendingIndex(id, messages, i) == k + 1
    decreases k - i
  {
    if i < k {
      PendingIndexIsFirst(id, messages, i + 1, k);
    }
  }

  function ItemAt(messages: seq<Message>, i: nat): Item
    requires i < |messages|
  {
    var m := messages[i];
    var at := TimeOr(m.time, i + 1);
    match m.kind
    case UserMessage =>
      var line := PendingIndex(m.id, messages, 0);
      Item(Opening, ASKED, m.content, [], TimeOr(m.time, line), line, KEEP)
    case GeminiMessage =>
      Item(Reply, RESPONDED, GeminiText(m), CallOps(m.calls), at, i + 1, Settings("", "", "", m.model))
    case InfoMessage => Item(Aside, RESPONDED, m.content, [], at, i + 1, KEEP)
    case OtherMessage => Item(Aside, RESPONDED, m.raw, [], at, i + 1, KEEP)
  }

  function Items(messages: seq<Message>): (items: seq<Item>)
    ensures |items| == |messages| && forall i :: 0 <= i < |items| ==> items[i] == ItemAt(messages, i)
  {
    seq(|messages|, i requires 0 <= i < |messages| => ItemAt(messages, i))
  }

  function StartSettings(session: string, projectPath: string): Settings {
    Settings(session, projectPath, "", "")
  }

  function EventSession(e: LogEvent): string {
    if e.session == "" then "gemini-logs" else e.session
  }

  function EventChunk(style: Style, projectPath: string, e: LogEvent, i: nat): seq<Chunk> {
    Standalone(style, StartSettings(EventSession(e), projectPath), RESPONDED,
               e.content, [], TimeOr(e.time, i + 1), i + 1)
  }

  function EventChunks(style: Style, projectPath: string, events: seq<LogEvent>, hi: nat): seq<Chunk>
    requires hi <= |events|
  {
    if hi == 0 then []
    else EventChunks(style, projectPath, events, hi - 1) + EventChunk(style, projectPath, events[hi - 1], hi - 1)
  }

  /** The chunks of a Gemini document: an event log when it has events, assembled turns otherwise. */
  function GeminiChunks(style: Style, projectPath: string, d: Document): seq<Chunk> {
    if d.events != [] then EventChunks(style, projectPath, d.events, |d.events|)
    else Assembled(style, StartSettings(d.session, projectPath), Items(d.messages), |d.messages|)
  }

  /** The loops of `gemini.Chunks`. */
  method Chunks(style: Style, projectPath: string, d: Document) returns (chunks: seq<Chunk>)
    ensures chunks == GeminiChunks(style, projectPath, d)
  {
    hide EventChunk, Assembled;
    chunks := [];
    if |d.events| > 0 {
      for i := 0 to |d.events|
        invariant chunks == EventChunks(style, projectPath, d.events, i)
      {
        chunks := chunks + EventChunk(style, projectPath, d.events[i], i);
      }
      return;
    }
    chunks := AssembleMessages(style, projectPath, d.session, d.messages);
  }

  /** One round of the message switch. */
  method ReadMessage(style: Style, ghost start: Settings, messages: seq<Message>, i: nat, s: Loop) returns (r: Loop)
    requires i < |messages| && InStep(style, start, Items(messages), i, s)
    ensures InStep(style, start, Items(messages), i + 1, r)
  {
    hide Progress, Standalone, Group, GeminiText, CallOps, PendingIndex;
    ghost var items := Items(messages);
    var m := messages[i];
    var at := TimeOr(m.time, i + 1);
    assert items[i] == ItemAt(messages, i);
    Advanced(style, start, items, i, s.pending, s.fragments, s.ops, s.settings, s.chunks);
    assert s.chunks + [] == s.chunks;
    match m.kind {
      case UserMessage =>
        Finished(style, start, items, i, s.pending, s.fragments, s.ops, s.settings, s.chunks);
        SettingsInStep(style, start, items, i, s);
        r := Loop(Some(ItemAt(messages, i)), [], [], s.settings, Finalize(style, s));
        Opened(style, start, items, i);
      case GeminiMessage =>
        r := s.(settings := s.settings.(model := Override(s.settings.model, m.model)));
        var combined, found := GeminiText(m), CallOps(m.calls);
        if s.pending.None? {
          return Emit(style, r, RESPONDED, combined, found, at, i + 1);
        }
        if combined != "" {
          r := r.(fragments := r.fragments + [combined]);
        }
        r := r.(ops := r.ops + found);
      case InfoMessage =>
        return Emit(style, s, RESPONDED, m.content, [], at, i + 1);
      case OtherMessage =>
        return Emit(style, s, RESPONDED, m.raw, [], at, i + 1);
    }
  }

  method AssembleMessages(style: Style, projectPath: string, session: string, messages: seq<Message>)
    returns (chunks: seq<Chunk>)
    ensures chunks == Assembled(style, StartSettings(session, projectPath), Items(messages), |messages|)
  {
    hide Progress, Group, Assembled;
    ghost var start := StartSettings(session, projectPath);
    var s := Loop(None, [], [], StartSettings(session, projectPath), []);
    Started(style, start, Items(messages));
    for i := 0 to |messages|
      invariant InStep(style, start, Items(messages), i, s)
    {
      s := ReadMessage(style, start, messages, i, s);
    }
    Finished(style, start, Items(messages), |messages|, s.pending, s.fragments, s.ops, s.settings, s.chunks);
    chunks := Finalize(style, s);
  }

  lemma CallOpsHaveText(m: Message)
    ensures CallOps(m.calls) != [] ==> Trim(GeminiText(m)) != ""
  {
    if CallOps(m.calls) != [] {
      hide Join, Trim;
      var thoughts := if m.thoughts == [] then "" else "Thoughts:\n" + Join(m.thoughts);
      var calls := "Tool calls:\n" + Join(Rendered(m.calls));
      var front := Paragraphs(m.content, thoughts);
      var at := if front == "" then 0 else |front| + 2;
      assert calls[0] == 'T';
      assert GeminiText(m)[at] == calls[0];
      VisibleText(GeminiText(m), at);
    }
  }

  lemma EventsHaveNoFiles(style: Style, projectPath: string, events: seq<LogEvent>, hi: nat)
    requires hi <= |events|
    ensures FileChanges(EventChunks(style, projectPath, events, hi)) == []
    ensures InBlocks(EventChunks(style, projectPath, events, hi))
  {
    hide FileChanges, InBlocks, Emission, Trim, Headed;
    if hi == 0 {
      NoFileChanges([]);
      NothingIsInBlocks();
    } else {
      var e := events[hi - 1];
      EventsHaveNoFiles(style, projectPath, events, hi - 1);
      var s := StartSettings(EventSession(e), projectPath);
      EmissionFileChanges(style, s, TimeOr(e.time, hi), hi, Headed(style, s, RESPONDED, e.content), []);
      NoFileChanges([]);
      FileChangesConcat(EventChunks(style, projectPath, events, hi - 1), EventChunk(style, projectPath, e, hi - 1));
      StandaloneIsInBlocks(style, s, RESPONDED, e.content, [], TimeOr(e.time, hi), hi);
      BlocksConcat(EventChunks(style, projectPath, events, hi - 1), EventChunk(style, projectPath, e, hi - 1));
    }
  }

  lemma RepliesWithOpsHaveText(messages: seq<Message>)
    ensures OpsHaveText(Items(messages))
  {
    hide GeminiText, CallOps, Trim, PendingIndex;
    var items := Items(messages);
    forall i | 0 <= i < |items| && items[i].role.Reply? && items[i].ops != [] ensures Trim(items[i].text) != "" {
      CallOpsHaveText(messages[i]);
    }
  }

  /** The file operations of a document's replies; an event log has none. */
  function DocumentOps(d: Document): seq<FileOp> {
    if d.events != [] then [] else OpsIn(Items(d.messages), 0, |d.messages|)
  }

  /** For a whole Gemini document: every extracted file operation becomes exactly one file_change chunk,
      in message order, and the chunks fall into blocks headed by the turn chunk that lists their file chunks. */
  lemma GeminiFileChunks(style: Style, projectPath: string, d: Document)
    ensures FileChanges(GeminiChunks(style, projectPath, d)) == Named(DocumentOps(d))
    ensures InBlocks(GeminiChunks(style, projectPath, d))
  {
    hide FileChanges, InBlocks, Assembled, OpsIn, EventChunks, OpsHaveText;
    if d.events != [] {
      EventsHaveNoFiles(style, projectPath, d.events, |d.events|);
    } else {
      var items := Items(d.messages);
      RepliesWithOpsHaveText(d.messages);
      EveryOperationOnce(style, StartSettings(d.session, projectPath), items, |d.messages|);
      AssembledIsInBlocks(style, StartSettings(d.session, projectPath), items, |d.messages|);
    }
  }

  /** All records of a document carry times. */
  predicate AllTimed(d: Document) {
    && (forall i :: 0 <= i < |d.messages| ==> d.messages[i].time.Some?)
    && (forall i :: 0 <= i < |d.events| ==> d.events[i].time.Some?)
  }

  ghost predicate RecordTime(d: Document, t: Time)
    requires AllTimed(d)
  {
    || (exists i :: 0 <= i < |d.messages| && d.messages[i].time.value == t)
    || (exists i :: 0 <= i < |d.events| && d.events[i].time.value == t)
  }

  lemma {:induction false} EventTimes(style: Style, projectPath: string, d: Document, hi: nat, c: Chunk)
    requires AllTimed(d) && hi <= |d.events| && c in EventChunks(style, projectPath, d.events, hi)
    ensures RecordTime(d, c.timestamp)
  {
    hide Emission, Trim, Headed;
    var e := d.events[hi - 1];
    if c in EventChunks(style, projectPath, d.events, hi - 1) {
      EventTimes(style, projectPath, d, hi - 1, c);
    } else {
      var s := StartSettings(EventSession(e), projectPath);
      EmissionTimes(style, s, TimeOr(e.time, hi), hi, Headed(style, s, RESPONDED, e.content), []);
      assert d.events[hi - 1].time.value == c.timestamp;
    }
  }

  /** When every record has a time, each chunk time is the time of some record. */
  lemma GeminiTimes(style: Style, projectPath: string, d: Document, c: Chunk)
    requires AllTimed(d) && c in GeminiChunks(style, projectPath, d)
    ensures RecordTime(d, c.timestamp)
  {
    hide Assembled, EventChunks, GeminiText, CallOps, PendingIndex;
    if d.events != [] {
      EventTimes(style, projectPath, d, |d.events|, c);
    } else {
      var items := Items(d.messages);
      AssembledTimes(style, StartSettings(d.session, projectPath), items, |d.messages|);
      var i :| 0 <= i < |items| && !items[i].role.Silent? && items[i].time == c.timestamp;
      assert d.messages[i].time.value == c.timestamp;
    }
  }

  /** Chunks of an event log carry the raw session of an event with visible content. */
  lemma {:induction false} EventSessions(style: Style, projectPath: string, events: seq<LogEvent>, hi: nat, session: string)
    requires hi <= |events|
    ensures (exists c :: c in EventChunks(style, projectPath, events, hi) && c.sessionID == session)
       <==> exists i :: 0 <= i < hi && Trim(events[i].content) != "" && EventSession(events[i]) == session
    decreases hi
  {
    hide EventChunk, Trim, EventSession;
    if hi > 0 {
      EventSessions(style, projectPath, events, hi - 1, session);
      OneEventSession(style, projectPath, events[hi - 1], hi - 1, session);
    }
  }

  lemma OneEventSession(style: Style, projectPath: string, e: LogEvent, i: nat, session: string)
    ensures (exists c :: c in EventChunk(style, projectPath, e, i) && c.sessionID == session)
       <==> Trim(e.content) != "" && EventSession(e) == session
  {
    hide Emission, Trim, Headed;
    var s := StartSettings(EventSession(e), projectPath);
    var content := Headed(style, s, RESPONDED, e.content);
    EmissionSessions(style, s, TimeOr(e.time, i + 1), i + 1, content, []);
    EmissionIsBlock(style, s, TimeOr(e.time, i + 1), i + 1, content, []);
    var emitted := Emission(style, s, TimeOr(e.time, i + 1), i + 1, content, []);
    assert emitted[0] in emitted;
  }
}
