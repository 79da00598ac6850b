/** The ChatGPT source: exported conversations and the pairing loop
    (internal/history/source/chatgpt/chatgpt.go). */
module ChatGPT {
  import opened Options
  import opened Chunk
  import opened Text
  import opened Splitter
  import opened Assembly
  import opened Pairing

  datatype Message = Message(id: string, nodeID: string, role: string, content: string, time: Option<Time>)

  datatype Conversation = Conversation(id: string, title: string, messages: seq<Message>)

  /** Blank messages take no part; answers come from the assistant or a tool. */
  function PartOf(m: Message): Part {
    if Trim(m.content) == "" then Skip
    else if m.role == "user" then Ask
    else if m.role in {"assistant", "tool"} then Answer
    else Skip
  }

  function Parts(messages: seq<Message>): (parts: seq<Part>)
    ensures |parts| == |messages| && forall i :: 0 <= i < |parts| ==> parts[i] == PartOf(messages[i])
  {
    seq(|messages|, i requires 0 <= i < |messages| => PartOf(messages[i]))
  }

  function LineOf(conversation: nat, message: nat): nat {
    (conversation + 1) * 100000 + message + 1
  }

  function MessageTime(m: Message, line: nat): Time {
    if m.time.Some? then m.time.value else LineTime(line)
  }

  function TurnPart(style: Style, user: Message, answer: Message, c: Conversation, time: Time, line: nat,
                    content: string, parts: seq<string>, i: nat): Chunk
    requires i < |parts|
  {
    var whole := style.hash(content + c.id + style.stamp(time));
    var text := if |parts| > 1 then "[Part " + style.number(i + 1) + "/" + style.number(|parts|) + "] " + parts[i]
                else parts[i];
    var id := if |parts| > 1 then style.hash(text + c.id + style.stamp(time) + "_part" + style.number(i + 1)) else whole;
    Chunk(id, text, Turn, c.id, "/chatgpt/export", "ChatGPT", time, user.id, answer.id, "", "", "",
          style.sourceFile, line, if i > 0 then whole else "", [], style.machineID)
  }

  function TurnText(user: Message, answer: Message, c: Conversation): string {
    "In ChatGPT conversation " + c.title + ", user asked:\n" + user.content + "\n\nChatGPT responded:\n"
    + answer.content
  }

  const CHATGPT_ANSWERED := "\n\nChatGPT responded:\n"

  /** The text names the conversation, then holds the question whole after its label and the answer whole
      after its own, and nothing else. */
  lemma TurnTextSays(user: Message, answer: Message, c: Conversation)
    ensures HoldsLabelled(TurnText(user, answer, c), "In ChatGPT conversation " + c.title, ASKED, user.content,
                          CHATGPT_ANSWERED, answer.content)
  {
    hide HoldsLabelled;
    LabelledParts("In ChatGPT conversation " + c.title, ASKED, user.content, CHATGPT_ANSWERED, answer.content);
  }

  /** The chunks end with the parts of that text, in order. */
  lemma TurnKeepsParts(style: Style, user: Message, answer: Message, c: Conversation, line: nat, i: nat)
    requires i < |TurnChunks(style, user, answer, c, line)|
    ensures IsPart(style, TurnChunks(style, user, answer, c, line)[i].content, CodexParts(TurnText(user, answer, c)), i)
    ensures TurnChunks(style, user, answer, c, line)[i].sourceLine == line
  {
    hide CodexParts, TurnText;
    var parts := CodexParts(TurnText(user, answer, c));
    hide IsPart;
    PartReads(style, parts, i);
  }

  /** Lines made up for messages are different as long as conversations have fewer than 100000 messages. */
  lemma LinesAreDistinct(c: nat, m: nat, c': nat, m': nat)
    requires m < 99999 && m' < 99999 && LineOf(c, m) == LineOf(c', m')
    ensures c == c' && m == m'
  {
  }

  /** `turnChunks`. */
  function TurnChunks(style: Style, user: Message, answer: Message, c: Conversation, line: nat): (chunks: seq<Chunk>)
    ensures |chunks| == |CodexParts(TurnText(user, answer, c))|
    ensures forall i :: 0 <= i < |chunks| ==>
              && chunks[i].timestamp == MessageTime(answer, line) && chunks[i].chunkType == Turn
              && chunks[i].userUUID == user.id && chunks[i].assistantUUID == answer.id && chunks[i].sessionID == c.id
  {
    var content := TurnText(user, answer, c);
    var parts := CodexParts(content);
    var time := MessageTime(answer, line);
    seq(|parts|, i requires 0 <= i < |parts| => TurnPart(style, user, answer, c, time, line, content, parts, i))
  }

  /** What the message at position i emits: a turn exactly when a question is waiting for it. */
  function ReplyChunks(style: Style, c: Conversation, index: nat, i: nat): seq<Chunk>
    requires i < |c.messages|
  {
    var parts := Parts(c.messages);
    var p := PendingAt(parts, i);
    if parts[i].Answer? && p.Some? then
      TurnChunks(style, c.messages[p.value], c.messages[i], c, LineOf(index, i))
    else []
  }

  function ConversationChunks(style: Style, c: Conversation, index: nat, hi: nat): seq<Chunk>
    requires hi <= |c.messages|
  {
    if hi == 0 then [] else ConversationChunks(style, c, index, hi - 1) + ReplyChunks(style, c, index, hi - 1)
  }

  function ExportChunks(style: Style, conversations: seq<Conversation>, hi: nat): seq<Chunk>
    requires hi <= |conversations|
  {
    if hi == 0 then []
    else
      var c := conversations[hi - 1];
      ExportChunks(style, conversations, hi - 1) + ConversationChunks(style, c, hi - 1, |c.messages|)
  }

  /** The chunks of a ChatGPT export. */
  function ChatGPTChunks(style: Style, conversations: seq<Conversation>): seq<Chunk> {
    ExportChunks(style, conversations, |conversations|)
  }

  /** The inner loop of `chatgpt.Chunks`. */
  method PairMessages(style: Style, c: Conversation, index: nat) returns (chunks: seq<Chunk>)
    ensures chunks == ConversationChunks(style, c, index, |c.messages|)
  {
    hide TurnChunks, Trim;
    ghost var parts := Parts(c.messages);
    chunks := [];
    var pending: Option<Message> := None;
    for i := 0 to |c.messages|
      invariant chunks == ConversationChunks(style, c, index, i)
      invariant pending == match PendingAt(parts, i) case None => None case Some(p) => Some(c.messages[p])
    {
      var m := c.messages[i];
      assert parts[i] == PartOf(m);
      if Trim(m.content) == "" {
        continue;
      }
      if m.role == "user" {
        pending := Some(m);
      } else if m.role == "assistant" || m.role == "tool" {
        if pending.None? {
          continue;
        }
        chunks := chunks + TurnChunks(style, pending.value, m, c, LineOf(index, i));
        pending := None;
      }
    }
  }

  /** The outer loop of `chatgpt.Chunks`. */
  method Chunks(style: Style, conversations: seq<Conversation>) returns (chunks: seq<Chunk>)
    ensures chunks == ChatGPTChunks(style, conversations)
  {
    chunks := [];
    for k := 0 to |conversations|
      invariant chunks == ExportChunks(style, conversations, k)
    {
      var more := PairMessages(style, conversations[k], k);
      chunks := chunks + more;
    }
  }

  // ---- Which chunks there are -----------------------------------------------------------------

  /** c belongs to the turn of question p and answer i of conversation k. */
  predicate FromPair(style: Style, conversations: seq<Conversation>, c: Chunk, k: nat, p: nat, i: nat) {
    && k < |conversations|
    && Answers(Parts(conversations[k].messages), p, i)
    && c in TurnChunks(style, conversations[k].messages[p], conversations[k].messages[i], conversations[k], LineOf(k, i))
  }

  lemma ReplyMembers(style: Style, conversations: seq<Conversation>, k: nat, i: nat, c: Chunk)
    requires k < |conversations| && i < |conversations[k].messages|
    ensures c in ReplyChunks(style, conversations[k], k, i)
       <==> exists p: nat :: FromPair(style, conversations, c, k, p, i)
  {
    hide TurnChunks, PartOf;
    var parts := Parts(conversations[k].messages);
    if c in ReplyChunks(style, conversations[k], k, i) {
      assert FromPair(style, conversations, c, k, PendingAt(parts, i).value, i);
    }
    forall p: nat | FromPair(style, conversations, c, k, p, i) ensures c in ReplyChunks(style, conversations[k], k, i) {
      WaitingIsPending(parts, p, i);
    }
  }

  lemma {:induction false} ConversationMembers(style: Style, conversations: seq<Conversation>, k: nat, hi: nat, c: Chunk)
    requires k < |conversations| && hi <= |conversations[k].messages|
    ensures c in ConversationChunks(style, conversations[k], k, hi)
       <==> exists p: nat, i: nat :: i < hi && FromPair(style, conversations, c, k, p, i)
    decreases hi
  {
    hide FromPair, ReplyChunks;
    if hi > 0 {
      ConversationMembers(style, conversations, k, hi - 1, c);
      ReplyMembers(style, conversations, k, hi - 1, c);
    }
  }

  lemma {:induction false} ExportMembers(style: Style, conversations: seq<Conversation>, hi: nat, c: Chunk)
    requires hi <= |conversations|
    ensures c in ExportChunks(style, conversations, hi)
       <==> exists k: nat, p: nat, i: nat :: k < hi && FromPair(style, conversations, c, k, p, i)
    decreases hi
  {
    hide FromPair, ConversationChunks;
    if hi > 0 {
      ExportMembers(style, conversations, hi - 1, c);
      var k := hi - 1;
      ConversationMembers(style, conversations, k, |conversations[k].messages|, c);
      forall p: nat, i: nat | FromPair(style, conversations, c, k, p, i) ensures i < |conversations[k].messages| {
        PairIsInside(style, conversations, c, k, p, i);
      }
    }
  }

  lemma PairIsInside(style: Style, conversations: seq<Conversation>, c: Chunk, k: nat, p: nat, i: nat)
    requires FromPair(style, conversations, c, k, p, i)
    ensures k < |conversations| && p < i < |conversations[k].messages|
    ensures Trim(conversations[k].messages[i].content) != "" && Trim(conversations[k].messages[p].content) != ""
    ensures c.timestamp == MessageTime(conversations[k].messages[i], LineOf(k, i))
  {
  }

  /** The export emits exactly the turns of answered questions: a chunk is emitted if and only if it
      belongs to an answer with a waiting question, with nothing but ignored messages between them. */
  lemma ChatGPTEmitsPairs(style: Style, conversations: seq<Conversation>, c: Chunk)
    ensures c in ChatGPTChunks(style, conversations)
       <==> exists k: nat, p: nat, i: nat :: FromPair(style, conversations, c, k, p, i)
  {
    hide FromPair, ExportChunks;
    ExportMembers(style, conversations, |conversations|, c);
    forall k: nat, p: nat, i: nat | FromPair(style, conversations, c, k, p, i) ensures k < |conversations| {
      PairIsInside(style, conversations, c, k, p, i);
    }
  }
}
