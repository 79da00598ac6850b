/** The two passes over one snapshot together: the verdict of the first
    (internal/history/watch/forward.go:488-651) and the chunks of the second. */
module Capture {
  import opened Options
  import opened Chunk
  import opened Text
  import opened ForwardState
  import opened Forward
  import opened Assembly
  import opened Pairing
  import opened Eligibility
  import Claude
  import Codex
  import Gemini
  import ChatGPT

  datatype Source =
    | ClaudeSource(project: string, entries: seq<Claude.Entry>)
    | CodexSource(stem: string, events: seq<Codex.Event>)
    | GeminiSource(project: string, document: Gemini.Document)
    | ChatGPTSource(conversations: seq<ChatGPT.Conversation>)

  datatype Parsed = ParseFailed | Parsed(source: Source, issues: seq<Issue>)

  /** `inspectForwardEligibility`, before classification. */
  function Inspect(path: CleanPath, p: Parsed): Inspection {
    match p
    case ParseFailed => Unreadable
    case Parsed(source, issues) =>
      match source
      case ClaudeSource(_, entries) => WithIssues(issues, Inspected([], ClaudeEvidence(entries)))
      case CodexSource(_, events) => WithIssues(issues, Inspected(PathSessions(path), CodexEvidence(events)))
      case GeminiSource(_, d) => if issues != [] then Unreadable else GeminiInspection(d)
      case ChatGPTSource(cs) => if issues != [] then Unreadable else ExportInspection(cs)
  }

  /** `Registry.Dispatch`: the parsers skip records with issues and chunk the rest. */
  function ChunksOf(style: Style, source: Source): seq<Chunk> {
    match source
    case ClaudeSource(project, entries) => Claude.ClaudeChunks(style, project, entries)
    case CodexSource(stem, events) => Codex.CodexChunks(style, Codex.SessionOfStem(stem), events)
    case GeminiSource(project, d) => Gemini.GeminiChunks(style, project, d)
    case ChatGPTSource(cs) => ChatGPT.ChatGPTChunks(style, cs)
  }

  method InspectForwardEligibility(path: CleanPath, p: Parsed) returns (r: Inspection)
    ensures r == Inspect(path, p)
  {
    if p.ParseFailed? {
      return Unreadable;
    }
    match p.source {
      case ClaudeSource(_, entries) =>
        if InvalidTimestamp in p.issues {
          return Untimed([]);
        }
        if p.issues != [] {
          return Unreadable;
        }
        r := InspectClaude(entries);
      case CodexSource(_, events) =>
        if InvalidTimestamp in p.issues {
          return Untimed([]);
        }
        if p.issues != [] {
          return Unreadable;
        }
        r := InspectCodex(path, events);
      case GeminiSource(_, d) =>
        if p.issues != [] {
          return Unreadable;
        }
        r := InspectGemini(d);
      case ChatGPTSource(cs) =>
        if p.issues != [] {
          return Unreadable;
        }
        r := InspectChatGPT(cs);
    }
  }

  predicate AllCurrent(chunks: seq<Chunk>, cutoff: Time) {
    forall c :: c in chunks ==> Current(c.timestamp, cutoff)
  }

  predicate Accepts(path: CleanPath, source: Source, cutoff: Time) {
    Classify(Inspect(path, Parsed(source, [])), cutoff) == Accept
  }

  // ---- Codex, Gemini and ChatGPT --------------------------------------------------------------

  lemma CodexAgrees(style: Style, path: CleanPath, stem: string, session: string, events: seq<Codex.Event>, cutoff: Time)
    requires Accepts(path, CodexSource(stem, events), cutoff)
    ensures AllCurrent(Codex.CodexChunks(style, session, events), cutoff)
  {
    hide Codex.CodexChunks, Inspected;
    var ev := CodexEvidence(events);
    AcceptMeansAdmitted(PathSessions(path), ev, cutoff);
    Codex.CodexTimes(style, session, events);
    forall c | c in Codex.CodexChunks(style, session, events) ensures Current(c.timestamp, cutoff) {
      assert Codex.TimedByRecord(c, events);
      var i :| 0 <= i < |events| && c.timestamp == Codex.EventTime(events[i]);
      assert ev[i].counted;
    }
  }

  lemma GeminiAgrees(style: Style, path: CleanPath, project: string, d: Gemini.Document, cutoff: Time)
    requires Accepts(path, GeminiSource(project, d), cutoff)
    ensures AllCurrent(Gemini.GeminiChunks(style, project, d), cutoff)
  {
    hide Gemini.GeminiChunks;
    var times := GeminiTimes(d);
    forall c | c in Gemini.GeminiChunks(style, project, d) ensures Current(c.timestamp, cutoff) {
      Gemini.GeminiTimes(style, project, d, c);
      if i :| 0 <= i < |d.messages| && d.messages[i].time.value == c.timestamp {
        assert times[i] == c.timestamp;
      } else {
        var i :| 0 <= i < |d.events| && d.events[i].time.value == c.timestamp;
        assert times[|d.messages| + i] == c.timestamp;
      }
    }
  }

  lemma {:induction false} MessageIsEvidence(cs: seq<ChatGPT.Conversation>, hi: nat, k: nat, i: nat)
    requires k < hi <= |cs| && i < |cs[k].messages|
    ensures MessageEvidence(cs[k].messages[i]) in ExportEvidence(cs, hi)
    decreases hi
  {
    hide MessageEvidence, ConversationEvidence;
    var last := cs[hi - 1];
    assert ExportEvidence(cs, hi) == ExportEvidence(cs, hi - 1) + ConversationEvidence(last, |last.messages|);
    if k < hi - 1 {
      MessageIsEvidence(cs, hi - 1, k, i);
    } else {
      var ev := ConversationEvidence(last, |last.messages|);
      assert ev[i + 1] in ev;
    }
  }

  lemma ChatGPTAgrees(style: Style, path: CleanPath, cs: seq<ChatGPT.Conversation>, cutoff: Time)
    requires Accepts(path, ChatGPTSource(cs), cutoff)
    ensures AllCurrent(ChatGPT.ChatGPTChunks(style, cs), cutoff)
  {
    hide ChatGPT.ChatGPTChunks, Inspected, ExportEvidence, ChatGPT.FromPair, Trim;
    var ev := ExportEvidence(cs, |cs|);
    AcceptMeansAdmitted([], ev, cutoff);
    forall c | c in ChatGPT.ChatGPTChunks(style, cs) ensures Current(c.timestamp, cutoff) {
      ChatGPT.ChatGPTEmitsPairs(style, cs, c);
      var k: nat, p: nat, i: nat :| ChatGPT.FromPair(style, cs, c, k, p, i);
      ChatGPT.PairIsInside(style, cs, c, k, p, i);
      MessageIsEvidence(cs, |cs|, k, i);
    }
  }

  /** For Codex, Gemini and ChatGPT an accepting verdict already covers every chunk time. */
  lemma AcceptedTimesAreCurrent(style: Style, path: CleanPath, source: Source, cutoff: Time)
    requires Accepts(path, source, cutoff) && !source.ClaudeSource?
    ensures AllCurrent(ChunksOf(style, source), cutoff)
  {
    hide AllCurrent;
    match source {
      case CodexSource(stem, events) => CodexAgrees(style, path, stem, Codex.SessionOfStem(stem), events, cutoff);
      case GeminiSource(project, d) => GeminiAgrees(style, path, project, d, cutoff);
      case ChatGPTSource(cs) => ChatGPTAgrees(style, path, cs, cutoff);
    }
  }

  // ---- Claude ---------------------------------------------------------------------------------

  /** An answer without a message or summary whose old time stands for a question with text. */
  predicate StaleReply(entries: seq<Claude.Entry>, i: nat, cutoff: Time)
    requires i < |entries|
  {
    var e, p := entries[i], PendingAt(Claude.Parts(entries), i);
    && Claude.PartOf(e).Answer? && !Meaningful(e)
    && e.time.Some? && !Current(e.time.value, cutoff)
    && p.Some? && Trim(Claude.TextContent(entries[p.value].message)) != ""
  }

  predicate HasStaleReply(entries: seq<Claude.Entry>, cutoff: Time) {
    exists i :: 0 <= i < |entries| && StaleReply(entries, i, cutoff)
  }

  /** The chunk carries a time that some entry states, not a made-up one. */
  predicate Stated(entries: seq<Claude.Entry>, t: Time) {
    exists i :: 0 <= i < |entries| && entries[i].time == Some(t)
  }

  predicate Checked(entries: seq<Claude.Entry>, cutoff: Time) {
    forall i :: 0 <= i < |entries| && Meaningful(entries[i]) ==>
      entries[i].time.Some? && Current(entries[i].time.value, cutoff)
  }

  lemma SummaryIsMeaningful(e: Claude.Entry)
    requires Claude.SummaryText(e) != ""
    ensures Meaningful(e)
  {
  }

  lemma TextIsMeaningful(e: Claude.Entry)
    requires Trim(Claude.TextContent(e.message)) != ""
    ensures Meaningful(e) && e.message.Some?
  {
  }

  lemma OperationsNeedMessage(m: Option<Claude.Message>)
    ensures Claude.Operations(m) != [] ==> m.Some?
  {
  }

  lemma PairTimes(style: Style, project: string, user: Claude.Entry, assistant: Claude.Entry, c: Chunk)
    ensures c in Claude.PairChunks(style, project, user, assistant) ==>
              && !Claude.Silent(user, assistant)
              && (|| c.timestamp == Claude.EntryTime(assistant.time, user.time, assistant.line)
                  || (assistant.message.Some?
                      && c.timestamp == Claude.EntryTime(assistant.time, None, assistant.line)))
  {
    hide Claude.TurnChunks, Claude.EntryFileChunks, Claude.Silent, Claude.TextContent, Claude.Operations;
    if c in Claude.PairChunks(style, project, user, assistant) {
      var turns := Claude.TurnChunks(style, project, user, assistant);
      OperationsNeedMessage(assistant.message);
      var files := Claude.EntryFileChunks(style, project, assistant, Claude.TextContent(user.message), turns[0].id);
      var linked := turns[0 := turns[0].(childChunkIDs := Ids(files))];
      var k :| 0 <= k < |linked + files| && (linked + files)[k] == c;
      if k < |turns| {
        assert c.timestamp == turns[k].timestamp;
      } else {
        assert c == files[k - |turns|];
      }
    }
  }

  /** What one entry of an accepted transcript emits is timed by an entry, and is current unless the
      entry is a stale reply. */
  lemma EntryAgrees(style: Style, project: string, entries: seq<Claude.Entry>, i: nat, cutoff: Time, c: Chunk)
    requires i < |entries| && Checked(entries, cutoff)
    ensures c in Claude.EntryChunks(style, project, entries, i) ==>
              Stated(entries, c.timestamp) && (Current(c.timestamp, cutoff) || StaleReply(entries, i, cutoff))
  {
    hide Claude.SummaryText, Trim, Claude.TextContent, Claude.PairChunks, Claude.EntryFileChunks;
    var e := entries[i];
    var p := PendingAt(Claude.Parts(entries), i);
    if c in Claude.EntryChunks(style, project, entries, i) {
      if Claude.IsSummary(e) {
        SummaryIsMeaningful(e);
      } else if p.None? {
        var k :| 0 <= k < |Claude.Operations(e.message)| &&
          Claude.EntryFileChunks(style, project, e, Claude.UNPAIRED, "")[k] == c;
        assert Meaningful(e);
      } else {
        PairTimes(style, project, entries[p.value], e, c);
        if !Meaningful(e) {
          NoMessageNoText(e);
          TextIsMeaningful(entries[p.value]);
        }
      }
    }
  }

  lemma NoMessageNoText(e: Claude.Entry)
    requires e.message.None?
    ensures Trim(Claude.TextContent(e.message)) == ""
  {
  }

  /** A stale reply does emit a chunk with its old time. */
  lemma StaleReplyShows(style: Style, project: string, entries: seq<Claude.Entry>, i: nat, cutoff: Time)
    returns (c: Chunk)
    requires i < |entries| && StaleReply(entries, i, cutoff)
    ensures c in Claude.EntryChunks(style, project, entries, i) && !Current(c.timestamp, cutoff)
  {
    hide Claude.TurnChunks, Claude.EntryFileChunks, Trim, Claude.TextContent;
    var p := PendingAt(Claude.Parts(entries), i).value;
    var user, e := entries[p], entries[i];
    assert !Claude.Silent(user, e);
    var turns := Claude.TurnChunks(style, project, user, e);
    var files := Claude.EntryFileChunks(style, project, e, Claude.TextContent(user.message), turns[0].id);
    c := turns[0].(childChunkIDs := Ids(files));
    assert Claude.PairChunks(style, project, user, e)[0] == c;
  }

  lemma {:induction false} TranscriptMembers(style: Style, project: string, entries: seq<Claude.Entry>, hi: nat, c: Chunk)
    requires hi <= |entries|
    ensures c in Claude.TranscriptChunks(style, project, entries, hi)
       <==> exists i :: 0 <= i < hi && c in Claude.EntryChunks(style, project, entries, i)
    decreases hi
  {
    hide Claude.EntryChunks;
    if hi > 0 {
      TranscriptMembers(style, project, entries, hi - 1, c);
    }
  }

  lemma AcceptedIsChecked(path: CleanPath, project: string, entries: seq<Claude.Entry>, cutoff: Time)
    requires Accepts(path, ClaudeSource(project, entries), cutoff)
    ensures Checked(entries, cutoff)
  {
    hide Inspected, Meaningful;
    var ev := ClaudeEvidence(entries);
    AcceptMeansAdmitted([], ev, cutoff);
    forall i | 0 <= i < |entries| && Meaningful(entries[i])
      ensures entries[i].time.Some? && Current(entries[i].time.value, cutoff)
    {
      assert ev[i].counted;
    }
  }

  /** For Claude an accepting verdict rules out made-up times, and covers every chunk time exactly when
      no stale reply is in the transcript. */
  lemma ClaudeAcceptIsExact(style: Style, path: CleanPath, project: string, entries: seq<Claude.Entry>, cutoff: Time)
    requires Accepts(path, ClaudeSource(project, entries), cutoff)
    ensures forall c :: c in ChunksOf(style, ClaudeSource(project, entries)) ==> Stated(entries, c.timestamp)
    ensures AllCurrent(ChunksOf(style, ClaudeSource(project, entries)), cutoff) <==> !HasStaleReply(entries, cutoff)
  {
    hide Claude.TranscriptChunks, Claude.EntryChunks, StaleReply, Stated, Accepts;
    AcceptedIsChecked(path, project, entries, cutoff);
    var chunks := Claude.ClaudeChunks(style, project, entries);
    forall c | c in chunks ensures Stated(entries, c.timestamp)
      ensures Current(c.timestamp, cutoff) || HasStaleReply(entries, cutoff)
    {
      TranscriptMembers(style, project, entries, |entries|, c);
      var i :| 0 <= i < |entries| && c in Claude.EntryChunks(style, project, entries, i);
      EntryAgrees(style, project, entries, i, cutoff, c);
    }
    if HasStaleReply(entries, cutoff) {
      var i :| 0 <= i < |entries| && StaleReply(entries, i, cutoff);
      var c := StaleReplyShows(style, project, entries, i, cutoff);
      TranscriptMembers(style, project, entries, |entries|, c);
      assert c in chunks;
    }
  }

  function BareEntry(kind: Claude.EntryKind, message: Option<Claude.Message>, time: Time, line: nat): Claude.Entry {
    Claude.Entry(kind, message, "", false, "", Some(time), "", line)
  }

  const QUESTION := BareEntry(Claude.UserEntry, Some(Claude.Message("", Claude.Plain("hi"))), 20, 1)
  const LATE_REPLY := BareEntry(Claude.AssistantEntry, None, 5, 2)

  lemma SampleEvidence()
    ensures Meaningful(QUESTION) && !Meaningful(LATE_REPLY)
    ensures Trim(Claude.TextContent(QUESTION.message)) != ""
  {
  }

  lemma SampleIsAdmitted()
    ensures Admitted(ClaudeEvidence([QUESTION, LATE_REPLY]), 10)
  {
    SampleEvidence();
    hide Meaningful;
    var ev := ClaudeEvidence([QUESTION, LATE_REPLY]);
    assert ev[0].counted && !ev[1].counted;
  }

  lemma SampleIsStale()
    ensures StaleReply([QUESTION, LATE_REPLY], 1, 10)
  {
  }

  /** An accepted transcript whose turn is older than the cutoff: a current question answered by an old
      entry without a message. */
  lemma AcceptedClaudeMayBeStale(style: Style, path: CleanPath)
    ensures var source := ClaudeSource("/p", [QUESTION, LATE_REPLY]);
            Accepts(path, source, 10) && !AllCurrent(ChunksOf(style, source), 10)
  {
    hide Admitted, StaleReply, ChunksOf, Inspected, AllCurrent;
    var entries := [QUESTION, LATE_REPLY];
    SampleIsAdmitted();
    AcceptMeansAdmitted([], ClaudeEvidence(entries), 10);
    SampleIsStale();
    ClaudeAcceptIsExact(style, path, "/p", entries, 10);
  }

  // ---- Back in the producer -------------------------------------------------------------------

  /** The snapshot holds this source: it was inspected and, if dispatch works, chunked from it. */
  predicate SnapshotOf(s: Snapshot, style: Style, path: CleanPath, source: Source) {
    && s.inspection == Inspect(path, Parsed(source, []))
    && s.chunks == Some(ChunksOf(style, source))
  }

  /** The second test refuses an accepted snapshot only for an excluded session, or for the stale
      reply of a Claude transcript. */
  lemma SecondTestFindsLittle(m: Machine, s: Snapshot, style: Style, path: CleanPath, source: Source, c: Chunk)
    requires SnapshotOf(s, style, path, source) && Classify(s.inspection, m.state.cutoff) == Accept
    requires c in s.chunks.value && Stale(c, m.state)
    ensures || Lower(c.sessionID) in m.state.excludedSessions
            || (source.ClaudeSource? && HasStaleReply(source.entries, m.state.cutoff))
  {
    hide Inspect, ChunksOf;
    if source.ClaudeSource? {
      ClaudeAcceptIsExact(style, path, source.project, source.entries, m.state.cutoff);
    } else {
      AcceptedTimesAreCurrent(style, path, source, m.state.cutoff);
    }
  }
}
