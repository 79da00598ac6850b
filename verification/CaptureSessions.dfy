/** Which sessions the chunks of a source carry, compared with what the two tests of forward capture look at.

    Exclusions are stored trimmed and in lower case (internal/history/watch/forward.go:455-459).  The first
    test normalises the sessions it collects the same way; the second only lower-cases the session of each
    chunk (internal/history/watch/forward.go:434-435). */
module CaptureSessions {
  import opened Options
  import opened Chunk
  import opened Text
  import opened ForwardState
  import opened Assembly
  import opened Eligibility
  import opened Capture
  import Claude
  import Codex
  import Gemini
  import ChatGPT

  // ---- Where chunk sessions come from ---------------------------------------------------------

  /** A session the first test collects from this source. */
  predicate Collected(source: Source, session: string) {
    match source
    case ClaudeSource(_, entries) => exists i :: 0 <= i < |entries| && entries[i].session == session != ""
    case CodexSource(_, events) =>
      exists i :: 0 <= i < |events| && events[i].body.SessionMeta? && events[i].body.id == session != ""
    case GeminiSource(_, d) => session == d.session
    case ChatGPTSource(cs) => exists k :: 0 <= k < |cs| && cs[k].id == session
  }

  /** A session a parser supplies itself. */
  predicate Supplied(source: Source, session: string) {
    match source
    case ClaudeSource(_, _) => session == "unknown"
    case CodexSource(stem, _) => session == Codex.StartSettings(Codex.SessionOfStem(stem)).session
    case _ => false
  }

  predicate IsEventLog(source: Source) {
    source.GeminiSource? && source.document.events != []
  }

  /** An event that emits chunks, with the session they carry. */
  predicate EventCarries(source: Source, i: int, session: string)
    requires IsEventLog(source)
  {
    var events := source.document.events;
    0 <= i < |events| && Trim(events[i].content) != "" && Gemini.EventSession(events[i]) == session
  }

  lemma ClaudeEntrySessions(style: Style, project: string, entries: seq<Claude.Entry>, i: nat, c: Chunk)
    requires i < |entries|
    ensures c in Claude.EntryChunks(style, project, entries, i) ==>
              Collected(ClaudeSource(project, entries), c.sessionID) || c.sessionID == "unknown"
  {
    hide Claude.TurnText, Claude.TextContent, Trim, Claude.Operations, Splitter.ClaudeParts;
    if c in Claude.EntryChunks(style, project, entries, i) {
      var e := entries[i];
      if !Claude.IsSummary(e) {
        var p := Pairing.PendingAt(Claude.Parts(entries), i);
        if p.Some? {
          PairSessions(style, project, entries[p.value], e, c);
        }
      }
    }
  }

  predicate SessionOfEither(user: Claude.Entry, assistant: Claude.Entry, session: string) {
    session == "unknown" || session == user.session != "" || session == assistant.session != ""
  }

  lemma TurnSessions(style: Style, project: string, user: Claude.Entry, assistant: Claude.Entry, k: nat)
    requires k < |Claude.TurnChunks(style, project, user, assistant)|
    ensures SessionOfEither(user, assistant, Claude.TurnChunks(style, project, user, assistant)[k].sessionID)
  {
    hide Claude.TurnText, Claude.TextContent, Trim, Splitter.ClaudeParts;
  }

  lemma FileSessions(style: Style, project: string, e: Claude.Entry, prompt: string, parent: string, k: nat)
    requires k < |Claude.EntryFileChunks(style, project, e, prompt, parent)|
    ensures SessionOfEither(e, e, Claude.EntryFileChunks(style, project, e, prompt, parent)[k].sessionID)
  {
    hide Claude.Operations;
  }

  lemma PairSessions(style: Style, project: string, user: Claude.Entry, assistant: Claude.Entry, c: Chunk)
    requires c in Claude.PairChunks(style, project, user, assistant)
    ensures SessionOfEither(user, assistant, c.sessionID)
  {
    hide Claude.TurnChunks, Claude.EntryFileChunks, Claude.TextContent, Claude.Operations, Claude.Silent;
    var turns := Claude.TurnChunks(style, project, user, assistant);
    var prompt := Claude.TextContent(user.message);
    var files := Claude.EntryFileChunks(style, project, assistant, prompt, turns[0].id);
    var linked := turns[0 := turns[0].(childChunkIDs := Ids(files))];
    var k :| 0 <= k < |linked + files| && (linked + files)[k] == c;
    if k < |turns| {
      TurnSessions(style, project, user, assistant, k);
    } else {
      FileSessions(style, project, assistant, prompt, turns[0].id, k - |turns|);
    }
  }

  /** The sessions of chunks: collected, supplied, or - for an event log - the raw sessions of its events. */
  lemma ChunkSessions(style: Style, source: Source, c: Chunk)
    requires c in ChunksOf(style, source)
    ensures || (!IsEventLog(source) && (Collected(source, c.sessionID) || Supplied(source, c.sessionID)))
            || (IsEventLog(source) && exists i :: EventCarries(source, i, c.sessionID))
  {
    hide Trim, Claude.EntryChunks, Claude.TranscriptChunks, Assembled, Gemini.EventChunks, ChatGPT.ExportChunks;
    match source {
      case ClaudeSource(project, entries) =>
        TranscriptMembers(style, project, entries, |entries|, c);
        var i :| 0 <= i < |entries| && c in Claude.EntryChunks(style, project, entries, i);
        ClaudeEntrySessions(style, project, entries, i, c);
      case CodexSource(stem, events) =>
        var start, items := Codex.StartSettings(Codex.SessionOfStem(stem)), Codex.Items(events);
        AssembledSessions(style, start, items, |items|);
        CodexSessions(start, events, c.sessionID);
      case GeminiSource(project, d) =>
        if d.events != [] {
          Gemini.EventSessions(style, project, d.events, |d.events|, c.sessionID);
          var i :| 0 <= i < |d.events| && Trim(d.events[i].content) != "" && Gemini.EventSession(d.events[i]) == c.sessionID;
          assert EventCarries(source, i, c.sessionID);
        } else {
          var start, items := Gemini.StartSettings(d.session, project), Gemini.Items(d.messages);
          AssembledSessions(style, start, items, |items|);
          assert SessionFrom(start, items, c.sessionID);
        }
      case ChatGPTSource(cs) =>
        ChatGPT.ChatGPTEmitsPairs(style, cs, c);
        var k: nat, p: nat, i: nat :| ChatGPT.FromPair(style, cs, c, k, p, i);
        assert cs[k].id == c.sessionID;
    }
  }

  lemma CodexSessions(start: Settings, events: seq<Codex.Event>, session: string)
    ensures SessionFrom(start, Codex.Items(events), session) ==>
              || session == start.session
              || exists i :: 0 <= i < |events| && events[i].body.SessionMeta? && events[i].body.id == session != ""
  {
    hide Trim, Codex.SummarizeTool;
    var items := Codex.Items(events);
    if i :| 0 <= i < |items| && items[i].update.session == session != "" {
      assert events[i].body.SessionMeta?;
    }
  }

  // ---- What the first test collects -----------------------------------------------------------

  lemma {:induction false} SessionsBeforeMembers(ev: seq<Evidence>, hi: nat, i: nat, session: Session)
    requires i < hi <= |ev| && session in ev[i].sessions
    ensures session in SessionsBefore(ev, hi)
    decreases hi
  {
    if i < hi - 1 {
      SessionsBeforeMembers(ev, hi - 1, i, session);
    }
  }

  lemma InspectedHolds(known: seq<Session>, ev: seq<Evidence>, i: nat, session: Session)
    requires i < |ev| && session in ev[i].sessions && Inspected(known, ev).Timed?
    ensures session in Sessions(Inspected(known, ev))
  {
    SessionsBeforeMembers(ev, |ev|, i, session);
  }

  lemma {:induction false} HeaderIsEvidence(cs: seq<ChatGPT.Conversation>, hi: nat, k: nat)
    requires k < hi <= |cs|
    ensures Evidence([cs[k].id], false, None) in ExportEvidence(cs, hi)
    decreases hi
  {
    hide MessageEvidence, ConversationEvidence;
    var c := cs[hi - 1];
    assert ExportEvidence(cs, hi) == ExportEvidence(cs, hi - 1) + ConversationEvidence(c, |c.messages|);
    if k < hi - 1 {
      HeaderIsEvidence(cs, hi - 1, k);
    } else {
      assert ConversationEvidence(c, |c.messages|)[0] in ConversationEvidence(c, |c.messages|);
    }
  }

  /** For an accepted source the first test sees every collected session. */
  lemma CollectedIsInspected(path: CleanPath, source: Source, cutoff: Time, session: string)
    requires Accepts(path, source, cutoff) && Collected(source, session)
    ensures session in Sessions(Inspect(path, Parsed(source, [])))
  {
    hide Inspected, PathSessions, ExportEvidence, Current;
    match source {
      case ClaudeSource(_, entries) =>
        var i :| 0 <= i < |entries| && entries[i].session == session != "";
        InspectedHolds([], ClaudeEvidence(entries), i, session);
      case CodexSource(_, events) =>
        var i :| 0 <= i < |events| && events[i].body.SessionMeta? && events[i].body.id == session != "";
        InspectedHolds(PathSessions(path), CodexEvidence(events), i, session);
      case GeminiSource(_, d) =>
      case ChatGPTSource(cs) =>
        var k :| 0 <= k < |cs| && cs[k].id == session;
        HeaderIsEvidence(cs, |cs|, k);
        var ev := ExportEvidence(cs, |cs|);
        var i :| 0 <= i < |ev| && ev[i] == Evidence([cs[k].id], false, None);
        InspectedHolds([], ev, i, session);
    }
  }

  lemma SuppliedIsNormal(source: Source, session: string)
    requires Supplied(source, session)
    ensures Normal(session) == Lower(session)
  {
    if session == "unknown" {
      assert Trim("unknown") == "unknown";
    } else {
      TrimNothing(session);
    }
  }

  // ---- The exact condition --------------------------------------------------------------------

  predicate NoneExcluded(excluded: set<Session>, chunks: seq<Chunk>) {
    forall c :: c in chunks ==> Normal(c.sessionID) !in excluded
  }

  /** What an upload has passed: neither test found one of these exclusions. */
  predicate PassesTests(excluded: set<Session>, path: CleanPath, style: Style, source: Source) {
    && !ContainsExcluded(excluded, Sessions(Inspect(path, Parsed(source, []))))
    && forall c :: c in ChunksOf(style, source) ==> Lower(c.sessionID) !in excluded
  }

  /** An event whose session is excluded once trimmed, and not before. */
  predicate Escapes(source: Source, excluded: set<Session>) {
    IsEventLog(source) &&
    exists i :: 0 <= i < |source.document.events| && EscapingEvent(source.document.events[i], excluded)
  }

  predicate EscapingEvent(e: Gemini.LogEvent, excluded: set<Session>) {
    var session := Gemini.EventSession(e);
    Trim(e.content) != "" && Normal(session) in excluded && Lower(session) !in excluded
  }

  lemma CollectedIsClear(path: CleanPath, source: Source, cutoff: Time, excluded: set<Session>, session: string)
    requires Accepts(path, source, cutoff) && Collected(source, session)
    requires !ContainsExcluded(excluded, Sessions(Inspect(path, Parsed(source, []))))
    ensures Normal(session) !in excluded
  {
    hide Normal, Accepts, Inspect, Collected;
    CollectedIsInspected(path, source, cutoff, session);
  }

  /** For an accepted source that passed both tests, no chunk has a session that is excluded once
      normalised - always for Claude, Codex, ChatGPT and Gemini documents, and for a Gemini event log if and
      only if no event escapes. */
  lemma SessionsEscapeExactly(style: Style, path: CleanPath, source: Source, cutoff: Time, excluded: set<Session>)
    requires Accepts(path, source, cutoff) && PassesTests(excluded, path, style, source)
    ensures NoneExcluded(excluded, ChunksOf(style, source)) <==> !Escapes(source, excluded)
  {
    hide Normal, Accepts, Inspect, Collected, Supplied, ContainsExcluded, ChunksOf, Trim, Lower;
    forall c | c in ChunksOf(style, source) && Normal(c.sessionID) in excluded ensures Escapes(source, excluded) {
      ChunkSessions(style, source, c);
      if IsEventLog(source) {
        var i :| EventCarries(source, i, c.sessionID);
        assert EscapingEvent(source.document.events[i], excluded);
      } else if Collected(source, c.sessionID) {
        CollectedIsClear(path, source, cutoff, excluded, c.sessionID);
        assert false;
      } else {
        SuppliedIsNormal(source, c.sessionID);
        assert false;
      }
    }
    if Escapes(source, excluded) {
      var i :| 0 <= i < |source.document.events| && EscapingEvent(source.document.events[i], excluded);
      EventIsChunked(style, source, i);
    }
  }

  lemma EventIsChunked(style: Style, source: Source, i: nat)
    requires IsEventLog(source) && i < |source.document.events| && Trim(source.document.events[i].content) != ""
    ensures exists c :: c in ChunksOf(style, source) && c.sessionID == Gemini.EventSession(source.document.events[i])
  {
    hide Trim, Gemini.EventSession, Gemini.EventChunks;
    var d := source.document;
    Gemini.EventSessions(style, source.project, d.events, |d.events|, Gemini.EventSession(d.events[i]));
  }
}
