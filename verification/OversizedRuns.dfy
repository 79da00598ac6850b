/** From a long turn in a source to a daemon that never gets past it.  A failing scan ends the daemon
    (cmd/history-ragd/main.go:200-203, internal/history/watch/producer.go:86-105), and whoever restarts it
    meets the same file again. */
module OversizedRuns {
  import opened Options
  import opened DurableSlot
  import opened Splitter
  import opened Assembly
  import opened Pairing
  import opened Plans
  import opened ForwardState
  import opened Forward
  import opened ForwardRuns
  import opened ForwardScans
  import opened Capture
  import opened CaptureSessions
  import opened ForwardSessions
  import opened Oversized
  import Codex
  import Gemini
  import ChatGPT

  /** A source of one of the looping splitters with a turn over 8000 bytes. */
  ghost predicate LongSource(style: Style, source: Source) {
    match source
    case ClaudeSource(_, _) => false
    case CodexSource(stem, events) =>
      exists p: nat :: HasLongTurn(style, Codex.StartSettings(Codex.SessionOfStem(stem)), Codex.Items(events), p)
    case GeminiSource(project, d) =>
      d.events == [] &&
      exists p: nat :: HasLongTurn(style, Gemini.StartSettings(d.session, project), Gemini.Items(d.messages), p)
    case ChatGPTSource(cs) =>
      exists k: nat, p: nat, i: nat :: LongPair(cs, k, p, i)
  }

  predicate LongPair(cs: seq<ChatGPT.Conversation>, k: nat, p: nat, i: nat) {
    && k < |cs| && Answers(ChatGPT.Parts(cs[k].messages), p, i)
    && |ChatGPT.TurnText(cs[k].messages[p], cs[k].messages[i], cs[k])| > MAX_CONTENT
  }

  lemma LongSourceIsRefused(style: Style, source: Source)
    requires LongSource(style, source)
    ensures AlwaysRefused(ChunksOf(style, source))
  {
    hide HasLongTurn, AlwaysRefused, Codex.CodexChunks, Gemini.GeminiChunks, ChatGPT.ChatGPTChunks;
    match source {
      case CodexSource(stem, events) =>
        var session := Codex.SessionOfStem(stem);
        var p: nat :| HasLongTurn(style, Codex.StartSettings(session), Codex.Items(events), p);
        LongCodexTurnIsRefused(style, session, events, p);
      case GeminiSource(project, d) =>
        var p: nat :| HasLongTurn(style, Gemini.StartSettings(d.session, project), Gemini.Items(d.messages), p);
        LongGeminiTurnIsRefused(style, project, d, p);
      case ChatGPTSource(cs) =>
        var k: nat, p: nat, i: nat :| LongPair(cs, k, p, i);
        LongChatGPTTurnIsRefused(style, cs, k, p, i);
    }
  }

  /** A new file with a stable identity whose snapshot holds this source. */
  predicate ShowsSource(s: ForwardState, v: Visit, style: Style, source: Source) {
    && Candidate(Live(v)) && !ExcludedVisit(s, v) && v.identity.Some? && v.snapshot.Some?
    && v.snapshot.value.identity == v.identity.value != NO_IDENTITY
    && !(v.path in s.progress && s.progress[v.path] == v.snapshot.value.digest)
    && SnapshotOf(v.snapshot.value, style, v.path, source)
  }

  /** A file with a long Codex, Gemini or ChatGPT turn that both tests let through is too long to upload. */
  lemma LongSourceIsTooLong(s: ForwardState, v: Visit, style: Style, source: Source)
    requires LongSource(style, source) && ShowsSource(s, v, style, source)
    requires Accepts(v.path, source, s.cutoff) && PassesTests(s.excludedSessions, v.path, style, source)
    ensures TooLong(s, v)
  {
    hide Inspect, ChunksOf, HasLongTurn, FirstStale, Classify, ContainsExcluded, Candidate, ExcludedVisit, Text.Lower;
    LongSourceIsRefused(style, source);
    NothingStale(s, style, v.path, source);
  }

  // ---- Runs -----------------------------------------------------------------------------------

  /** Only loads of this state and failed uploads of this path have happened. */
  predicate OnlyStarved(log: seq<Event>, later: seq<Event>, state: ForwardState, path: CleanPath) {
    && log <= later
    && forall j :: |log| <= j < |later| ==>
         later[j] == Loaded(state) || (later[j].Upserted? && later[j].path == path && !later[j].accepted)
  }

  /** The state is settled on disk, and the only one a producer works with. */
  predicate Holding(s: System, state: ForwardState) {
    s.slot == Slot(Some(state), {Some(state)}) && (s.tracker.Some? ==> s.tracker.value == state)
  }

  /** Scans are of this tree, with the store as the sink. */
  predicate SameTree(c: Command, visits: seq<Visit>, i: nat, strategy: Strategy)
    requires i < |visits|
  {
    c.Scan? ==> SameEntries(visits, c.visits) && StoreSink(c.visits[i], strategy)
  }

  lemma CommandStarves(s: System, state: ForwardState, c: Command, visits: seq<Visit>, i: nat, strategy: Strategy)
    requires Holding(s, state) && i < |visits| && Stops(state, visits, i) && SameTree(c, visits, i, strategy)
    ensures Holding(Apply(s, c), state) && OnlyStarved(s.log, Apply(s, c).log, state, visits[i].path)
  {
    hide Stops, StoreSink, ScanFrom, ValidState, OrderedRoots;
    match c {
      case Scan(again) =>
        if s.tracker.Some? {
          var m := Machine(state, s.slot, s.log);
          StopsForSameEntries(state, visits, again, i);
          ScanStops(m, again, 0, i, strategy);
          assert SameEntry(visits[i], again[i]);
        }
      case _ =>
    }
  }

  lemma StarvedAgain(a: seq<Event>, b: seq<Event>, c: seq<Event>, state: ForwardState, path: CleanPath)
    requires OnlyStarved(a, b, state, path) && OnlyStarved(b, c, state, path)
    ensures OnlyStarved(a, c, state, path)
  {
  }

  /** With its state settled on disk, a daemon whose walk meets a file with more than 500 chunks behind idle
      files never handles anything again: through every sequence of scans of that tree, exits, restarts and
      crashes, the state file stays as it is and only failed uploads of that one file are made. */
  lemma {:induction false} StarvesThroughRestarts(s: System, state: ForwardState, commands: seq<Command>,
                                                  visits: seq<Visit>, i: nat, strategy: Strategy)
    requires Holding(s, state) && i < |visits| && Stops(state, visits, i)
    requires forall k :: 0 <= k < |commands| ==> SameTree(commands[k], visits, i, strategy)
    ensures var s' := Execute(s, commands);
            Holding(s', state) && OnlyStarved(s.log, s'.log, state, visits[i].path)
    decreases |commands|
  {
    hide Holding, Stops, SameTree, Apply;
    if commands != [] {
      hide OnlyStarved;
      var n := |commands| - 1;
      StarvesThroughRestarts(s, state, commands[..n], visits, i, strategy);
      var mid := Execute(s, commands[..n]);
      CommandStarves(mid, state, commands[n], visits, i, strategy);
      StarvedAgain(s.log, mid.log, Apply(mid, commands[n]).log, state, visits[i].path);
    }
  }
}
