/** What the looping splitters mean for a whole source: one turn over 8000 bytes makes more chunks than the
    store takes in one upsert (internal/history/store/plans.go:85-87), and the store is the sink of forward
    capture (cmd/history-ragd/main.go:196), so such a file fails every scan that reaches it. */
module Oversized {
  import opened Options
  import opened Chunk
  import opened Splitter
  import opened Assembly
  import opened Grouping
  import opened Pairing
  import opened Plans
  import opened ForwardState
  import opened Forward
  import opened ForwardScans
  import Codex
  import Gemini
  import ChatGPT

  // ---- Sources --------------------------------------------------------------------------------

  ghost predicate AlwaysRefused(chunks: seq<Chunk>) {
    |chunks| > OVERLAP && forall strategy :: !UpsertAccepted(strategy, Unembedded(chunks))
  }

  lemma TooManyChunks(chunks: seq<Chunk>)
    requires |chunks| > OVERLAP
    ensures AlwaysRefused(chunks)
  {
  }

  lemma LongGroup(style: Style, start: Settings, items: seq<Item>, p: nat, hi: nat)
    requires p < hi <= |items| && |GroupText(style, start, items, p, hi)| > MAX_CONTENT
    ensures |GroupOf(style, start, items, p, hi)| > OVERLAP
  {
    hide CodexParts, GroupText, GroupOf;
    GroupIsBlock(style, start, items, p, hi);
    CodexIsClaudeAndSuffixes(GroupText(style, start, items, p, hi));
  }

  /** Records whose opening p gathers a turn over 8000 bytes. */
  ghost predicate HasLongTurn(style: Style, start: Settings, items: seq<Item>, p: nat) {
    && p < |items| && items[p].role.Opening?
    && |GroupText(style, start, items, p, SliceEnd(items, p, |items|))| > MAX_CONTENT
  }

  lemma LongTurnIsRefused(style: Style, start: Settings, items: seq<Item>, p: nat)
    requires HasLongTurn(style, start, items, p)
    ensures AlwaysRefused(Assembled(style, start, items, |items|))
  {
    hide GroupText, GroupOf, Assembled, AlwaysRefused;
    var before, after := EveryOpeningHasItsGroup(style, start, items, p, |items|);
    LongGroup(style, start, items, p, SliceEnd(items, p, |items|));
    TooManyChunks(Assembled(style, start, items, |items|));
  }

  /** A Codex source with such a turn cannot be uploaded in any batch strategy. */
  lemma LongCodexTurnIsRefused(style: Style, session: string, events: seq<Codex.Event>, p: nat)
    requires HasLongTurn(style, Codex.StartSettings(session), Codex.Items(events), p)
    ensures AlwaysRefused(Codex.CodexChunks(style, session, events))
  {
    hide HasLongTurn, AlwaysRefused, Assembled;
    LongTurnIsRefused(style, Codex.StartSettings(session), Codex.Items(events), p);
  }

  /** Nor can a Gemini document with one. */
  lemma LongGeminiTurnIsRefused(style: Style, project: string, d: Gemini.Document, p: nat)
    requires d.events == []
    requires HasLongTurn(style, Gemini.StartSettings(d.session, project), Gemini.Items(d.messages), p)
    ensures AlwaysRefused(Gemini.GeminiChunks(style, project, d))
  {
    hide HasLongTurn, AlwaysRefused, Assembled;
    LongTurnIsRefused(style, Gemini.StartSettings(d.session, project), Gemini.Items(d.messages), p);
  }

  lemma {:induction false} ConversationHoldsReply(style: Style, c: ChatGPT.Conversation, index: nat, i: nat, hi: nat)
    requires i < hi <= |c.messages|
    ensures |ChatGPT.ReplyChunks(style, c, index, i)| <= |ChatGPT.ConversationChunks(style, c, index, hi)|
    decreases hi
  {
    hide ChatGPT.ReplyChunks;
    if i < hi - 1 {
      ConversationHoldsReply(style, c, index, i, hi - 1);
    }
  }

  lemma {:induction false} ExportHoldsConversation(style: Style, cs: seq<ChatGPT.Conversation>, k: nat, hi: nat)
    requires k < hi <= |cs|
    ensures |ChatGPT.ConversationChunks(style, cs[k], k, |cs[k].messages|)| <= |ChatGPT.ExportChunks(style, cs, hi)|
    decreases hi
  {
    hide ChatGPT.ConversationChunks;
    if k < hi - 1 {
      ExportHoldsConversation(style, cs, k, hi - 1);
    }
  }

  /** Nor can a ChatGPT export with an answered question whose turn is over 8000 bytes. */
  lemma LongChatGPTTurnIsRefused(style: Style, cs: seq<ChatGPT.Conversation>, k: nat, p: nat, i: nat)
    requires k < |cs| && Answers(ChatGPT.Parts(cs[k].messages), p, i)
    requires |ChatGPT.TurnText(cs[k].messages[p], cs[k].messages[i], cs[k])| > MAX_CONTENT
    ensures AlwaysRefused(ChatGPT.ChatGPTChunks(style, cs))
  {
    hide AlwaysRefused, CodexParts, ChatGPT.ConversationChunks, ChatGPT.ExportChunks, ChatGPT.TurnText;
    var c := cs[k];
    WaitingIsPending(ChatGPT.Parts(c.messages), p, i);
    CodexIsClaudeAndSuffixes(ChatGPT.TurnText(c.messages[p], c.messages[i], c));
    ConversationHoldsReply(style, c, k, i, |c.messages|);
    ExportHoldsConversation(style, cs, k, |cs|);
    TooManyChunks(ChatGPT.ChatGPTChunks(style, cs));
  }

  // ---- Scans with the store as the sink -------------------------------------------------------

  /** The sink accepts only what the store's upsert plan accepts. */
  predicate StoreSink(v: Visit, strategy: Strategy) {
    v.accepted && v.snapshot.Some? && v.snapshot.value.chunks.Some? ==>
      UpsertAccepted(strategy, Unembedded(v.snapshot.value.chunks.value))
  }

  /** A file that passes every test up to the upload, with more chunks than one upsert takes. */
  predicate TooLong(s: ForwardState, v: Visit) {
    && Candidate(Live(v)) && !ExcludedVisit(s, v) && v.identity.Some? && v.snapshot.Some?
    && var snapshot := v.snapshot.value;
       && snapshot.identity == v.identity.value != NO_IDENTITY
       && !(v.path in s.progress && s.progress[v.path] == snapshot.digest)
       && Classify(snapshot.inspection, s.cutoff) == Accept
       && !ContainsExcluded(s.excludedSessions, Sessions(snapshot.inspection))
       && snapshot.chunks.Some? && |snapshot.chunks.value| > MAX_UPSERT
       && FirstStale(snapshot.chunks.value, s) == |snapshot.chunks.value|
  }

  /** A file that needs nothing and changes nothing. */
  predicate Idle(s: ForwardState, v: Visit) {
    Candidate(Live(v)) ==>
      || ExcludedVisit(s, v)
      || (v.snapshot.Some? &&
          var snapshot := v.snapshot.value;
          || (v.path in s.progress && s.progress[v.path] == snapshot.digest)
          || Classify(snapshot.inspection, s.cutoff) == Wait
          || (Classify(snapshot.inspection, s.cutoff) == Accept && snapshot.chunks == Some([])
              && !ContainsExcluded(s.excludedSessions, Sessions(snapshot.inspection))))
  }

  /** Nothing but failed uploads of this path has happened. */
  predicate OnlyFailedUploads(log: seq<Event>, later: seq<Event>, path: CleanPath) {
    log <= later && forall j :: |log| <= j < |later| ==> later[j].Upserted? && later[j].path == path && !later[j].accepted
  }

  /** State, file and history are as before, failed uploads of this path apart. */
  predicate Stuck(m: Machine, m': Machine, path: CleanPath) {
    m'.state == m.state && m'.slot == m.slot && OnlyFailedUploads(m.log, m'.log, path)
  }

  lemma TooLongFails(m: Machine, v: Visit, seen: nat, strategy: Strategy)
    requires TooLong(m.state, v) && StoreSink(v, strategy)
    ensures var r := VisitOne(m, v, seen);
            r.result.Failed? && Stuck(m, r.machine, v.path)
  {
    hide FirstStale, Classify, ContainsExcluded, Acceptable;
  }

  lemma IdleChangesNothing(m: Machine, v: Visit, seen: nat)
    requires Idle(m.state, v)
    ensures VisitOne(m, v, seen).machine == m
  {
    hide FirstStale, Classify, ContainsExcluded, Forward.Upload;
  }

  /** Walk order: idle files, then the file that is too long, then anything. */
  predicate Stops(s: ForwardState, visits: seq<Visit>, i: nat) {
    i < |visits| && TooLong(s, visits[i]) && forall j :: 0 <= j < i ==> Idle(s, visits[j])
  }

  lemma {:induction false} ScanStops(m: Machine, visits: seq<Visit>, seen: nat, i: nat, strategy: Strategy)
    requires Stops(m.state, visits, i) && StoreSink(visits[i], strategy)
    ensures var r := ScanFrom(m, visits, seen);
            r.result.Failed? && Stuck(m, r.machine, visits[i].path)
    decreases i
  {
    hide TooLong, Idle, StoreSink, VisitOne, Stuck;
    if i == 0 {
      TooLongFails(m, visits[0], seen, strategy);
    } else {
      IdleChangesNothing(m, visits[0], seen);
      var head := VisitOne(m, visits[0], seen);
      if head.result.Failed? {
        StuckNowhere(m, visits[i].path);
      } else {
        assert forall j :: 0 <= j < i ==> visits[1..][j] == visits[j + 1];
        ScanStops(m, visits[1..], head.seen, i - 1, strategy);
      }
    }
  }

  lemma StuckNowhere(m: Machine, path: CleanPath)
    ensures Stuck(m, m, path)
  {
  }

  lemma StuckAgain(a: Machine, b: Machine, c: Machine, path: CleanPath)
    requires Stuck(a, b, path) && Stuck(b, c, path)
    ensures Stuck(a, c, path)
  {
  }

  lemma StopsForSameEntries(s: ForwardState, visits: seq<Visit>, again: seq<Visit>, i: nat)
    requires Stops(s, visits, i) && SameEntries(visits, again)
    ensures Stops(s, again, i)
  {
    hide TooLong, Idle;
    assert SameEntry(visits[i], again[i]);
    SameVerdict(s, visits[i], again[i]);
    forall j | 0 <= j < i ensures Idle(s, again[j]) {
      assert SameEntry(visits[j], again[j]);
      SameVerdict(s, visits[j], again[j]);
    }
  }

  lemma SameVerdict(s: ForwardState, v: Visit, w: Visit)
    requires SameEntry(v, w)
    ensures TooLong(s, v) <==> TooLong(s, w)
    ensures Idle(s, v) <==> Idle(s, w)
  {
    hide FirstStale, Classify, ContainsExcluded;
  }

  /** Once a walk reaches a file with more than 500 chunks behind idle files, every scan of that tree fails,
      nothing is recorded, and no file after it is ever handled - whatever the contexts, the state writes and
      the store answer. */
  lemma {:induction false} LongFileStarvesTheRest(m: Machine, visits: seq<Visit>, i: nat, scans: seq<seq<Visit>>,
                                                  strategy: Strategy)
    requires i < |visits| && Stops(m.state, visits, i)
    requires forall k :: 0 <= k < |scans| ==> SameEntries(visits, scans[k]) && StoreSink(scans[k][i], strategy)
    ensures Stuck(m, Rescan(m, scans), visits[i].path)
    ensures scans != [] ==> ScanFrom(Rescan(m, scans[..|scans| - 1]), scans[|scans| - 1], 0).result.Failed?
    decreases |scans|
  {
    hide Stuck, Stops, StoreSink, ScanFrom;
    if scans == [] {
      StuckNowhere(m, visits[i].path);
    } else {
      var n := |scans| - 1;
      LongFileStarvesTheRest(m, visits, i, scans[..n], strategy);
      var mid := Rescan(m, scans[..n]);
      SameState(m, mid, visits[i].path);
      StopsForSameEntries(m.state, visits, scans[n], i);
      ScanStops(mid, scans[n], 0, i, strategy);
      assert SameEntry(visits[i], scans[n][i]);
      StuckAgain(m, mid, ScanFrom(mid, scans[n], 0).machine, visits[i].path);
    }
  }

  lemma SameState(m: Machine, m': Machine, path: CleanPath)
    requires Stuck(m, m', path)
    ensures m'.state == m.state
  {
  }
}
