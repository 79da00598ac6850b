/** The first pass over a snapshot, `inspectForwardEligibility` (internal/history/watch/forward.go:488-637),
    and how its verdict relates to the chunks of the second pass. */
module Eligibility {
  import opened Options
  import opened Chunk
  import opened Text
  import opened ForwardState
  import Claude
  import Codex
  import Gemini
  import ChatGPT

  datatype Issue = InvalidTimestamp | OtherIssue

  /** One record as the first pass reads it: the sessions it names, and whether its time counts. */
  datatype Evidence = Evidence(sessions: seq<Session>, counted: bool, time: Option<Time>)

  predicate Missing(e: Evidence) {
    e.counted && e.time.None?
  }

  /** The first counted record without a time, or the length. */
  function FirstMissing(ev: seq<Evidence>, i: nat): (k: nat)
    requires i <= |ev|
    ensures i <= k <= |ev| && (k < |ev| ==> Missing(ev[k]))
    ensures forall j :: i <= j < k ==> !Missing(ev[j])
    decreases |ev| - i
  {
    if i == |ev| || Missing(ev[i]) then i else FirstMissing(ev, i + 1)
  }

  function SessionsBefore(ev: seq<Evidence>, hi: nat): seq<Session>
    requires hi <= |ev|
  {
    if hi == 0 then [] else SessionsBefore(ev, hi - 1) + ev[hi - 1].sessions
  }

  function TimesBefore(ev: seq<Evidence>, hi: nat): seq<Time>
    requires hi <= |ev|
  {
    if hi == 0 then []
    else TimesBefore(ev, hi - 1)
         + if ev[hi - 1].counted && ev[hi - 1].time.Some? then [ev[hi - 1].time.value] else []
  }

  /** What the first pass finds in these records, given sessions known beforehand. */
  function Inspected(known: seq<Session>, ev: seq<Evidence>): Inspection {
    var k := FirstMissing(ev, 0);
    if k < |ev| then Untimed(known + SessionsBefore(ev, k + 1))
    else Timed(TimesBefore(ev, |ev|), known + SessionsBefore(ev, |ev|))
  }

  /** Issues end the pass early: a bad timestamp refuses, anything else waits. */
  function WithIssues(issues: seq<Issue>, found: Inspection): Inspection {
    if InvalidTimestamp in issues then Untimed([]) else if issues != [] then Unreadable else found
  }

  lemma {:induction false} TimesBeforeMembers(ev: seq<Evidence>, hi: nat, t: Time)
    requires hi <= |ev|
    ensures t in TimesBefore(ev, hi) <==> exists i :: 0 <= i < hi && ev[i].counted && ev[i].time == Some(t)
    decreases hi
  {
    if hi > 0 {
      TimesBeforeMembers(ev, hi - 1, t);
    }
  }

  predicate Admitted(ev: seq<Evidence>, cutoff: Time) {
    && (exists i :: 0 <= i < |ev| && ev[i].counted)
    && (forall i :: 0 <= i < |ev| && ev[i].counted ==> ev[i].time.Some? && Current(ev[i].time.value, cutoff))
  }

  /** The verdict accepts exactly when some record counts and all that count are current. */
  lemma AcceptMeansAdmitted(known: seq<Session>, ev: seq<Evidence>, cutoff: Time)
    ensures Classify(Inspected(known, ev), cutoff) == Accept <==> Admitted(ev, cutoff)
  {
    var times := TimesBefore(ev, |ev|);
    forall t ensures t in times <==> exists i :: 0 <= i < |ev| && ev[i].counted && ev[i].time == Some(t) {
      TimesBeforeMembers(ev, |ev|, t);
    }
    if FirstMissing(ev, 0) == |ev| {
      if Classify(Inspected(known, ev), cutoff) == Accept {
        assert times[0] in times;
        forall i | 0 <= i < |ev| && ev[i].counted ensures ev[i].time.Some? && Current(ev[i].time.value, cutoff) {
          assert !Missing(ev[i]) && ev[i].time.value in times;
        }
      }
      if Admitted(ev, cutoff) {
        var i :| 0 <= i < |ev| && ev[i].counted;
        assert ev[i].time.value in times;
        forall k | 0 <= k < |times| ensures Current(times[k], cutoff) {
          assert times[k] in times;
        }
      }
    }
  }

  // ---- Claude ---------------------------------------------------------------------------------

  predicate Meaningful(e: Claude.Entry) {
    e.message.Some? || Trim(e.summary) != "" || e.compact
  }

  function ClaudeEvidenceOf(e: Claude.Entry): Evidence {
    Evidence(if e.session == "" then [] else [e.session], Meaningful(e), e.time)
  }

  function ClaudeEvidence(entries: seq<Claude.Entry>): (ev: seq<Evidence>)
    ensures |ev| == |entries| && forall i :: 0 <= i < |ev| ==> ev[i] == ClaudeEvidenceOf(entries[i])
  {
    seq(|entries|, i requires 0 <= i < |entries| => ClaudeEvidenceOf(entries[i]))
  }

  /** The Claude loop of the first pass. */
  method InspectClaude(entries: seq<Claude.Entry>) returns (r: Inspection)
    ensures r == Inspected([], ClaudeEvidence(entries))
  {
    hide Trim;
    ghost var ev := ClaudeEvidence(entries);
    var times: seq<Time>, sessions: seq<Session> := [], [];
    for i := 0 to |entries|
      invariant times == TimesBefore(ev, i) && sessions == SessionsBefore(ev, i)
      invariant FirstMissing(ev, 0) == FirstMissing(ev, i)
    {
      var e := entries[i];
      assert ev[i] == ClaudeEvidenceOf(e);
      assert SessionsBefore(ev, i) + [] == SessionsBefore(ev, i) && TimesBefore(ev, i) + [] == TimesBefore(ev, i);
      if e.session != "" {
        sessions := sessions + [e.session];
      }
      if !Meaningful(e) {
        continue;
      }
      if e.time.None? {
        assert [] + sessions == sessions;
        return Untimed(sessions);
      }
      times := times + [e.time.value];
    }
    assert [] + sessions == sessions;
    return Timed(times, sessions);
  }

  // ---- Codex ----------------------------------------------------------------------------------

  function CodexEvidenceOf(e: Codex.Event): Evidence {
    Evidence(if e.body.SessionMeta? && e.body.id != "" then [e.body.id] else [], true, e.time)
  }

  function CodexEvidence(events: seq<Codex.Event>): (ev: seq<Evidence>)
    ensures |ev| == |events| && forall i :: 0 <= i < |ev| ==> ev[i] == CodexEvidenceOf(events[i])
  {
    seq(|events|, i requires 0 <= i < |events| => CodexEvidenceOf(events[i]))
  }

  function PathSessions(path: CleanPath): seq<Session> {
    if SessionFromPath(path) == "" then [] else [SessionFromPath(path)]
  }

  /** The Codex branch of the first pass. */
  method InspectCodex(path: CleanPath, events: seq<Codex.Event>) returns (r: Inspection)
    ensures r == Inspected(PathSessions(path), CodexEvidence(events))
  {
    hide SessionFromPath, Inspected, CodexEvidence;
    var sessions: seq<Session> := [];
    if SessionFromPath(path) != "" {
      sessions := [SessionFromPath(path)];
    }
    r := InspectEvents(sessions, events);
  }

  /** Its loop, with the sessions known from the path. */
  method InspectEvents(known: seq<Session>, events: seq<Codex.Event>) returns (r: Inspection)
    ensures r == Inspected(known, CodexEvidence(events))
  {
    ghost var ev := CodexEvidence(events);
    var times: seq<Time>, sessions := [], known;
    for i := 0 to |events|
      invariant times == TimesBefore(ev, i) && sessions == known + SessionsBefore(ev, i)
      invariant FirstMissing(ev, 0) == FirstMissing(ev, i)
    {
      var e := events[i];
      assert ev[i] == CodexEvidenceOf(e);
      assert SessionsBefore(ev, i + 1) == SessionsBefore(ev, i) + ev[i].sessions;
      if e.body.SessionMeta? && e.body.id != "" {
        assert sessions + [e.body.id] == known + (SessionsBefore(ev, i) + [e.body.id]);
        sessions := sessions + [e.body.id];
      } else {
        assert SessionsBefore(ev, i) + [] == SessionsBefore(ev, i);
      }
      if e.time.None? {
        return Untimed(sessions);
      }
      times := times + [e.time.value];
    }
    return Timed(times, sessions);
  }

  // ---- ChatGPT --------------------------------------------------------------------------------

  function MessageEvidence(m: ChatGPT.Message): Evidence {
    Evidence([], Trim(m.content) != "", m.time)
  }

  /** A conversation names its session first; its messages follow. */
  function ConversationEvidence(c: ChatGPT.Conversation, hi: nat): (ev: seq<Evidence>)
    requires hi <= |c.messages|
    ensures |ev| == hi + 1 && ev[0] == Evidence([c.id], false, None)
    ensures forall i :: 0 <= i < hi ==> ev[i + 1] == MessageEvidence(c.messages[i])
  {
    [Evidence([c.id], false, None)] + seq(hi, i requires 0 <= i < hi => MessageEvidence(c.messages[i]))
  }

  function ExportEvidence(conversations: seq<ChatGPT.Conversation>, hi: nat): seq<Evidence>
    requires hi <= |conversations|
  {
    if hi == 0 then []
    else
      var c := conversations[hi - 1];
      ExportEvidence(conversations, hi - 1) + ConversationEvidence(c, |c.messages|)
  }

  /** What the first pass finds in a ChatGPT export. */
  function ExportInspection(conversations: seq<ChatGPT.Conversation>): Inspection {
    Inspected([], ExportEvidence(conversations, |conversations|))
  }

  /** Progress of the first pass through the records read so far, none of them missing a time. */
  ghost predicate Reading(ev: seq<Evidence>, times: seq<Time>, sessions: seq<Session>) {
    && times == TimesBefore(ev, |ev|)
    && sessions == SessionsBefore(ev, |ev|)
    && FirstMissing(ev, 0) == |ev|
  }

  lemma {:induction false} ReadMore(ev: seq<Evidence>, e: Evidence, hi: nat)
    requires hi <= |ev|
    ensures TimesBefore(ev + [e], hi) == TimesBefore(ev, hi) && SessionsBefore(ev + [e], hi) == SessionsBefore(ev, hi)
    decreases hi
  {
    if hi > 0 {
      ReadMore(ev, e, hi - 1);
    }
  }

  /** Reading one more record that lacks no time. */
  lemma ReadOne(ev: seq<Evidence>, e: Evidence, times: seq<Time>, sessions: seq<Session>)
    requires Reading(ev, times, sessions)
    ensures Missing(e) ==> Inspected([], ev + [e]) == Untimed(sessions + e.sessions)
    ensures !Missing(e) ==> Reading(ev + [e], times + (if e.counted then [e.time.value] else []), sessions + e.sessions)
  {
    ReadMore(ev, e, |ev|);
    var next := ev + [e];
    assert next[|ev|] == e;
    assert forall j :: 0 <= j < |ev| ==> next[j] == ev[j];
    assert [] + SessionsBefore(next, |next|) == SessionsBefore(next, |next|);
  }

  /** A missing time decides the pass, whatever follows. */
  lemma {:induction false} UntimedStays(ev: seq<Evidence>, rest: seq<Evidence>)
    requires Inspected([], ev).Untimed?
    ensures Inspected([], ev + rest) == Inspected([], ev)
  {
    var all := ev + rest;
    var k, k' := FirstMissing(ev, 0), FirstMissing(all, 0);
    assert all[k] == ev[k];
    assert forall j :: 0 <= j < k ==> all[j] == ev[j];
    SessionsPrefix(ev, rest, k + 1);
  }

  lemma {:induction false} SessionsPrefix(ev: seq<Evidence>, rest: seq<Evidence>, hi: nat)
    requires hi <= |ev|
    ensures SessionsBefore(ev + rest, hi) == SessionsBefore(ev, hi)
    decreases hi
  {
    if hi > 0 {
      SessionsPrefix(ev, rest, hi - 1);
    }
  }

  /** Later conversations do not undo a missing time found in an earlier one. */
  lemma {:induction false} ExportGrows(conversations: seq<ChatGPT.Conversation>, lo: nat, hi: nat)
    requires lo <= hi <= |conversations|
    ensures ExportEvidence(conversations, lo) <= ExportEvidence(conversations, hi)
    decreases hi
  {
    hide ConversationEvidence;
    if lo < hi {
      ExportGrows(conversations, lo, hi - 1);
    }
  }

  lemma ReadHeader(before: seq<Evidence>, c: ChatGPT.Conversation, times: seq<Time>, sessions: seq<Session>)
    requires Reading(before, times, sessions)
    ensures Reading(before + ConversationEvidence(c, 0), times, sessions + [c.id])
  {
    hide Reading, Inspected;
    var header := Evidence([c.id], false, None);
    ReadOne(before, header, times, sessions);
    assert times + [] == times;
    assert ConversationEvidence(c, 0) == [header];
  }

  /** Reading the next message of a conversation. */
  lemma ReadMessage(before: seq<Evidence>, c: ChatGPT.Conversation, i: nat, times: seq<Time>, sessions: seq<Session>)
    requires i < |c.messages| && Reading(before + ConversationEvidence(c, i), times, sessions)
    ensures var e := MessageEvidence(c.messages[i]);
            if Missing(e) then Inspected([], before + ConversationEvidence(c, |c.messages|)) == Untimed(sessions)
            else Reading(before + ConversationEvidence(c, i + 1),
                         if e.counted then times + [e.time.value] else times, sessions)
  {
    hide Reading, Inspected, Trim;
    var e := MessageEvidence(c.messages[i]);
    ReadOne(before + ConversationEvidence(c, i), e, times, sessions);
    var done := before + ConversationEvidence(c, i + 1);
    assert before + ConversationEvidence(c, i) + [e] == done;
    assert times + [] == times && sessions + [] == sessions;
    if Missing(e) {
      var rest := ConversationEvidence(c, |c.messages|)[i + 2..];
      UntimedStays(done, rest);
      assert done + rest == before + ConversationEvidence(c, |c.messages|);
    }
  }

  /** The inner ChatGPT loop; the flag says whether a message lacked its time. */
  method InspectConversation(ghost before: seq<Evidence>, c: ChatGPT.Conversation, times: seq<Time>,
                             sessions: seq<Session>)
    returns (missing: bool, times': seq<Time>, sessions': seq<Session>)
    requires Reading(before, times, sessions)
    ensures missing ==> Inspected([], before + ConversationEvidence(c, |c.messages|)) == Untimed(sessions')
    ensures !missing ==> Reading(before + ConversationEvidence(c, |c.messages|), times', sessions')
  {
    hide Trim, Reading, Inspected, ConversationEvidence;
    ReadHeader(before, c, times, sessions);
    times', sessions' := times, sessions + [c.id];
    for i := 0 to |c.messages|
      invariant Reading(before + ConversationEvidence(c, i), times', sessions')
    {
      var m := c.messages[i];
      ReadMessage(before, c, i, times', sessions');
      if Trim(m.content) == "" {
        continue;
      }
      if m.time.None? {
        return true, times', sessions';
      }
      times' := times' + [m.time.value];
    }
    return false, times', sessions';
  }

  lemma NothingRead()
    ensures Reading([], [], [])
  {
  }

  /** The ChatGPT loop of the first pass. */
  method InspectChatGPT(conversations: seq<ChatGPT.Conversation>) returns (r: Inspection)
    ensures r == ExportInspection(conversations)
  {
    hide ConversationEvidence, TimesBefore, SessionsBefore;
    var times: seq<Time>, sessions: seq<Session> := [], [];
    NothingRead();
    var n := |conversations|;
    for k := 0 to n
      invariant Reading(ExportEvidence(conversations, k), times, sessions)
    {
      var missing;
      missing, times, sessions :=
        InspectConversation(ExportEvidence(conversations, k), conversations[k], times, sessions);
      if missing {
        ghost var done, all := ExportEvidence(conversations, k + 1), ExportEvidence(conversations, n);
        ExportGrows(conversations, k + 1, n);
        UntimedStays(done, all[|done|..]);
        assert done + all[|done|..] == all;
        return Untimed(sessions);
      }
    }
    assert [] + sessions == sessions;
    return Timed(times, sessions);
  }

  // ---- Gemini ---------------------------------------------------------------------------------

  function GeminiTimes(d: Gemini.Document): (times: seq<Time>)
    requires Gemini.AllTimed(d)
    ensures |times| == |d.messages| + |d.events|
    ensures forall i :: 0 <= i < |d.messages| ==> times[i] == d.messages[i].time.value
    ensures forall i :: 0 <= i < |d.events| ==> times[|d.messages| + i] == d.events[i].time.value
  {
    seq(|d.messages|, i requires 0 <= i < |d.messages| => d.messages[i].time.value)
    + seq(|d.events|, i requires 0 <= i < |d.events| => d.events[i].time.value)
  }

  /** The first log event without a time. */
  function FirstUntimedEvent(events: seq<Gemini.LogEvent>, i: nat): (k: nat)
    requires i <= |events|
    ensures i <= k <= |events| && (k < |events| ==> events[k].time.None?)
    ensures forall j :: i <= j < k ==> events[j].time.Some?
    decreases |events| - i
  {
    if i == |events| || events[i].time.None? then i else FirstUntimedEvent(events, i + 1)
  }

  /** What the first pass finds in a Gemini document: an untimed message is blamed on the document's
      session, an untimed log event on its own. */
  function GeminiInspection(d: Gemini.Document): Inspection {
    if exists i :: 0 <= i < |d.messages| && d.messages[i].time.None? then Untimed([d.session])
    else
      var k := FirstUntimedEvent(d.events, 0);
      if k < |d.events| then Untimed([d.events[k].session]) else Timed(GeminiTimes(d), [d.session])
  }

  /** The Gemini loops of the first pass. */
  method InspectGemini(d: Gemini.Document) returns (r: Inspection)
    ensures r == GeminiInspection(d)
  {
    var times: seq<Time> := [];
    for i := 0 to |d.messages|
      invariant |times| == i
      invariant forall j :: 0 <= j < i ==> d.messages[j].time == Some(times[j])
    {
      if d.messages[i].time.None? {
        return Untimed([d.session]);
      }
      times := times + [d.messages[i].time.value];
    }
    for i := 0 to |d.events|
      invariant |times| == |d.messages| + i
      invariant forall j :: 0 <= j < |d.messages| ==> d.messages[j].time == Some(times[j])
      invariant forall j :: 0 <= j < i ==> d.events[j].time == Some(times[|d.messages| + j])
      invariant FirstUntimedEvent(d.events, 0) == FirstUntimedEvent(d.events, i)
    {
      if d.events[i].time.None? {
        return Untimed([d.events[i].session]);
      }
      times := times + [d.events[i].time.value];
    }
    assert times == GeminiTimes(d);
    return Timed(times, [d.session]);
  }
}
