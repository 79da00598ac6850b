/** Files that exist when capture is enabled are never uploaded (docs/NATIVE_COMPATIBILITY_CONTRACT.md:48-56). */
module ForwardBaseline {
  import opened Options
  import opened Chunk
  import opened DurableSlot
  import opened ForwardState
  import opened Forward
  import opened ForwardRuns
  import opened ForwardGuarantees

  /** The upload has nothing to do with the file seen by this baseline entry. */
  ghost predicate Unrelated(u: Event, v: Visit)
    requires u.Upserted?
  {
    && u.path != v.path
    && (v.identity.Some? ==> u.identity != v.identity.value)
    && (forall i :: 0 <= i < |u.chunks| ==> !NamesSession(v.path, Text.Lower(u.chunks[i].sessionID)))
  }

  /** Enabling without a state file, with a write that reports nil, logs the exact baseline. */
  lemma EnableLogsBaseline(s: System, c: Command)
    requires c.Enable? && s.slot.visible.None? && Enabled(s, c).tracker.Some?
    ensures Unblocked(c.baseline)
    ensures Enabled(s, c).log == s.log + [Baselined(Excluding(FreshState(c.now, c.roots), c.baseline), Confirmed)]
  {
    hide Excluding, Unblocked, BaselineFrom;
    BaselineIsExact(FreshState(c.now, c.roots), c.baseline);
  }

  lemma ClearMeansUnrelated(u: Event, s: ForwardState, visits: seq<Visit>, i: nat)
    requires u.Upserted? && i < |visits| && Recognised(visits[i])
    requires var b := Excluding(s, visits); Clear(u, b.excludedPaths, b.excludedObjects, b.excludedSessions)
    ensures Unrelated(u, visits[i])
  {
    hide SessionFromPath, Text.Lower, NamesSession;
    forall j | 0 <= j < |u.chunks| ensures !NamesSession(visits[i].path, Text.Lower(u.chunks[j].sessionID)) {
      SessionIsNamedByPath(visits[i].path, Text.Lower(u.chunks[j].sessionID));
    }
    var b := Excluding(s, visits);
    assert visits[i].path in b.excludedPaths;
    assert visits[i].identity.Some? ==> visits[i].identity.value in b.excludedObjects;
    assert SessionFromPath(visits[i].path) != "" ==> SessionFromPath(visits[i].path) in b.excludedSessions;
  }

  /** The exact baseline stays where enablement logged it. */
  lemma BaselineIsLogged(before: seq<Command>, c: Command, after: seq<Command>)
    requires c.Enable? && Execute(FIRST_BOOT, before).slot.visible.None?
    requires Enabled(Execute(FIRST_BOOT, before), c).tracker.Some?
    ensures var s := Execute(FIRST_BOOT, before);
            var log := Execute(FIRST_BOOT, before + [c] + after).log;
            && |s.log| < |log|
            && log[|s.log|] == Baselined(Excluding(FreshState(c.now, c.roots), c.baseline), Confirmed)
  {
    hide Excluding, Enabled;
    var s := Execute(FIRST_BOOT, before);
    EnableLogsBaseline(s, c);
    assert (before + [c])[..|before + [c]| - 1] == before;
    ExecuteSplits(FIRST_BOOT, before + [c], after);
    ExecuteOnlyAppends(Execute(FIRST_BOOT, before + [c]), after);
  }

  /** If enablement finds no state file and returns a producer, then in every continuation of the run -
      scans, restarts, failed writes and crashes in any order - no upsert has the path or the file object
      of a recognised file that existed then, nor a chunk of the session such a path names. */
  lemma ExistingFilesAreNeverUploaded(before: seq<Command>, c: Command, after: seq<Command>, i: nat, k: nat)
    requires c.Enable? && Execute(FIRST_BOOT, before).slot.visible.None?
    requires Enabled(Execute(FIRST_BOOT, before), c).tracker.Some?
    requires i < |c.baseline| && Recognised(c.baseline[i])
    requires |Execute(FIRST_BOOT, before).log| < k < |Execute(FIRST_BOOT, before + [c] + after).log|
    requires Execute(FIRST_BOOT, before + [c] + after).log[k].Upserted?
    ensures Unrelated(Execute(FIRST_BOOT, before + [c] + after).log[k], c.baseline[i])
  {
    hide Excluding, Enabled, Clear, Unrelated, Execute;
    var s := Execute(FIRST_BOOT, before);
    var log := Execute(FIRST_BOOT, before + [c] + after).log;
    BaselineIsLogged(before, c, after);
    UploadsAreForwardOnly(before + [c] + after, k);
    assert Avoids(log[k], log[|s.log|]);
    ClearMeansUnrelated(log[k], FreshState(c.now, c.roots), c.baseline, i);
  }

  // ---- Since when -----------------------------------------------------------------------------

  /** The state file is there to stay, with this cutoff. */
  ghost predicate CutAt(s: System, cutoff: Time) {
    && Invariant(s) && None !in s.slot.survivors
    && s.slot.visible.Some? && s.slot.visible.value.cutoff == cutoff
  }

  lemma VisitStaysCut(m: Machine, v: Visit, seen: nat)
    requires None !in m.slot.survivors && m.slot.visible.Some? && m.slot.visible.value.cutoff == m.state.cutoff
    ensures var m' := VisitOne(m, v, seen).machine;
            && None !in m'.slot.survivors && m'.slot.visible.Some?
            && m'.slot.visible.value.cutoff == m'.state.cutoff == m.state.cutoff
  {
    hide FirstStale, Classify, ContainsExcluded, ReliableSessions;
  }

  lemma {:induction false} ScanStaysCut(m: Machine, visits: seq<Visit>, seen: nat)
    requires None !in m.slot.survivors && m.slot.visible.Some? && m.slot.visible.value.cutoff == m.state.cutoff
    ensures var m' := ScanFrom(m, visits, seen).machine;
            && None !in m'.slot.survivors && m'.slot.visible.Some?
            && m'.slot.visible.value.cutoff == m'.state.cutoff == m.state.cutoff
    decreases |visits|
  {
    hide VisitOne;
    if visits != [] {
      VisitStaysCut(m, visits[0], seen);
      var head := VisitOne(m, visits[0], seen);
      if !head.result.Failed? {
        ScanStaysCut(head.machine, visits[1..], head.seen);
      }
    }
  }

  lemma ApplyStaysCut(s: System, c: Command, cutoff: Time)
    requires CutAt(s, cutoff)
    ensures CutAt(Apply(s, c), cutoff)
  {
    hide GoodLog, ValidState, OrderedRoots, CoversLog, SoundProgress, CutoffFixed, ScanFrom, BaselineFrom;
    ApplyKeeps(s, c);
    match c {
      case Scan(visits) =>
        if s.tracker.Some? {
          ScanStaysCut(Machine(s.tracker.value, s.slot, s.log), visits, 0);
        }
      case PowerLoss(survivor) =>
        if survivor in s.slot.survivors {
          assert GoodState(survivor.value, s.log, cutoff);
        }
      case _ =>
    }
  }

  lemma {:induction false} RunStaysCut(s: System, commands: seq<Command>, cutoff: Time)
    requires CutAt(s, cutoff)
    ensures CutAt(Execute(s, commands), cutoff)
    decreases |commands|
  {
    hide CutAt, Apply;
    if commands != [] {
      RunStaysCut(s, commands[..|commands| - 1], cutoff);
      ApplyStaysCut(Execute(s, commands[..|commands| - 1]), commands[|commands| - 1], cutoff);
    }
  }

  /** The state that enablement stores: the clock reading, the roots, and nothing acknowledged. */
  lemma EnablementStores(s: System, c: Command)
    requires c.Enable? && s.slot.visible.None? && Enabled(s, c).tracker.Some?
    ensures var s' := Enabled(s, c);
            && s'.slot == Slot(Some(s'.tracker.value), {Some(s'.tracker.value)})
            && s'.tracker.value.cutoff == c.now && s'.tracker.value.roots == c.roots
            && s'.tracker.value.progress == map[] && s'.tracker.value.excludedPaths == RecognisedPaths(c.baseline)
            && s'.tracker.value.excludedObjects == RecognisedObjects(c.baseline)
  {
    hide Unblocked, BaselineFrom, RecognisedPaths, RecognisedObjects, RecognisedSessions;
    BaselineIsExact(FreshState(c.now, c.roots), c.baseline);
  }

  /** Enablement that finds no state file and returns a producer makes its clock reading the cutoff for good:
      in every continuation, each upsert has only chunk times and collected times from then on. */
  lemma UploadsAreSinceEnablement(before: seq<Command>, c: Command, after: seq<Command>, k: nat)
    requires c.Enable? && Execute(FIRST_BOOT, before).slot.visible.None?
    requires Enabled(Execute(FIRST_BOOT, before), c).tracker.Some?
    requires |Execute(FIRST_BOOT, before).log| < k < |Execute(FIRST_BOOT, before + [c] + after).log|
    requires Execute(FIRST_BOOT, before + [c] + after).log[k].Upserted?
    ensures var u := Execute(FIRST_BOOT, before + [c] + after).log[k];
            && (forall i :: 0 <= i < |u.chunks| ==> u.chunks[i].timestamp >= c.now)
            && u.snapshot.inspection.Timed?
            && (forall i :: 0 <= i < |u.snapshot.inspection.times| ==> u.snapshot.inspection.times[i] >= c.now)
  {
    hide Execute, Enabled, Excluding;
    var s := Execute(FIRST_BOOT, before);
    EnablementStores(s, c);
    ExecuteEnable(before, c);
    RunInvariant(before + [c]);
    RunStaysCut(Execute(FIRST_BOOT, before + [c]), after, c.now);
    ExecuteSplits(FIRST_BOOT, before + [c], after);
    BaselineIsLogged(before, c, after);
    CutoffIsFixedOnceStored(before + [c] + after, |s.log|, k);
    UploadsAreForwardOnly(before + [c] + after, k);
  }

  lemma ExecuteEnable(before: seq<Command>, c: Command)
    requires c.Enable?
    ensures Execute(FIRST_BOOT, before + [c]) == Enabled(Execute(FIRST_BOOT, before), c)
  {
    hide Enabled;
    assert (before + [c])[..|before + [c]| - 1] == before;
  }
}
