/** What every run of forward capture keeps: uploads are current and clear of exclusions, exclusions last,
    progress is sound and the cutoff does not move. */
module ForwardGuarantees {
  import opened Options
  import opened DurableSlot
  import opened ForwardState
  import opened Forward
  import opened ForwardRuns

  /** Each upsert is of current, unexcluded material: its chunks and every time its eligibility test
      collected are at or after the cutoff, and nothing acknowledged as excluded before it names its
      path, its file object or one of its sessions. */
  lemma UploadsAreForwardOnly(commands: seq<Command>, k: nat)
    requires k < |Execute(FIRST_BOOT, commands).log|
    requires Execute(FIRST_BOOT, commands).log[k].Upserted?
    ensures ForwardUpload(Execute(FIRST_BOOT, commands).log[k])
    ensures forall i :: 0 <= i < k ==>
              Avoids(Execute(FIRST_BOOT, commands).log[k], Execute(FIRST_BOOT, commands).log[i])
  {
    RunInvariant(commands);
  }

  // ---- Exclusions are permanent ---------------------------------------------------------------

  lemma VisitOnlyAppends(m: Machine, v: Visit, seen: nat)
    ensures m.log <= VisitOne(m, v, seen).machine.log
  {
  }

  lemma {:induction false} ScanOnlyAppends(m: Machine, visits: seq<Visit>, seen: nat)
    ensures m.log <= ScanFrom(m, visits, seen).machine.log
    decreases |visits|
  {
    if visits != [] {
      VisitOnlyAppends(m, visits[0], seen);
      var head := VisitOne(m, visits[0], seen);
      if !head.result.Failed? {
        ScanOnlyAppends(head.machine, visits[1..], head.seen);
      }
    }
  }

  lemma ApplyOnlyAppends(s: System, c: Command)
    ensures s.log <= Apply(s, c).log
  {
    if c.Scan? && s.tracker.Some? {
      ScanOnlyAppends(Machine(s.tracker.value, s.slot, s.log), c.visits, 0);
    }
  }

  lemma {:induction false} ExecuteSplits(s: System, before: seq<Command>, after: seq<Command>)
    ensures Execute(s, before + after) == Execute(Execute(s, before), after)
    decreases |after|
  {
    if after == [] {
      assert before + after == before;
    } else {
      var n := |after| - 1;
      assert (before + after)[..|before + after| - 1] == before + after[..n];
      ExecuteSplits(s, before, after[..n]);
    }
  }

  lemma {:induction false} ExecuteOnlyAppends(s: System, commands: seq<Command>)
    ensures s.log <= Execute(s, commands).log
    decreases |commands|
  {
    if commands != [] {
      ExecuteOnlyAppends(s, commands[..|commands| - 1]);
      ApplyOnlyAppends(Execute(s, commands[..|commands| - 1]), commands[|commands| - 1]);
    }
  }

  lemma {:induction false} ExecuteKeeps(s: System, commands: seq<Command>)
    requires Invariant(s)
    ensures Invariant(Execute(s, commands))
    decreases |commands|
  {
    hide Invariant, Apply;
    if commands != [] {
      ExecuteKeeps(s, commands[..|commands| - 1]);
      ApplyKeeps(Execute(s, commands[..|commands| - 1]), commands[|commands| - 1]);
    }
  }

  predicate AcknowledgedExclusion(e: Event) {
    (e.Baselined? || e.Refused?) && e.outcome == Confirmed
  }

  /** The exclusions of the event are in memory, on disk, and in everything a crash could bring back. */
  ghost predicate HeldEverywhere(s: System, e: Event) {
    && (s.tracker.Some? ==> Covers(s.tracker.value, e))
    && s.slot.visible.Some? && Covers(s.slot.visible.value, e)
    && forall x :: x in s.slot.survivors ==> x.Some? && Covers(x.value, e)
  }

  lemma AcknowledgedIsHeld(s: System, i: nat)
    requires Invariant(s) && i < |s.log| && AcknowledgedExclusion(s.log[i])
    ensures HeldEverywhere(s, s.log[i])
  {
    assert Stored(s.log[i]);
    assert EverStored(s.log);
    forall x | x in s.slot.survivors ensures x.Some? && Covers(x.value, s.log[i]) {
      assert x != None;
    }
  }

  /** From any state that satisfies the invariant, acknowledged exclusions stay through any continuation. */
  lemma AcknowledgedStaysHeld(s: System, after: seq<Command>, i: nat)
    requires Invariant(s) && i < |s.log| && AcknowledgedExclusion(s.log[i])
    ensures HeldEverywhere(Execute(s, after), s.log[i])
  {
    hide Invariant, HeldEverywhere, Execute;
    ExecuteKeeps(s, after);
    ExecuteOnlyAppends(s, after);
    AcknowledgedIsHeld(Execute(s, after), i);
  }

  /** A baseline or refusal whose state write returned nil is in memory, on disk, and in every value a
      machine crash could bring back, after any continuation of the run. */
  lemma AcknowledgedExclusionsPersist(before: seq<Command>, after: seq<Command>, i: nat)
    requires i < |Execute(FIRST_BOOT, before).log| && AcknowledgedExclusion(Execute(FIRST_BOOT, before).log[i])
    ensures HeldEverywhere(Execute(FIRST_BOOT, before + after), Execute(FIRST_BOOT, before).log[i])
  {
    hide Invariant, HeldEverywhere, Execute;
    RunInvariant(before);
    ExecuteSplits(FIRST_BOOT, before, after);
    AcknowledgedStaysHeld(Execute(FIRST_BOOT, before), after, i);
  }

  lemma VisitGrows(m: Machine, v: Visit, seen: nat)
    ensures var m' := VisitOne(m, v, seen).machine;
            ExclusionsWithin(m.state, m'.state) && m'.state.cutoff == m.state.cutoff
    ensures forall p :: p != v.path ==>
              (p in m.state.progress <==> p in VisitOne(m, v, seen).machine.state.progress)
    ensures forall p :: p != v.path && p in m.state.progress ==>
              VisitOne(m, v, seen).machine.state.progress[p] == m.state.progress[p]
  {
  }

  lemma {:induction false} ScanGrows(m: Machine, visits: seq<Visit>, seen: nat)
    ensures var m' := ScanFrom(m, visits, seen).machine;
            ExclusionsWithin(m.state, m'.state) && m'.state.cutoff == m.state.cutoff
    decreases |visits|
  {
    if visits != [] {
      VisitGrows(m, visits[0], seen);
      var head := VisitOne(m, visits[0], seen);
      if !head.result.Failed? {
        ScanGrows(head.machine, visits[1..], head.seen);
      }
    }
  }

  /** Memory and the state file hold the exclusions of `t`. */
  predicate Holds(s: System, t: ForwardState) {
    && (s.tracker.Some? ==> ExclusionsWithin(t, s.tracker.value))
    && s.slot.visible.Some? && ExclusionsWithin(t, s.slot.visible.value)
  }

  lemma VisitHolds(m: Machine, v: Visit, seen: nat, t: ForwardState)
    requires Holds(System(Some(m.state), m.slot, m.log), t)
    ensures var m' := VisitOne(m, v, seen).machine;
            Holds(System(Some(m'.state), m'.slot, m'.log), t)
  {
  }

  lemma {:induction false} ScanHolds(m: Machine, visits: seq<Visit>, seen: nat, t: ForwardState)
    requires Holds(System(Some(m.state), m.slot, m.log), t)
    ensures var m' := ScanFrom(m, visits, seen).machine;
            Holds(System(Some(m'.state), m'.slot, m'.log), t)
    decreases |visits|
  {
    if visits != [] {
      VisitHolds(m, visits[0], seen, t);
      var head := VisitOne(m, visits[0], seen);
      if !head.result.Failed? {
        ScanHolds(head.machine, visits[1..], head.seen, t);
      }
    }
  }

  lemma {:induction false} HeldThroughRestarts(s: System, t: ForwardState, after: seq<Command>)
    requires Holds(s, t)
    requires forall i :: 0 <= i < |after| ==> !after[i].PowerLoss?
    ensures Holds(Execute(s, after), t)
    decreases |after|
  {
    if after != [] {
      var n := |after| - 1;
      HeldThroughRestarts(s, t, after[..n]);
      var mid := Execute(s, after[..n]);
      var c := after[n];
      if c.Scan? && mid.tracker.Some? {
        ScanHolds(Machine(mid.tracker.value, mid.slot, mid.log), c.visits, 0, t);
      }
    }
  }

  /** Without a machine crash, every exclusion a tracker has ever worked with stays in memory and in
      the state file, however many later writes fail and however often the process restarts.  This
      also covers a baseline or refusal whose write failed after its rename, once a restart loaded it. */
  lemma TrackedExclusionsPersist(before: seq<Command>, after: seq<Command>)
    requires Execute(FIRST_BOOT, before).tracker.Some?
    requires forall i :: 0 <= i < |after| ==> !after[i].PowerLoss?
    ensures Holds(Execute(FIRST_BOOT, before + after), Execute(FIRST_BOOT, before).tracker.value)
  {
    RunInvariant(before);
    ExecuteSplits(FIRST_BOOT, before, after);
    HeldThroughRestarts(Execute(FIRST_BOOT, before), Execute(FIRST_BOOT, before).tracker.value, after);
  }

  // ---- Progress -------------------------------------------------------------------------------

  /** A digest recorded anywhere, in memory or on disk, stands for an accepted upsert of exactly the
      chunks of a snapshot of that path with that digest. */
  lemma ProgressIsSound(commands: seq<Command>)
    ensures var s := Execute(FIRST_BOOT, commands);
            && (s.tracker.Some? ==> SoundProgress(s.tracker.value, s.log))
            && forall x :: x in s.slot.survivors && x.Some? ==> SoundProgress(x.value, s.log)
  {
    RunInvariant(commands);
  }

  /** A state file that exists always loads again for the same roots. */
  lemma RestartReloads(commands: seq<Command>, c: Command)
    requires c.Enable? && c.readable
    requires Execute(FIRST_BOOT, commands).slot.visible.Some?
    requires c.roots == Execute(FIRST_BOOT, commands).slot.visible.value.roots
    ensures Execute(FIRST_BOOT, commands + [c]).tracker == Execute(FIRST_BOOT, commands).slot.visible
    ensures Execute(FIRST_BOOT, commands + [c]).slot == Execute(FIRST_BOOT, commands).slot
  {
    RunInvariant(commands);
    assert (commands + [c])[..|commands + [c]| - 1] == commands;
  }

  // ---- One cutoff -----------------------------------------------------------------------------

  /** Once any state write has been stored, every later upsert uses the cutoff in the state file, and
      no machine crash can remove that file. */
  lemma CutoffIsFixedOnceStored(commands: seq<Command>, i: nat, k: nat)
    requires i < k < |Execute(FIRST_BOOT, commands).log|
    requires Stored(Execute(FIRST_BOOT, commands).log[i])
    requires Execute(FIRST_BOOT, commands).log[k].Upserted?
    ensures var s := Execute(FIRST_BOOT, commands);
            && None !in s.slot.survivors && s.slot.visible.Some?
            && s.log[k].cutoff == s.slot.visible.value.cutoff
  {
    RunInvariant(commands);
    assert EverStored(Execute(FIRST_BOOT, commands).log);
  }

  /** Every upsert so far used the cutoff of the visible state file. */
  predicate OneCutoff(s: System) {
    forall k :: 0 <= k < |s.log| && s.log[k].Upserted? ==>
      s.slot.visible.Some? && s.log[k].cutoff == s.slot.visible.value.cutoff
  }

  lemma VisitOneCutoff(m: Machine, v: Visit, seen: nat)
    requires m.slot.visible.Some? && m.slot.visible.value.cutoff == m.state.cutoff
    requires OneCutoff(System(Some(m.state), m.slot, m.log))
    ensures var m' := VisitOne(m, v, seen).machine;
            && m'.slot.visible.Some? && m'.slot.visible.value.cutoff == m'.state.cutoff
            && OneCutoff(System(Some(m'.state), m'.slot, m'.log))
  {
    hide FirstStale, Classify, ContainsExcluded, ReliableSessions;
  }

  lemma {:induction false} ScanOneCutoff(m: Machine, visits: seq<Visit>, seen: nat)
    requires m.slot.visible.Some? && m.slot.visible.value.cutoff == m.state.cutoff
    requires OneCutoff(System(Some(m.state), m.slot, m.log))
    ensures var m' := ScanFrom(m, visits, seen).machine;
            && m'.slot.visible.Some? && m'.slot.visible.value.cutoff == m'.state.cutoff
            && OneCutoff(System(Some(m'.state), m'.slot, m'.log))
    decreases |visits|
  {
    if visits != [] {
      VisitOneCutoff(m, visits[0], seen);
      var head := VisitOne(m, visits[0], seen);
      if !head.result.Failed? {
        ScanOneCutoff(head.machine, visits[1..], head.seen);
      }
    }
  }

  /** Unless a machine crash takes the state file away, one cutoff serves the whole run. */
  lemma {:induction false} RunHasOneCutoff(commands: seq<Command>)
    requires forall i :: 0 <= i < |commands| ==> commands[i] != PowerLoss(None)
    ensures OneCutoff(Execute(FIRST_BOOT, commands))
    decreases |commands|
  {
    if commands != [] {
      var n := |commands| - 1;
      RunHasOneCutoff(commands[..n]);
      RunInvariant(commands[..n]);
      var s := Execute(FIRST_BOOT, commands[..n]);
      var c := commands[n];
      if c.Scan? && s.tracker.Some? {
        ScanOneCutoff(Machine(s.tracker.value, s.slot, s.log), c.visits, 0);
      }
    }
  }
}
