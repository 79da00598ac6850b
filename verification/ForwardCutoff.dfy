/** When one cutoff serves a whole run: exactly from the moment a crash can no longer take the state file
    away (docs/NATIVE_COMPATIBILITY_CONTRACT.md:48-50). */
module ForwardCutoff {
  import opened Options
  import opened Chunk
  import opened DurableSlot
  import opened ForwardState
  import opened Forward
  import opened ForwardRuns
  import opened ForwardGuarantees

  // ---- A run that uploads under a chosen cutoff -----------------------------------------------

  lemma SamplePathsAreClean()
    ensures IsCleanAbsolute("/s") && IsCleanAbsolute("/s/f.jsonl")
  {
    var root, file := "/s", "/s/f.jsonl";
    assert root[1..] == "s";
    assert file[1..] == "s/f.jsonl" && file[3..] == "f.jsonl";
    assert forall i :: 0 <= i < |file| && file[i] == '/' ==> i == 0 || i == 2;
  }

  const SAMPLE_ROOT: CleanPath := (SamplePathsAreClean(); "/s")
  const SAMPLE_FILE: CleanPath := (SamplePathsAreClean(); "/s/f.jsonl")
  const SAMPLE_ROOTS := [RootState(SAMPLE_ROOT, Identity(1, 1))]

  function SampleChunk(t: Time): Chunk {
    Chunk("id", "text", Turn, "", "/p", "p", t, "", "", "", "", "", "/s/f.jsonl", 1, "", [], "m")
  }

  function SampleSnapshot(id: Identity, t: Time, digest: Digest): Snapshot {
    Snapshot(id, digest, Timed([t], []), Some([SampleChunk(t)]))
  }

  /** A file whose single chunk and single collected time are both `t`. */
  function SampleVisit(path: CleanPath, id: Identity, t: Time, digest: Digest, write: WriteOutcome): Visit {
    Visit(true, true, Regular, path, Detected, Some(id), Some(SampleSnapshot(id, t, digest)), true, true, write)
  }

  /** A new, accepted snapshot without stale chunks is uploaded. */
  lemma AcceptedIsUploaded(m: Machine, v: Visit, chunks: seq<Chunk>)
    requires Candidate(v) && !ExcludedVisit(m.state, v) && v.identity.Some? && v.closes && v.snapshot.Some?
    requires v.snapshot.value.identity == v.identity.value != NO_IDENTITY
    requires v.path in m.state.progress ==> m.state.progress[v.path] != v.snapshot.value.digest
    requires Classify(v.snapshot.value.inspection, m.state.cutoff) == Accept
    requires !ContainsExcluded(m.state.excludedSessions, Sessions(v.snapshot.value.inspection))
    requires v.snapshot.value.chunks == Some(chunks) && chunks != [] && FirstStale(chunks, m.state) == |chunks|
    ensures ScanFrom(m, [v], 0).machine == Upload(m, v, v.snapshot.value, chunks).0
  {
    hide Upload, FirstStale, Classify, ContainsExcluded;
  }

  lemma SampleIsFresh(s: ForwardState, t: Time)
    requires Current(t, s.cutoff) && ValidState(s)
    ensures FirstStale([SampleChunk(t)], s) == 1
  {
    Text.TrimEmpty("");
    assert Text.Lower("") == "";
    assert "" !in s.excludedSessions;
    assert !Stale([SampleChunk(t)][0], s);
  }

  /** A sample file at or after the cutoff is uploaded by any valid state that does not exclude it. */
  lemma SampleUploads(m: Machine, path: CleanPath, id: Identity, t: Time, digest: Digest, write: WriteOutcome)
    requires ValidState(m.state) && Current(t, m.state.cutoff) && id != NO_IDENTITY
    requires path !in m.state.excludedPaths && id !in m.state.excludedObjects
    requires path in m.state.progress ==> m.state.progress[path] != digest
    ensures var v := SampleVisit(path, id, t, digest, write);
            ScanFrom(m, [v], 0).machine == Upload(m, v, v.snapshot.value, [SampleChunk(t)]).0
  {
    hide Upload, FirstStale, ScanFrom, SampleChunk, ValidState;
    SampleIsFresh(m.state, t);
    AcceptedIsUploaded(m, SampleVisit(path, id, t, digest, write), [SampleChunk(t)]);
  }

  function SampleEnable(now: Instant, write: WriteOutcome): Command {
    Enable(SAMPLE_ROOTS, true, now, [], true, write)
  }

  function SampleScan(now: Instant, digest: Digest): Command {
    Scan([SampleVisit(SAMPLE_FILE, Identity(1, 2), now, digest, Unwritten)])
  }

  /** From a disk without a state file: enable, restart, and upload one new file. */
  lemma EnableAndUpload(s: System, now: Instant, digest: Digest, write: WriteOutcome)
    requires s.slot == Slot(None, {None}) && write != Unwritten
    ensures var s' := Apply(Apply(Apply(s, SampleEnable(now, write)), SampleEnable(now, write)), SampleScan(now, digest));
            && s.log <= s'.log && |s'.log| == |s.log| + 4
            && s'.log[|s.log| + 2].Upserted? && s'.log[|s.log| + 2].cutoff == now
            && (write == Unconfirmed ==> None in s'.slot.survivors)
  {
    hide ScanFrom;
    var state := FreshState(now, SAMPLE_ROOTS);
    assert BaselineFrom(state, []) == Some(state);
    assert ValidState(state);
    var s0 := Apply(s, SampleEnable(now, write));
    assert s0.slot == s.slot.Write(state, write) && s0.log == s.log + [Baselined(state, write)];
    var s1 := Apply(s0, SampleEnable(now, write));
    assert s1 == System(Some(state), s0.slot, s0.log + [Loaded(state)]);
    SampleUploads(Machine(state, s1.slot, s1.log), SAMPLE_FILE, Identity(1, 2), now, digest, Unwritten);
  }

  // ---- Exactly when ---------------------------------------------------------------------------

  ghost predicate HasUpload(log: seq<Event>) {
    exists k :: 0 <= k < |log| && log[k].Upserted?
  }

  /** No crash can remove the state file, and all uploads so far used its cutoff. */
  ghost predicate Pinned(s: System) {
    Invariant(s) && OneCutoff(s) && None !in s.slot.survivors
  }

  lemma VisitKeepsFile(m: Machine, v: Visit, seen: nat)
    requires None !in m.slot.survivors
    ensures None !in VisitOne(m, v, seen).machine.slot.survivors
  {
    hide FirstStale, Classify, ContainsExcluded, ReliableSessions;
  }

  lemma {:induction false} ScanKeepsFile(m: Machine, visits: seq<Visit>, seen: nat)
    requires None !in m.slot.survivors
    ensures None !in ScanFrom(m, visits, seen).machine.slot.survivors
    decreases |visits|
  {
    hide VisitOne;
    if visits != [] {
      VisitKeepsFile(m, visits[0], seen);
      var head := VisitOne(m, visits[0], seen);
      if !head.result.Failed? {
        ScanKeepsFile(head.machine, visits[1..], head.seen);
      }
    }
  }

  lemma ApplyPinned(s: System, c: Command)
    requires Pinned(s)
    ensures Pinned(Apply(s, c))
  {
    hide GoodLog, ValidState, OrderedRoots, CoversLog, SoundProgress, CutoffFixed, ScanFrom, BaselineFrom;
    ApplyKeeps(s, c);
    assert s.slot.visible.Some?;
    match c {
      case Scan(visits) =>
        if s.tracker.Some? {
          var m := Machine(s.tracker.value, s.slot, s.log);
          ScanOneCutoff(m, visits, 0);
          ScanKeepsFile(m, visits, 0);
        }
      case PowerLoss(survivor) =>
        if survivor in s.slot.survivors {
          assert GoodState(survivor.value, s.log, s.slot.visible.value.cutoff);
        }
      case _ =>
    }
  }

  lemma {:induction false} StaysPinned(s: System, after: seq<Command>)
    requires Pinned(s)
    ensures Pinned(Execute(s, after))
    decreases |after|
  {
    hide Pinned, Apply;
    if after != [] {
      StaysPinned(s, after[..|after| - 1]);
      ApplyPinned(Execute(s, after[..|after| - 1]), after[|after| - 1]);
    }
  }

  lemma ExecuteFour(s: System, a: Command, b: Command, c: Command, d: Command)
    ensures Execute(s, [a, b, c, d]) == Apply(Apply(Apply(Apply(s, a), b), c), d)
  {
    assert [a, b, c, d][..3] == [a, b, c] && [a, b, c][..2] == [a, b] && [a, b][..1] == [a] && [a][..0] == [];
    assert Execute(s, [a]) == Apply(Execute(s, []), a);
    assert Execute(s, [a, b]) == Apply(Execute(s, [a]), b);
    assert Execute(s, [a, b, c]) == Apply(Execute(s, [a, b]), c);
  }

  lemma TwoDigests() returns (a: Digest, b: Digest)
    ensures a != b
  {
    a, b := seq(64, _ => '0'), seq(64, _ => '1');
    assert a[0] != b[0];
  }

  /** If a crash can remove the state file after an upload, some continuation uploads under another cutoff. */
  lemma CrashMovesCutoff(s: System, k: nat) returns (after: seq<Command>)
    requires None in s.slot.survivors && k < |s.log| && s.log[k].Upserted?
    ensures !OneCutoff(Execute(s, after))
  {
    hide OrderedRoots, ScanFrom, Enabled;
    var digest, _ := TwoDigests();
    var now: Instant := if s.log[k].cutoff == 10 then 30 else 10;
    var enable, scan := SampleEnable(now, Confirmed), SampleScan(now, digest);
    after := [PowerLoss(None), enable, enable, scan];
    ExecuteFour(s, PowerLoss(None), enable, enable, scan);
    var s0 := Apply(s, PowerLoss(None));
    EnableAndUpload(s0, now, digest, Confirmed);
    var s' := Execute(s, after);
    assert s'.log[k] == s.log[k];
    assert s'.log[|s.log| + 2].cutoff != s'.log[k].cutoff;
  }

  /** After any run with an upload and a single cutoff so far: every continuation keeps to that cutoff if
      and only if no crash can take the state file away. */
  lemma OneCutoffExactlyWhenPinned(commands: seq<Command>)
    requires OneCutoff(Execute(FIRST_BOOT, commands)) && HasUpload(Execute(FIRST_BOOT, commands).log)
    ensures var s := Execute(FIRST_BOOT, commands);
            (forall after :: OneCutoff(Execute(s, after))) <==> None !in s.slot.survivors
  {
    var s := Execute(FIRST_BOOT, commands);
    RunInvariant(commands);
    if None in s.slot.survivors {
      var k :| 0 <= k < |s.log| && s.log[k].Upserted?;
      var after := CrashMovesCutoff(s, k);
      assert !OneCutoff(Execute(s, after));
    } else {
      forall after ensures OneCutoff(Execute(s, after)) {
        StaysPinned(s, after);
      }
    }
  }

  /** The condition can fail: the first state write is never confirmed, a restart loads it and uploads. */
  lemma FirstWriteMayBeUnpinned()
    ensures exists commands :: var s := Execute(FIRST_BOOT, commands);
              HasUpload(s.log) && OneCutoff(s) && None in s.slot.survivors
  {
    var digest, _ := TwoDigests();
    var enable, scan := SampleEnable(10, Unconfirmed), SampleScan(10, digest);
    var commands := [Stop, enable, enable, scan];
    ExecuteFour(FIRST_BOOT, Stop, enable, enable, scan);
    EnableAndUpload(FIRST_BOOT, 10, digest, Unconfirmed);
    RunHasOneCutoff(commands);
    var s := Execute(FIRST_BOOT, commands);
    assert s.log[2].Upserted?;
  }
}
