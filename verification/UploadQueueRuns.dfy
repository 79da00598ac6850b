/** Whole runs of the upload queue: opening, failed writes, restarts and machine crashes in any order
    (internal/history/uploadqueue/queue.go:36-188). */
module UploadQueueRuns {
  import opened Options
  import opened Chunk
  import opened DurableSlot
  import opened UploadQueue

  /** What happened to the file: a value became the only one a crash can bring back, or a save was renamed
      into place without being synced. */
  datatype DiskEvent = Settled(value: Option<Items>) | Renamed(items: Items)

  /** The queue while a process has it open, its file, and the file's history.  `ceiling` is the largest
      capacity used so far. */
  datatype System = System(queue: Option<(Items, nat)>, slot: Slot<Items>, ceiling: nat, disk: seq<DiskEvent>)

  datatype Command =
    | Open(capacity: nat, readable: bool)
    | Enqueue(item: Item, write: WriteOutcome)
    | Ack(id: string, write: WriteOutcome)
    | Retry(id: string, next: Time, write: WriteOutcome)
    | Stop
    | PowerLoss(survivor: Option<Items>)

  function Opened(s: System, capacity: nat): System {
    var loaded := if s.slot.visible.Some? then s.slot.visible.value else map[];
    if capacity < 1 || |loaded| > capacity || !ValidItems(loaded) then s.(queue := None)
    else s.(queue := Some((loaded, capacity)), ceiling := if capacity > s.ceiling then capacity else s.ceiling)
  }

  predicate Writes(c: Command) {
    c.Enqueue? || c.Ack? || c.Retry?
  }

  /** The map a command tries to save, or none when it answers without writing. */
  function Attempt(items: Items, capacity: nat, c: Command): Option<Items> {
    match c
    case Enqueue(v, _) =>
      if ValidItem(v) && v.id !in items && |items| < capacity then Some(items[v.id := v]) else None
    case Ack(id, _) => if id in items then Some(items - {id}) else None
    case Retry(id, next, _) =>
      if next != ZERO_TIME && id in items then
        Some(items[id := items[id].(attempts := items[id].attempts + 1, next := next)])
      else None
    case _ => None
  }

  /** The operation a command calls. */
  function Operation(q: View, c: Command): (View, Reply) {
    match c
    case Enqueue(v, write) => Enqueued(q, v, write)
    case Ack(id, write) => Acked(q, id, write)
    case Retry(id, next, write) => Retried(q, id, next, write)
    case _ => (q, Nil)
  }

  function DiskAfter(disk: seq<DiskEvent>, next: Items, write: WriteOutcome): seq<DiskEvent> {
    match write
    case Unwritten => disk
    case Unconfirmed => disk + [Renamed(next)]
    case _ => disk + [Settled(Some(next))]
  }

  function Saving(s: System, next: Items, write: WriteOutcome): System
    requires s.queue.Some?
  {
    s.(queue := if write.Confirmed? then Some((next, s.queue.value.1)) else s.queue,
       slot := s.slot.Write(next, write), disk := DiskAfter(s.disk, next, write))
  }

  function Apply(s: System, c: Command): System {
    match c
    case Open(capacity, readable) => if readable then Opened(s, capacity) else s.(queue := None)
    case Stop => s.(queue := None)
    case PowerLoss(survivor) =>
      if survivor in s.slot.survivors then
        System(None, s.slot.Crash(survivor), s.ceiling, s.disk + [Settled(survivor)])
      else s
    case _ =>
      if s.queue.None? then s
      else
        var next := Attempt(s.queue.value.0, s.queue.value.1, c);
        if next.None? then s else Saving(s, next.value, c.write)
  }

  function Queued(s: System): View
    requires s.queue.Some?
  {
    View(s.queue.value.0, s.queue.value.1, s.slot)
  }

  /** A write command does to memory and file what the queue's own operation does. */
  lemma CommandsAreOperations(s: System, c: Command)
    requires s.queue.Some? && Writes(c)
    ensures Apply(s, c).queue.Some? && Queued(Apply(s, c)) == Operation(Queued(s), c).0
  {
  }

  function Execute(s: System, commands: seq<Command>): System
    decreases |commands|
  {
    if commands == [] then s
    else Apply(Execute(s, commands[..|commands| - 1]), commands[|commands| - 1])
  }

  const FIRST_BOOT := System(None, Slot(None, {None}), 0, [Settled(None)])

  // ---- Sizes ----------------------------------------------------------------------------------

  predicate Fits(items: Items, capacity: nat) {
    ValidItems(items) && |items| <= capacity
  }

  ghost predicate Sound(s: System) {
    && s.slot.Valid()
    && (forall x :: x in s.slot.survivors && x.Some? ==> Fits(x.value, s.ceiling))
    && (s.queue.Some? ==>
          && s.queue.value.1 <= s.ceiling && Fits(s.queue.value.0, s.queue.value.1)
          && (s.slot.visible.Some? ==> Fits(s.slot.visible.value, s.queue.value.1)))
  }

  lemma SmallerFits(items: Items, id: string, capacity: nat)
    requires Fits(items, capacity) && id in items
    ensures Fits(items - {id}, capacity)
  {
    hide ValidItem;
    assert items.Keys == (items - {id}).Keys + {id};
  }

  lemma UpdatedFits(items: Items, v: Item, capacity: nat)
    requires Fits(items, capacity) && ValidItem(v) && (v.id in items || |items| < capacity)
    ensures Fits(items[v.id := v], capacity)
  {
    hide ValidItem;
    assert items[v.id := v].Keys == items.Keys + {v.id};
  }

  lemma AttemptFits(items: Items, capacity: nat, c: Command)
    requires Fits(items, capacity) && Attempt(items, capacity, c).Some?
    ensures Fits(Attempt(items, capacity, c).value, capacity)
  {
    match c {
      case Enqueue(v, _) =>
        hide Fits, ValidItem;
        UpdatedFits(items, v, capacity);
      case Ack(id, _) =>
        hide Fits;
        SmallerFits(items, id, capacity);
      case Retry(id, next, _) =>
        MemberIsValid(items, id);
        hide Fits;
        UpdatedFits(items, items[id].(attempts := items[id].attempts + 1, next := next), capacity);
    }
  }

  lemma ApplyIsSound(s: System, c: Command)
    requires Sound(s)
    ensures Sound(Apply(s, c))
  {
    hide ValidItems, Attempt;
    if s.queue.Some? && Writes(c) {
      var next := Attempt(s.queue.value.0, s.queue.value.1, c);
      if next.Some? {
        AttemptFits(s.queue.value.0, s.queue.value.1, c);
      }
    }
  }

  /** In every run: memory and the file both fit the capacity of the open queue, and every map a crash can
      bring back fits the largest capacity ever used. */
  lemma {:induction false} SizesAreBounded(commands: seq<Command>)
    ensures Sound(Execute(FIRST_BOOT, commands))
    decreases |commands|
  {
    hide Apply, Fits;
    if commands != [] {
      var n := |commands| - 1;
      SizesAreBounded(commands[..n]);
      ApplyIsSound(Execute(FIRST_BOOT, commands[..n]), commands[n]);
    }
  }

  // ---- Durability of an enqueued item ---------------------------------------------------------

  /** The map holds this work; `Retry` may have changed its attempts and next time. */
  predicate Holds(items: Items, v: Item) {
    v.id in items && items[v.id].id == v.id && items[v.id].source == v.source && items[v.id].payload == v.payload
  }

  predicate HoldsIn(value: Option<Items>, v: Item) {
    value.Some? && Holds(value.value, v)
  }

  /** The work is in memory, in the file, and in everything a crash can bring back. */
  ghost predicate Kept(s: System, v: Item) {
    && s.slot.visible in s.slot.survivors
    && (forall x :: x in s.slot.survivors ==> HoldsIn(x, v))
    && (s.queue.Some? ==> Holds(s.queue.value.0, v))
  }

  /** Every command except an Ack of the item keeps it, whatever the write does. */
  lemma StepKeeps(s: System, c: Command, v: Item)
    requires Kept(s, v) && (c.Ack? ==> c.id != v.id)
    ensures Kept(Apply(s, c), v)
  {
    hide ValidItem, ValidItems;
    if s.queue.Some? && Writes(c) {
      var next := Attempt(s.queue.value.0, s.queue.value.1, c);
      if next.Some? {
        assert Holds(next.value, v);
        hide Holds, Attempt;
        assert Kept(Saving(s, next.value, c.write), v);
      }
    }
  }

  predicate NeverAcked(commands: seq<Command>, id: string) {
    forall i :: 0 <= i < |commands| ==> commands[i].Ack? ==> commands[i].id != id
  }

  lemma {:induction false} RunKeeps(s: System, commands: seq<Command>, v: Item)
    requires Kept(s, v) && NeverAcked(commands, v.id)
    ensures Kept(Execute(s, commands), v)
    decreases |commands|
  {
    hide Apply, Kept;
    if commands != [] {
      var n := |commands| - 1;
      RunKeeps(s, commands[..n], v);
      StepKeeps(Execute(s, commands[..n]), commands[n], v);
    }
  }

  /** The item stays, in memory and on disk, through every continuation without an Ack of it. */
  ghost predicate Survives(s: System, v: Item) {
    forall after :: NeverAcked(after, v.id) ==> Kept(Execute(s, after), v)
  }

  lemma KeptSurvives(s: System, v: Item)
    ensures Kept(s, v) <==> Survives(s, v)
  {
    hide Kept;
    if Kept(s, v) {
      forall after | NeverAcked(after, v.id) ensures Kept(Execute(s, after), v) {
        RunKeeps(s, after, v);
      }
    }
    assert Execute(s, []) == s && NeverAcked([], v.id);
  }

  ghost predicate ReturnsNil(s: System, v: Item, write: WriteOutcome) {
    s.queue.Some? && Enqueued(Queued(s), v, write).1 == Nil
  }

  /** An item whose Enqueue wrote it survives every later failed write, restart and crash until an Ack
      of it is attempted. */
  lemma EnqueuedItemSurvives(s: System, v: Item, write: WriteOutcome)
    requires ReturnsNil(s, v, write) && v.id !in s.queue.value.0
    ensures Survives(Apply(s, Enqueue(v, write)), v)
  {
    hide Survives;
    KeptSurvives(Apply(s, Enqueue(v, write)), v);
  }

  // ---- When a repeated Enqueue is safe --------------------------------------------------------

  function ValueOf(e: DiskEvent): Option<Items> {
    match e
    case Settled(value) => value
    case Renamed(items) => Some(items)
  }

  /** The values of the last settled event and of all renames since. */
  function Recent(disk: seq<DiskEvent>): set<Option<Items>> {
    if disk == [] then {}
    else
      var last := disk[|disk| - 1];
      if last.Settled? then {ValueOf(last)} else Recent(disk[..|disk| - 1]) + {ValueOf(last)}
  }

  /** A settled write stored the item, and no later write that reached the directory lacked it. */
  predicate SafelyStored(disk: seq<DiskEvent>, v: Item) {
    exists i :: 0 <= i < |disk| && disk[i].Settled? && StoredFrom(disk, i, v)
  }

  predicate StoredFrom(disk: seq<DiskEvent>, i: nat, v: Item) {
    forall j :: i <= j < |disk| ==> HoldsIn(ValueOf(disk[j]), v)
  }

  lemma {:induction false} RecentHolds(disk: seq<DiskEvent>, v: Item)
    requires disk != [] && disk[0].Settled?
    ensures (forall x :: x in Recent(disk) ==> HoldsIn(x, v)) <==> SafelyStored(disk, v)
    decreases |disk|
  {
    hide HoldsIn, ValueOf;
    var n := |disk| - 1;
    var last := disk[n];
    if last.Settled? {
      if HoldsIn(ValueOf(last), v) {
        assert StoredFrom(disk, n, v);
      }
    } else {
      RecentHolds(disk[..n], v);
      if SafelyStored(disk[..n], v) && HoldsIn(ValueOf(last), v) {
        var i :| 0 <= i < n && disk[..n][i].Settled? && StoredFrom(disk[..n], i, v);
        forall j | i <= j < |disk| ensures HoldsIn(ValueOf(disk[j]), v) {
          if j < n {
            assert disk[..n][j] == disk[j];
          }
        }
        assert StoredFrom(disk, i, v);
      }
      if SafelyStored(disk, v) {
        var i :| 0 <= i < |disk| && disk[i].Settled? && StoredFrom(disk, i, v);
        assert i < n && disk[..n][i].Settled?;
        assert StoredFrom(disk[..n], i, v);
      }
    }
  }

  /** The history explains the file: what is visible was written last, and what a crash can bring back is
      the last settled value and every rename since. */
  ghost predicate Explained(s: System) {
    && s.disk != [] && s.disk[0].Settled?
    && s.slot.survivors == Recent(s.disk) && s.slot.visible == ValueOf(s.disk[|s.disk| - 1])
  }

  lemma ExplainedMore(s: System, e: DiskEvent, slot: Slot<Items>)
    requires Explained(s) && slot.visible == ValueOf(e)
    requires slot.survivors == if e.Settled? then {ValueOf(e)} else s.slot.survivors + {ValueOf(e)}
    ensures Explained(s.(slot := slot, disk := s.disk + [e]))
  {
    var disk := s.disk + [e];
    assert disk[..|disk| - 1] == s.disk;
  }

  lemma SavingIsExplained(s: System, next: Items, write: WriteOutcome)
    requires s.queue.Some? && Explained(s)
    ensures Explained(Saving(s, next, write))
  {
    hide Recent;
    var slot := s.slot.Write(next, write);
    match write {
      case Unwritten =>
      case Unconfirmed => ExplainedMore(s, Renamed(next), slot);
      case _ => ExplainedMore(s, Settled(Some(next)), slot);
    }
  }

  lemma ApplyIsExplained(s: System, c: Command)
    requires Explained(s)
    ensures Explained(Apply(s, c))
  {
    hide Recent, Attempt, ValidItems, Saving;
    if Writes(c) && s.queue.Some? {
      var next := Attempt(s.queue.value.0, s.queue.value.1, c);
      if next.Some? {
        SavingIsExplained(s, next.value, c.write);
      }
    } else if c.PowerLoss? && c.survivor in s.slot.survivors {
      ExplainedMore(s, Settled(c.survivor), s.slot.Crash(c.survivor));
    }
  }

  lemma {:induction false} RunIsExplained(commands: seq<Command>)
    ensures Explained(Execute(FIRST_BOOT, commands))
    decreases |commands|
  {
    if commands != [] {
      hide Explained, Apply;
      RunIsExplained(commands[..|commands| - 1]);
      ApplyIsExplained(Execute(FIRST_BOOT, commands[..|commands| - 1]), commands[|commands| - 1]);
    }
  }

  /** After any run, a nil for an item that is already queued makes it survive if and only if some settled
      write stored it and no later write that reached the directory lacked it. */
  lemma RepeatIsSafeExactly(commands: seq<Command>, v: Item, write: WriteOutcome)
    requires ReturnsNil(Execute(FIRST_BOOT, commands), v, write)
    requires v.id in Execute(FIRST_BOOT, commands).queue.value.0
    ensures var s := Execute(FIRST_BOOT, commands);
            Survives(Apply(s, Enqueue(v, write)), v) <==> SafelyStored(s.disk, v)
  {
    hide Execute, Recent, SafelyStored, Survives;
    var s := Execute(FIRST_BOOT, commands);
    RunIsExplained(commands);
    SizesAreBounded(commands);
    RecentHolds(s.disk, v);
    assert Apply(s, Enqueue(v, write)) == s;
    KeptSurvives(s, v);
  }

  // ---- The two ways to lose it ----------------------------------------------------------------

  /** After an Ack that failed behind its rename the item is in memory only: a repeated Enqueue answers nil
      without writing, and a plain restart comes back without the item. */
  lemma RepeatAfterFailedAckIsLost(s: System, v: Item, write: WriteOutcome, again: WriteOutcome)
    requires Sound(s) && s.queue.Some? && v.id in s.queue.value.0 && s.queue.value.0[v.id] == v
    requires s.queue.value.1 >= 1 && write in {Unconfirmed, ConfirmedLate}
    ensures var acked := Apply(s, Ack(v.id, write));
            var restarted := Apply(Apply(Apply(acked, Enqueue(v, again)), Stop), Open(s.queue.value.1, true));
            && ReturnsNil(acked, v, again)
            && restarted.queue.Some? && v.id !in restarted.queue.value.0
  {
    AttemptFits(s.queue.value.0, s.queue.value.1, Ack(v.id, write));
    MemberIsValid(s.queue.value.0, v.id);
    hide ValidItems, ValidItem;
    var acked := Apply(s, Ack(v.id, write));
    assert acked.queue == s.queue && acked.slot.visible == Some(s.queue.value.0 - {v.id});
    assert Apply(acked, Enqueue(v, again)) == acked;
  }

  lemma MemberIsValid(items: Items, id: string)
    requires ValidItems(items) && id in items
    ensures items[id].id == id && ValidItem(items[id])
  {
  }

  /** An item whose first save failed behind its rename is loaded by a restart: a repeated Enqueue answers
      nil without writing, and a crash can still bring back any value from before, without the item. */
  lemma RepeatAfterFailedEnqueueIsLost(s: System, v: Item, again: WriteOutcome, prior: Option<Items>)
    requires Sound(s) && s.queue.Some? && ValidItem(v)
    requires v.id !in s.queue.value.0 && |s.queue.value.0| < s.queue.value.1
    requires prior in s.slot.survivors && !HoldsIn(prior, v)
    ensures var failed := Apply(s, Enqueue(v, Unconfirmed));
            var reopened := Apply(Apply(failed, Stop), Open(s.queue.value.1, true));
            var crashed := Apply(Apply(reopened, Enqueue(v, again)), PowerLoss(prior));
            && ReturnsNil(reopened, v, again)
            && crashed.slot.visible == prior && crashed.slot.survivors == {prior}
  {
    AttemptFits(s.queue.value.0, s.queue.value.1, Enqueue(v, Unconfirmed));
    hide ValidItems, ValidItem;
    var next := s.queue.value.0[v.id := v];
    var failed := Apply(s, Enqueue(v, Unconfirmed));
    assert failed.slot == s.slot.Write(next, Unconfirmed);
    var reopened := Apply(Apply(failed, Stop), Open(s.queue.value.1, true));
    assert reopened.queue == Some((next, s.queue.value.1)) && reopened.slot == failed.slot;
    assert Apply(reopened, Enqueue(v, again)) == reopened;
  }
}
