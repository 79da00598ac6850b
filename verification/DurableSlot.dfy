/** What one name of a durable directory means to the code above it.

    `WriteAtomic` (internal/history/durable/durable.go) either confirms a replacement or reports an
    error, and an error can still leave the new payload in the directory.  A slot therefore keeps two
    views: `visible` is what a read or a restarted process finds, `survivors` are the values a machine
    crash may bring back.  Module DurableRoot proves that the system-call sequence behaves this way. */
module DurableSlot {
  import opened Options

  /** How a write ends; only Confirmed is a nil error. */
  datatype WriteOutcome =
    | Confirmed      // the replacement is in the directory and synced
    | Unwritten      // failed before the rename
    | Unconfirmed    // renamed, but the directory sync failed
    | ConfirmedLate  // renamed and synced, but the closing check failed

  /** How a removal ends; Removed and NotFound are nil errors. */
  datatype RemoveOutcome =
    | NotFound     // nothing was there
    | Kept         // failed before the entry moved, or the content did not match
    | Unsynced     // the entry moved away, but that was not synced
    | RemovedLate  // gone for good, but clearing the tombstone failed
    | Removed      // gone for good

  datatype Slot<!T(==)> = Slot(visible: Option<T>, survivors: set<Option<T>>) {

    ghost predicate Valid() {
      visible in survivors
    }

    function Write(value: T, outcome: WriteOutcome): (s: Slot<T>)
    {
      match outcome
      case Unwritten => this
      case Unconfirmed => Slot(Some(value), survivors + {Some(value)})
      case _ => Slot(Some(value), {Some(value)})
    }

    /** What a content-bound removal leaves. */
    function Remove(outcome: RemoveOutcome): (s: Slot<T>)
    {
      match outcome
      case NotFound => this
      case Kept => this
      case Unsynced => Slot(None, survivors + {None})
      case _ => Slot(None, {None})
    }

    /** A machine crash brings back one of the survivors and makes it the durable value. */
    function Crash(choice: Option<T>): (s: Slot<T>) {
      Slot(choice, {choice})
    }
  }

  function MapOption<T, U>(o: Option<T>, f: T -> U): Option<U> {
    if o.None? then None else Some(f(o.value))
  }

  /** The slot of decoded values over a slot of payloads. */
  function MapSlot<T(==), U(==)>(s: Slot<T>, f: T -> U): Slot<U> {
    Slot(MapOption(s.visible, f), set x | x in s.survivors :: MapOption(x, f))
  }

  /** Writing a payload is writing the value it encodes, whatever the outcome. */
  lemma WriteThroughCodec<T, U>(s: Slot<T>, value: T, outcome: WriteOutcome, f: T -> U)
    ensures MapSlot(s.Write(value, outcome), f) == MapSlot(s, f).Write(f(value), outcome)
  {
  }
}
