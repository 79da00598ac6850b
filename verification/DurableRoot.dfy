/** The system-call sequences of internal/history/durable/durable.go over a directory that can crash.

    `dir` is the directory every process sees.  Entry changes reach stable storage at the next
    directory sync; until then a crash may keep or lose each of them.  File data is safe only after
    the file itself was synced; an unsynced file may come back with any content.  Every system call
    answers through a `Faults` value, and `history` keeps the file system after each of them, so a
    claim about all of `history` is a claim about a crash at every step. */
module DurableRoot {
  import opened Options
  import opened DurableSlot

  newtype byte = x: int | 0 <= x < 256

  type Bytes = seq<byte>
  type Name = string
  type Digest = string

  const MAX_ATTEMPTS := 128
  const MAX_REMOVE_BYTES := 0x100_0000

  datatype Inode = Inode(data: Bytes, synced: bool)

  datatype FileSystem = FileSystem(
    files: map<nat, Inode>,
    next: nat,                          // inode numbers from here on are unused
    dir: map<Name, nat>,
    durable: map<Name, nat>,
    pending: seq<(Name, Option<nat>)>)  // entry changes since the last directory sync

  function Lookup(entries: map<Name, nat>, n: Name): Option<nat> {
    if n in entries then Some(entries[n]) else None
  }

  /** The entries a crash may leave under a name. */
  function Candidates(fs: FileSystem, n: Name): set<Option<nat>> {
    {Lookup(fs.durable, n)} + (set i | 0 <= i < |fs.pending| && fs.pending[i].0 == n :: fs.pending[i].1)
  }

  ghost predicate Valid(fs: FileSystem) {
    && (forall i :: i in fs.files ==> i < fs.next)
    && (forall n :: Lookup(fs.dir, n) in Candidates(fs, n))
    && (forall n, e :: e in Candidates(fs, n) && e.Some? ==> e.value in fs.files)
  }

  function Content(fs: FileSystem, e: Option<nat>): Option<Bytes> {
    if e.Some? && e.value in fs.files then Some(fs.files[e.value].data) else None
  }

  /** What a read finds. */
  function Visible(fs: FileSystem, n: Name): Option<Bytes> {
    Content(fs, Lookup(fs.dir, n))
  }

  /** After a crash the name may hold exactly this content. */
  ghost predicate MayHold(fs: FileSystem, n: Name, content: Option<Bytes>) {
    exists e :: e in Candidates(fs, n) &&
      match e
      case None => content.None?
      case Some(i) => content.Some? && i in fs.files && (fs.files[i].synced ==> content.value == fs.files[i].data)
  }

  /** No torn file can appear under the name. */
  ghost predicate Sealed(fs: FileSystem, n: Name) {
    forall e :: e in Candidates(fs, n) && e.Some? ==> e.value in fs.files && fs.files[e.value].synced
  }

  function SlotAt(fs: FileSystem, n: Name): Slot<Bytes> {
    Slot(Visible(fs, n), set e | e in Candidates(fs, n) :: Content(fs, e))
  }

  /** For a sealed name the slot's survivors are exactly what a crash may leave. */
  lemma SealedSurvivors(fs: FileSystem, n: Name, content: Option<Bytes>)
    requires Valid(fs) && Sealed(fs, n)
    ensures content in SlotAt(fs, n).survivors <==> MayHold(fs, n, content)
    ensures SlotAt(fs, n).Valid()
  {
  }

  // ---- System calls as changes of the file system ---------------------------------------------

  function Create(fs: FileSystem, n: Name): FileSystem {
    fs.(files := fs.files[fs.next := Inode([], false)], next := fs.next + 1, dir := fs.dir[n := fs.next],
        pending := fs.pending + [(n, Some(fs.next))])
  }

  function WriteData(fs: FileSystem, i: nat, data: Bytes): FileSystem {
    fs.(files := fs.files[i := Inode(data, false)])
  }

  function SyncFile(fs: FileSystem, i: nat): FileSystem
    requires i in fs.files
  {
    fs.(files := fs.files[i := fs.files[i].(synced := true)])
  }

  function Rename(fs: FileSystem, source: Name, target: Name): FileSystem
    requires source in fs.dir
  {
    var i := fs.dir[source];
    fs.(dir := (fs.dir - {source})[target := i], pending := fs.pending + [(target, Some(i)), (source, None)])
  }

  function Unlink(fs: FileSystem, n: Name): FileSystem {
    fs.(dir := fs.dir - {n}, pending := fs.pending + [(n, None)])
  }

  function SyncDir(fs: FileSystem): FileSystem {
    fs.(durable := fs.dir, pending := [])
  }

  /** Nothing about the name differs, now or after a crash. */
  ghost predicate Untouched(a: FileSystem, b: FileSystem, n: Name) {
    && Lookup(a.dir, n) == Lookup(b.dir, n)
    && Candidates(a, n) == Candidates(b, n)
    && forall e :: e in Candidates(a, n) && e.Some? ==>
         e.value in a.files && e.value in b.files && a.files[e.value] == b.files[e.value]
  }

  lemma AddedEntry(fs: FileSystem, fs': FileSystem, n: Name, e: Option<nat>, m: Name)
    requires fs'.durable == fs.durable && fs'.pending == fs.pending + [(n, e)]
    ensures Candidates(fs', m) == Candidates(fs, m) + if m == n then {e} else {}
  {
    forall x | x in Candidates(fs', m) ensures x in Candidates(fs, m) + if m == n then {e} else {} {
      if x != Lookup(fs'.durable, m) {
        var i :| 0 <= i < |fs'.pending| && fs'.pending[i].0 == m && fs'.pending[i].1 == x;
        if i < |fs.pending| {
          assert fs.pending[i] == fs'.pending[i];
        }
      }
    }
    forall x | x in Candidates(fs, m) + if m == n then {e} else {} ensures x in Candidates(fs', m) {
      if x in Candidates(fs, m) && x != Lookup(fs.durable, m) {
        var i :| 0 <= i < |fs.pending| && fs.pending[i].0 == m && fs.pending[i].1 == x;
        assert fs'.pending[i] == fs.pending[i];
      } else if m == n && x == e {
        assert fs'.pending[|fs.pending|] == (n, e);
      }
    }
  }

  lemma CreateIsLocal(fs: FileSystem, n: Name)
    requires Valid(fs) && n !in fs.dir
    ensures Valid(Create(fs, n))
    ensures forall m :: m != n ==> Untouched(fs, Create(fs, n), m)
  {
    hide Candidates;
    var fs' := Create(fs, n);
    forall m ensures Candidates(fs', m) == Candidates(fs, m) + if m == n then {Some(fs.next)} else {} {
      AddedEntry(fs, fs', n, Some(fs.next), m);
    }
  }

  lemma DataIsLocal(fs: FileSystem, i: nat, inode: Inode)
    requires Valid(fs) && i in fs.files
    ensures var fs' := fs.(files := fs.files[i := inode]);
            && Valid(fs')
            && forall m :: Candidates(fs', m) == Candidates(fs, m)
    ensures var fs' := fs.(files := fs.files[i := inode]);
            forall m :: Some(i) !in Candidates(fs, m) ==> Untouched(fs, fs', m)
  {
  }

  lemma RenameIsLocal(fs: FileSystem, source: Name, target: Name)
    requires Valid(fs) && source in fs.dir && source != target
    ensures var fs' := Rename(fs, source, target);
            && Valid(fs')
            && (forall m :: m != source && m != target ==> Untouched(fs, fs', m))
            && Candidates(fs', target) == Candidates(fs, target) + {Some(fs.dir[source])}
            && Lookup(fs'.dir, target) == Some(fs.dir[source])
            && Candidates(fs', source) == Candidates(fs, source) + {None}
            && Lookup(fs'.dir, source) == None
  {
    hide Candidates;
    var i := fs.dir[source];
    assert Lookup(fs.dir, source) == Some(i);
    forall m ensures Candidates(Rename(fs, source, target), m) == Candidates(fs, m) + RenameAdds(source, target, i, m) {
      RenamedEntries(fs, source, target, m);
    }
  }

  function RenameAdds(source: Name, target: Name, i: nat, m: Name): set<Option<nat>> {
    (if m == target then {Some(i)} else {}) + if m == source then {None} else {}
  }

  lemma RenamedEntries(fs: FileSystem, source: Name, target: Name, m: Name)
    requires source in fs.dir
    ensures Candidates(Rename(fs, source, target), m) == Candidates(fs, m) + RenameAdds(source, target, fs.dir[source], m)
  {
    hide Candidates;
    var i := fs.dir[source];
    var mid := fs.(pending := fs.pending + [(target, Some(i))]);
    var fs' := Rename(fs, source, target);
    assert fs'.pending == mid.pending + [(source, None)];
    AddedEntry(fs, mid, target, Some(i), m);
    AddedEntry(mid, fs', source, None, m);
  }

  lemma UnlinkIsLocal(fs: FileSystem, n: Name)
    requires Valid(fs)
    ensures Valid(Unlink(fs, n))
    ensures forall m :: m != n ==> Untouched(fs, Unlink(fs, n), m)
  {
    hide Candidates;
    var fs' := Unlink(fs, n);
    forall m ensures Candidates(fs', m) == Candidates(fs, m) + if m == n then {None} else {} {
      AddedEntry(fs, fs', n, None, m);
    }
  }

  lemma SyncDirSettles(fs: FileSystem)
    requires Valid(fs)
    ensures Valid(SyncDir(fs))
    ensures forall m :: Candidates(SyncDir(fs), m) == {Lookup(fs.dir, m)}
  {
  }

  lemma UntouchedHolds(a: FileSystem, b: FileSystem, n: Name, content: Option<Bytes>)
    requires Untouched(a, b, n)
    ensures MayHold(b, n, content) <==> MayHold(a, n, content)
  {
  }

  lemma UntouchedSlot(a: FileSystem, b: FileSystem, n: Name)
    requires Valid(a) && Untouched(a, b, n)
    ensures SlotAt(a, n) == SlotAt(b, n)
    ensures Sealed(a, n) ==> Sealed(b, n)
  {
    assert Lookup(a.dir, n) in Candidates(a, n);
    forall e | e in Candidates(a, n) ensures Content(a, e) == Content(b, e) {
    }
  }

  /** A directory sync may settle other names, but never changes what is seen or adds an outcome. */
  ghost predicate Within(a: FileSystem, b: FileSystem, n: Name) {
    && Lookup(a.dir, n) == Lookup(b.dir, n)
    && Candidates(b, n) <= Candidates(a, n)
    && forall e :: e in Candidates(a, n) && e.Some? ==>
         e.value in a.files && e.value in b.files && a.files[e.value] == b.files[e.value]
  }

  // ---- WriteAtomic ----------------------------------------------------------------------------

  /** `randomName`. */
  function TemporaryName(target: Name, token: string, suffix: string): (n: Name)
    ensures n != target
  {
    "." + target + "." + token + "." + suffix
  }

  predicate ValidName(n: Name) {
    n !in {"", ".", ".."} && '/' !in n
  }

  /** One attempt at a temporary: None is a failing random source, otherwise a token and whether an
      unused name can be opened. */
  datatype Attempt = NoToken | Token(token: string, opens: bool)

  /** The answers of the system calls of one `WriteAtomic`; true is success. */
  datatype WriteFaults = WriteFaults(
    verified: bool, inspected: bool, attempts: nat -> Attempt, wrapped: bool, chmod: bool,
    written: Option<Bytes>,     // Some: the write fails and leaves this much
    fileSynced: bool, staged: bool, renamed: bool, directorySynced: bool, checked: bool, unlinked: bool)

  /** Every call after the temporary was created succeeds. */
  predicate Smooth(f: WriteFaults) {
    && f.chmod && f.written.None? && f.fileSynced && f.staged && f.renamed && f.directorySynced && f.checked
  }

  /** A token is there, and its name unused and openable. */
  predicate Creates(fs: FileSystem, name: Name, a: Attempt) {
    a.Token? && a.opens && TemporaryName(name, a.token, "tmp") !in fs.dir
  }

  const QUEUE_PREFIX := ".queue-"

  /** The answers of one `save` of the upload queue; no token is a temporary that cannot be created. */
  datatype SaveFaults = SaveFaults(
    directory: bool, token: Option<string>, written: Option<Bytes>, fileSynced: bool, closed: bool, renamed: bool,
    directorySynced: bool, unlinked: bool)

  /** The temporary is in place under a fresh inode and every other name is as it was. */
  ghost predicate Staging(base: FileSystem, fs: FileSystem, temp: Name, i: nat) {
    && Valid(base) && Valid(fs)
    && base.next <= i && i in fs.files && Lookup(fs.dir, temp) == Some(i)
    && forall m :: m != temp ==> Untouched(base, fs, m)
  }

  /** What a crash right after this step may show. */
  ghost predicate SafeStep(base: FileSystem, fs: FileSystem, name: Name, temp: Name, added: Option<Bytes>) {
    && Valid(fs)
    && (forall c :: MayHold(fs, name, c) ==> MayHold(base, name, c) || c == added)
    && forall m :: m != name && m != temp ==> Within(base, fs, m)
  }

  lemma StagingIsSafe(base: FileSystem, fs: FileSystem, temp: Name, name: Name, added: Option<Bytes>)
    requires Valid(fs) && temp != name
    requires forall m :: m != temp ==> Untouched(base, fs, m)
    ensures SafeStep(base, fs, name, temp, added)
  {
    forall c | MayHold(fs, name, c) ensures MayHold(base, name, c) {
      UntouchedHolds(base, fs, name, c);
    }
    forall m | m != name && m != temp ensures Within(base, fs, m) {
      assert Untouched(base, fs, m);
    }
  }

  lemma StagingData(base: FileSystem, fs: FileSystem, temp: Name, i: nat, inode: Inode)
    requires Staging(base, fs, temp, i)
    ensures Staging(base, fs.(files := fs.files[i := inode]), temp, i)
  {
    var fs' := fs.(files := fs.files[i := inode]);
    DataIsLocal(fs, i, inode);
    forall m | m != temp ensures Untouched(base, fs', m) {
      assert Untouched(base, fs, m);
      assert Some(i) !in Candidates(fs, m);
    }
  }

  /** After the rename the target may be what it was or the complete payload. */
  lemma CommitIsSafe(base: FileSystem, fs: FileSystem, temp: Name, i: nat, name: Name, payload: Bytes)
    requires Staging(base, fs, temp, i) && temp != name && fs.files[i] == Inode(payload, true)
    ensures var fs' := Rename(fs, temp, name);
            && SafeStep(base, fs', name, temp, Some(payload))
            && Candidates(fs', name) == Candidates(base, name) + {Some(i)} && Lookup(fs'.dir, name) == Some(i)
            && fs'.files == fs.files
  {
    var fs' := Rename(fs, temp, name);
    RenameIsLocal(fs, temp, name);
    assert Untouched(base, fs, name);
    forall c | MayHold(fs', name, c) ensures MayHold(base, name, c) || c == Some(payload) {
      var e :| e in Candidates(fs', name) &&
        match e
        case None => c.None?
        case Some(j) => c.Some? && j in fs'.files && (fs'.files[j].synced ==> c.value == fs'.files[j].data);
      if e != Some(i) {
        assert e in Candidates(base, name);
      }
    }
    forall m | m != name && m != temp ensures Within(base, fs', m) {
      assert Untouched(base, fs, m) && Untouched(fs, fs', m);
    }
  }

  lemma SettleIsSafe(base: FileSystem, fs: FileSystem, name: Name, temp: Name, added: Option<Bytes>)
    requires SafeStep(base, fs, name, temp, added)
    ensures SafeStep(base, SyncDir(fs), name, temp, added)
  {
    SyncDirSettles(fs);
    forall c | MayHold(SyncDir(fs), name, c) ensures MayHold(base, name, c) || c == added {
      assert Candidates(SyncDir(fs), name) <= Candidates(fs, name);
      assert MayHold(fs, name, c);
    }
    forall m | m != name && m != temp ensures Within(base, SyncDir(fs), m) {
      assert Within(base, fs, m);
    }
  }

  class Root {
    var fs: FileSystem
    ghost var history: seq<FileSystem>

    /** A root over an empty directory. */
    constructor ()
      ensures Valid(fs) && fs.dir == map[] && history == []
    {
      fs := FileSystem(map[], 0, map[], map[], []);
      history := [];
    }

    method Record(next: FileSystem)
      modifies this
      ensures fs == next && history == old(history) + [next]
    {
      fs := next;
      history := history + [next];
    }

    /** The retry loop over fresh names opened with O_EXCL. */
    method CreateTemporary(name: Name, f: WriteFaults) returns (temp: Option<Name>)
      requires Valid(fs)
      modifies this
      ensures temp.None? ==> fs == old(fs) && history == old(history)
      ensures Creates(old(fs), name, f.attempts(0)) ==> temp.Some?
      ensures temp.Some? ==> temp.value !in old(fs).dir && temp.value != name
      ensures temp.Some? ==> Staging(old(fs), fs, temp.value, old(fs).next) && history == old(history) + [fs]
    {
      var attempt := 0;
      while attempt < MAX_ATTEMPTS
        invariant 0 <= attempt <= MAX_ATTEMPTS
        invariant fs == old(fs) && history == old(history)
        invariant Creates(old(fs), name, f.attempts(0)) ==> attempt == 0
      {
        var answer := f.attempts(attempt);
        if answer.NoToken? {
          return None;
        }
        var candidate := TemporaryName(name, answer.token, "tmp");
        if candidate !in fs.dir {
          if !answer.opens {
            return None;
          }
          CreateIsLocal(fs, candidate);
          Record(Create(fs, candidate));
          assert Lookup(fs.dir, candidate) == Some(old(fs).next);
          return Some(candidate);
        }
        attempt := attempt + 1;
      }
      return None;
    }

    /** chmod, write, sync and check of the temporary; on success its data is complete and safe. */
    method Stage(ghost base: FileSystem, temp: Name, i: nat, payload: Bytes, f: WriteFaults) returns (ok: bool)
      requires Staging(base, fs, temp, i)
      modifies this
      ensures Staging(base, fs, temp, i)
      ensures old(history) <= history
      ensures forall k :: |old(history)| <= k < |history| ==> Staging(base, history[k], temp, i)
      ensures ok ==> fs.files[i] == Inode(payload, true)
      ensures Smooth(f) ==> ok
    {
      if !f.chmod {
        return false;
      }
      StagingData(base, fs, temp, i, Inode(if f.written.Some? then f.written.value else payload, false));
      Record(WriteData(fs, i, if f.written.Some? then f.written.value else payload));
      if f.written.Some? || !f.fileSynced {
        return false;
      }
      StagingData(base, fs, temp, i, fs.files[i].(synced := true));
      Record(SyncFile(fs, i));
      return f.staged;
    }

    /** The deferred removal of an uncommitted temporary. */
    method Discard(ghost base: FileSystem, temp: Name, i: nat, unlinked: bool)
      requires Staging(base, fs, temp, i)
      modifies this
      ensures Valid(fs) && old(history) <= history
      ensures forall m :: m != temp ==> Untouched(base, fs, m)
      ensures forall k :: |old(history)| <= k < |history| ==> history[k] == fs
    {
      if unlinked {
        UnlinkIsLocal(fs, temp);
        forall m | m != temp ensures Untouched(base, Unlink(fs, temp), m) {
          assert Untouched(base, fs, m) && Untouched(fs, Unlink(fs, temp), m);
        }
        Record(Unlink(fs, temp));
      }
    }

    /** Atomic replacement.  The slot changes exactly as `Slot.Write` says, and a crash after any of
        the recorded steps shows the old content or the complete payload, never a torn file; other
        names keep their content and gain no new outcome, the fresh temporary excepted. */
    method WriteAtomic(name: Name, payload: Bytes, f: WriteFaults) returns (outcome: WriteOutcome, temp: Option<Name>)
      requires Valid(fs)
      modifies this
      ensures Valid(fs) && old(history) <= history
      ensures temp.None? ==> outcome == Unwritten && fs == old(fs) && history == old(history)
      ensures temp.Some? ==> temp.value !in old(fs).dir && temp.value != name
      ensures temp.Some? ==> forall k :: |old(history)| <= k < |history| ==>
                SafeStep(old(fs), history[k], name, temp.value, Some(payload))
      ensures temp.Some? ==> SafeStep(old(fs), fs, name, temp.value, Some(payload))
      ensures SlotAt(fs, name) == SlotAt(old(fs), name).Write(payload, outcome)
      ensures Sealed(old(fs), name) ==> Sealed(fs, name)
      ensures outcome == Confirmed ==> forall c :: MayHold(fs, name, c) ==> c == Some(payload)
      ensures outcome == Unwritten && temp.Some? ==> Untouched(old(fs), fs, name)
      ensures (&& ValidName(name) && f.verified && f.inspected && f.wrapped && Smooth(f)
               && Creates(old(fs), name, f.attempts(0))) ==> outcome == Confirmed
    {
      hide Candidates, MayHold, SlotAt, Sealed, SafeStep;
      outcome, temp := Unwritten, None;
      if !ValidName(name) || !f.verified || !f.inspected {
        return;
      }
      ghost var base := fs;
      var i := fs.next;
      temp := CreateTemporary(name, f);
      if temp.None? {
        return;
      }
      StagingIsSafe(base, fs, temp.value, name, Some(payload));
      if !f.wrapped {
        UntouchedSlot(base, fs, name);
        return;
      }
      outcome := Publish(base, name, temp.value, i, payload, f);
    }

    /** `save` of the upload queue (internal/history/uploadqueue/queue.go:156-187): the same steps around its
        own temporary, without a check after the directory sync. */
    method SaveQueue(name: Name, payload: Bytes, f: SaveFaults) returns (outcome: WriteOutcome, temp: Option<Name>)
      requires Valid(fs) && !(QUEUE_PREFIX <= name)
      modifies this
      ensures Valid(fs) && old(history) <= history && outcome != ConfirmedLate
      ensures temp.None? ==> outcome == Unwritten && fs == old(fs) && history == old(history)
      ensures temp.Some? ==> temp.value !in old(fs).dir && temp.value != name
      ensures temp.Some? ==> forall k :: |old(history)| <= k < |history| ==>
                SafeStep(old(fs), history[k], name, temp.value, Some(payload))
      ensures temp.Some? ==> SafeStep(old(fs), fs, name, temp.value, Some(payload))
      ensures SlotAt(fs, name) == SlotAt(old(fs), name).Write(payload, outcome)
      ensures Sealed(old(fs), name) ==> Sealed(fs, name)
      ensures outcome == Confirmed ==> forall c :: MayHold(fs, name, c) ==> c == Some(payload)
      ensures outcome == Unwritten && temp.Some? ==> Untouched(old(fs), fs, name)
      ensures (&& f.directory && f.token.Some? && QUEUE_PREFIX + f.token.value !in old(fs).dir && f.written.None?
               && f.fileSynced && f.closed && f.renamed && f.directorySynced) ==> outcome == Confirmed
    {
      hide Candidates, MayHold, SlotAt, Sealed, SafeStep;
      outcome, temp := Unwritten, None;
      if !f.directory || f.token.None? || QUEUE_PREFIX + f.token.value in fs.dir {
        return;
      }
      ghost var base := fs;
      var i, candidate := fs.next, QUEUE_PREFIX + f.token.value;
      assert candidate[..|QUEUE_PREFIX|] == QUEUE_PREFIX;
      CreateIsLocal(fs, candidate);
      Record(Create(fs, candidate));
      assert Lookup(fs.dir, candidate) == Some(i);
      temp := Some(candidate);
      StagingIsSafe(base, fs, candidate, name, Some(payload));
      outcome := Publish(base, name, candidate, i, payload,
                         WriteFaults(true, true, _ => NoToken, true, true, f.written, f.fileSynced, f.closed, f.renamed,
                                     f.directorySynced, true, f.unlinked));
    }

    /** From the fresh temporary on: stage it, then drop it or rename it into place. */
    method Publish(ghost base: FileSystem, name: Name, temp: Name, i: nat, payload: Bytes, f: WriteFaults)
      returns (outcome: WriteOutcome)
      requires Staging(base, fs, temp, i) && temp != name
      modifies this
      ensures Valid(fs) && old(history) <= history
      ensures forall k :: |old(history)| <= k < |history| ==> SafeStep(base, history[k], name, temp, Some(payload))
      ensures SafeStep(base, fs, name, temp, Some(payload))
      ensures SlotAt(fs, name) == SlotAt(base, name).Write(payload, outcome)
      ensures Sealed(base, name) ==> Sealed(fs, name)
      ensures outcome == Confirmed ==> forall c :: MayHold(fs, name, c) ==> c == Some(payload)
      ensures outcome == Unwritten ==> Untouched(base, fs, name)
      ensures f.checked ==> outcome != ConfirmedLate
      ensures Smooth(f) ==> outcome == Confirmed
    {
      hide Candidates, MayHold, SlotAt, Sealed, SafeStep;
      outcome := Unwritten;
      ghost var from := |history|;
      var ok := Stage(base, temp, i, payload, f);
      StagedHistory(base, from, name, temp, i, Some(payload));
      if !ok || !f.renamed {
        Discard(base, temp, i, f.unlinked);
        StagingIsSafe(base, fs, temp, name, Some(payload));
        UntouchedSlot(base, fs, name);
        return;
      }
      outcome := Commit(base, name, temp, i, payload, f);
    }

    /** Lifts the staging invariant to crash safety over the steps just recorded. */
    lemma StagedHistory(base: FileSystem, from: nat, name: Name, temp: Name, i: nat, added: Option<Bytes>)
      requires temp != name && from <= |history|
      requires forall k :: from <= k < |history| ==> Staging(base, history[k], temp, i)
      ensures forall k :: from <= k < |history| ==> SafeStep(base, history[k], name, temp, added)
    {
      forall k | from <= k < |history| ensures SafeStep(base, history[k], name, temp, added) {
        StagingIsSafe(base, history[k], temp, name, added);
      }
    }

    /** The rename and everything after it. */
    method Commit(ghost base: FileSystem, name: Name, temp: Name, i: nat, payload: Bytes, f: WriteFaults)
      returns (outcome: WriteOutcome)
      requires Staging(base, fs, temp, i) && temp != name && fs.files[i] == Inode(payload, true)
      modifies this
      ensures Valid(fs) && old(history) <= history && outcome != Unwritten
      ensures f.checked ==> outcome != ConfirmedLate
      ensures outcome == if !f.directorySynced then Unconfirmed else if f.checked then Confirmed else ConfirmedLate
      ensures forall k :: |old(history)| <= k < |history| ==> SafeStep(base, history[k], name, temp, Some(payload))
      ensures SafeStep(base, fs, name, temp, Some(payload))
      ensures SlotAt(fs, name) == SlotAt(base, name).Write(payload, outcome)
      ensures Sealed(base, name) ==> Sealed(fs, name)
      ensures outcome == Confirmed ==> forall c :: MayHold(fs, name, c) ==> c == Some(payload)
    {
      hide Candidates, MayHold, SlotAt, Sealed, SafeStep;
      CommitIsSafe(base, fs, temp, i, name, payload);
      assert Untouched(base, fs, name);
      Record(Rename(fs, temp, name));
      assert Valid(fs) by { SafeIsValid(base, fs, name, temp, Some(payload)); }
      if !f.directorySynced {
        RenamedSlot(base, fs, name, i, payload);
        return Unconfirmed;
      }
      SettleIsSafe(base, fs, name, temp, Some(payload));
      SyncDirSettles(fs);
      Record(SyncDir(fs));
      SettledSlot(fs, name, i, payload);
      return if f.checked then Confirmed else ConfirmedLate;
    }

    /** Content-bound removal.  Only content with the expected hash is ever moved away; a crash after
        any recorded step shows the old content or nothing. */
    method Remove(name: Name, hash: Bytes -> Digest, expected: Digest, f: RemoveFaults)
      returns (outcome: RemoveOutcome, tombstone: Name)
      requires Valid(fs)
      modifies this
      ensures Valid(fs) && old(history) <= history && tombstone != name
      ensures forall k :: |old(history)| <= k < |history| ==> SafeStep(old(fs), history[k], name, tombstone, None)
      ensures outcome.NotFound? ==> Visible(old(fs), name).None?
      ensures (&& ValidName(name) && AllSucceed(f) && Visible(old(fs), name).Some?
               && |Visible(old(fs), name).value| <= 16_777_216 && hash(Visible(old(fs), name).value) == expected) ==>
                outcome.Removed?
      ensures ValidName(name) && f.verified && name !in old(fs).dir ==> outcome.NotFound?
      ensures outcome.NotFound? || outcome.Kept? ==> fs == old(fs) && history == old(history)
      ensures !outcome.NotFound? && !outcome.Kept? ==>
                Visible(old(fs), name).Some? && hash(Visible(old(fs), name).value) == expected
      ensures Sealed(old(fs), name) ==> SlotAt(fs, name) == SlotAt(old(fs), name).Remove(outcome) && Sealed(fs, name)
      ensures outcome.Removed? || outcome.RemovedLate? ==> forall c :: MayHold(fs, name, c) ==> c == None
    {
      outcome, tombstone := Kept, TemporaryName(name, f.token, "deleted");
      if !ValidName(name) || !f.verified {
        return;
      }
      if name !in fs.dir {
        outcome := NotFound;
        return;
      }
      assert Lookup(fs.dir, name) in Candidates(fs, name);
      var payload := fs.files[fs.dir[name]].data;
      if !f.inspected || !f.readable || |payload| > MAX_REMOVE_BYTES || hash(payload) != expected || !f.renamed {
        return;
      }
      outcome := MoveAway(name, tombstone, f);
    }

    method MoveAway(name: Name, tombstone: Name, f: RemoveFaults) returns (outcome: RemoveOutcome)
      requires Valid(fs) && name in fs.dir && tombstone != name
      modifies this
      ensures Valid(fs) && old(history) <= history && !outcome.NotFound? && !outcome.Kept?
      ensures AllSucceed(f) ==> outcome.Removed?
      ensures forall k :: |old(history)| <= k < |history| ==> SafeStep(old(fs), history[k], name, tombstone, None)
      ensures Sealed(old(fs), name) ==> SlotAt(fs, name) == SlotAt(old(fs), name).Remove(outcome) && Sealed(fs, name)
      ensures outcome.Removed? || outcome.RemovedLate? ==> forall c :: MayHold(fs, name, c) ==> c == None
    {
      hide Candidates, MayHold, SlotAt, Sealed, SafeStep;
      ghost var base := fs;
      MoveIsSafe(fs, name, tombstone);
      RenameIsLocal(fs, name, tombstone);
      Record(Rename(fs, name, tombstone));
      if !f.moved || !f.firstSync {
        MovedSlot(base, fs, name);
        return Unsynced;
      }
      SettleIsSafe(base, fs, name, tombstone, None);
      SyncDirSettles(fs);
      Record(SyncDir(fs));
      GoneSlot(fs, name);
      if !f.unlinked {
        return RemovedLate;
      }
      UnlinkIsLocal(fs, tombstone);
      assert Untouched(fs, Unlink(fs, tombstone), name);
      UnlinkStaysSafe(base, fs, name, tombstone);
      Record(Unlink(fs, tombstone));
      GoneSlot(fs, name);
      if !f.secondSync {
        return RemovedLate;
      }
      SettleIsSafe(base, fs, name, tombstone, None);
      SyncDirSettles(fs);
      Record(SyncDir(fs));
      GoneSlot(fs, name);
      return Removed;
    }
  }

  lemma GoneSlot(fs: FileSystem, name: Name)
    requires Candidates(fs, name) == {None} && Lookup(fs.dir, name) == None
    ensures SlotAt(fs, name) == Slot(None, {None}) && Sealed(fs, name)
    ensures forall c :: MayHold(fs, name, c) ==> c == None
  {
    hide Candidates;
  }

  lemma SafeIsValid(base: FileSystem, fs: FileSystem, name: Name, temp: Name, added: Option<Bytes>)
    requires SafeStep(base, fs, name, temp, added)
    ensures Valid(fs)
  {
  }

  lemma SettledSlot(fs: FileSystem, name: Name, i: nat, payload: Bytes)
    requires Candidates(fs, name) == {Some(i)} && Lookup(fs.dir, name) == Some(i)
    requires i in fs.files && fs.files[i] == Inode(payload, true)
    ensures SlotAt(fs, name) == Slot(Some(payload), {Some(payload)}) && Sealed(fs, name)
    ensures forall c :: MayHold(fs, name, c) ==> c == Some(payload)
  {
  }

  lemma RenamedSlot(base: FileSystem, fs: FileSystem, name: Name, i: nat, payload: Bytes)
    requires Valid(base) && Lookup(fs.dir, name) == Some(i) && i in fs.files && fs.files[i] == Inode(payload, true)
    requires Candidates(fs, name) == Candidates(base, name) + {Some(i)}
    requires forall e :: e in Candidates(base, name) && e.Some? ==>
               e.value in base.files && e.value in fs.files && base.files[e.value] == fs.files[e.value]
    ensures SlotAt(fs, name) == SlotAt(base, name).Write(payload, Unconfirmed)
    ensures Sealed(base, name) ==> Sealed(fs, name)
  {
    var survivors := SlotAt(fs, name).survivors;
    var expected := SlotAt(base, name).survivors + {Some(payload)};
    forall c | c in survivors ensures c in expected {
      var e :| e in Candidates(fs, name) && c == Content(fs, e);
      if e in Candidates(base, name) {
        assert Content(base, e) == c;
      }
    }
    forall c | c in expected ensures c in survivors {
      if c in SlotAt(base, name).survivors {
        var e :| e in Candidates(base, name) && c == Content(base, e);
        assert Content(fs, e) == c;
      } else {
        assert Content(fs, Some(i)) == c;
      }
    }
  }

  // ---- Remove ---------------------------------------------------------------------------------

  datatype RemoveFaults = RemoveFaults(
    verified: bool, inspected: bool, readable: bool, token: string, renamed: bool, moved: bool, firstSync: bool,
    unlinked: bool, secondSync: bool)

  predicate AllSucceed(f: RemoveFaults) {
    f.verified && f.inspected && f.readable && f.renamed && f.moved && f.firstSync && f.unlinked && f.secondSync
  }

  lemma MoveIsSafe(fs: FileSystem, name: Name, tombstone: Name)
    requires Valid(fs) && name in fs.dir && tombstone != name
    ensures SafeStep(fs, Rename(fs, name, tombstone), name, tombstone, None)
  {
    hide Candidates;
    var fs' := Rename(fs, name, tombstone);
    RenameIsLocal(fs, name, tombstone);
    forall c | MayHold(fs', name, c) ensures MayHold(fs, name, c) || c == None {
      var e :| e in Candidates(fs', name) &&
        match e
        case None => c.None?
        case Some(j) => c.Some? && j in fs'.files && (fs'.files[j].synced ==> c.value == fs'.files[j].data);
      if e != None {
        assert e in Candidates(fs, name);
      }
    }
    forall m | m != name && m != tombstone ensures Within(fs, fs', m) {
      assert Untouched(fs, fs', m);
    }
  }

  lemma UnlinkStaysSafe(base: FileSystem, fs: FileSystem, name: Name, tombstone: Name)
    requires SafeStep(base, fs, name, tombstone, None) && tombstone != name
    ensures SafeStep(base, Unlink(fs, tombstone), name, tombstone, None)
  {
    var fs' := Unlink(fs, tombstone);
    UnlinkIsLocal(fs, tombstone);
    forall c | MayHold(fs', name, c) ensures MayHold(base, name, c) || c == None {
      UntouchedHolds(fs, fs', name, c);
    }
    forall m | m != name && m != tombstone ensures Within(base, fs', m) {
      assert Within(base, fs, m) && Untouched(fs, fs', m);
    }
  }

  lemma MovedSlot(base: FileSystem, fs: FileSystem, name: Name)
    requires Lookup(fs.dir, name) == None && fs.files == base.files
    requires Candidates(fs, name) == Candidates(base, name) + {None}
    ensures SlotAt(fs, name) == SlotAt(base, name).Remove(Unsynced)
    ensures Sealed(base, name) ==> Sealed(fs, name)
  {
  }
}
