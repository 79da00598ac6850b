/** The state file under forward capture (internal/history/watch/forward.go:194-215, 308-317): from states
    to bytes in a durable directory and back. */
module ForwardStore {
  import opened Options
  import opened DurableSlot
  import opened DurableRoot
  import opened JsonWalk
  import FS = ForwardState

  const STATE_NAME: Name := "forward.json"
  const MAX_STATE_BYTES := 134_217_728   // 128 MiB

  type Encode = FS.ForwardState -> Bytes
  type Decode = Bytes -> Option<FS.ForwardState>   // None: loading refuses the payload

  /** The states a read finds and a crash may leave, as loading decodes them. */
  function StateSlot(fs: FileSystem, decode: Decode): Slot<Option<FS.ForwardState>> {
    MapSlot(SlotAt(fs, STATE_NAME), decode)
  }

  /** `writeForwardState`: too large a state is not written; otherwise the file becomes, for readers and for
      crashes, what loading makes of the encoding - the state itself exactly when the codec returns it. */
  method WriteForwardState(root: Root, encode: Encode, decode: Decode, state: FS.ForwardState, f: WriteFaults)
    returns (outcome: WriteOutcome)
    requires Valid(root.fs)
    modifies root
    ensures Valid(root.fs) && old(root.history) <= root.history
    ensures StateSlot(root.fs, decode) == StateSlot(old(root.fs), decode).Write(decode(encode(state)), outcome)
    ensures decode(encode(state)) == Some(state) ==>
              StateSlot(root.fs, decode) == StateSlot(old(root.fs), decode).Write(Some(state), outcome)
    ensures |encode(state)| > 134_217_728 ==> outcome == Unwritten && root.fs == old(root.fs)
    ensures Sealed(old(root.fs), STATE_NAME) ==> Sealed(root.fs, STATE_NAME)
  {
    hide MapSlot, SlotAt, Sealed, MayHold, SafeStep, Untouched;
    var payload := encode(state);
    WriteThroughCodec(SlotAt(root.fs, STATE_NAME), payload, Unwritten, decode);
    if |payload| > MAX_STATE_BYTES {
      return Unwritten;
    }
    ghost var before := SlotAt(root.fs, STATE_NAME);
    var temp;
    outcome, temp := root.WriteAtomic(STATE_NAME, payload, f);
    WriteThroughCodec(before, payload, outcome, decode);
  }

  // ---- What the JSON encoding does to path names ----------------------------------------------

  /** The object of excluded paths as `json.Marshal` writes it: every name is first made valid UTF-8. */
  function PathObject(paths: seq<string>, coerce: string -> string): Json {
    Object(seq(|paths|, i requires 0 <= i < |paths| => Member(coerce(paths[i]), Scalar)))
  }

  predicate Merged(paths: seq<string>, coerce: string -> string) {
    exists i, j :: 0 <= i < j < |paths| && coerce(paths[i]) == coerce(paths[j])
  }

  /** Loading refuses the file by its own duplicate check exactly when two paths became one name. */
  lemma MergedPathsAreRefused(paths: seq<string>, coerce: string -> string)
    ensures Walk(Tokens(PathObject(paths, coerce))) == if Merged(paths, coerce) then Bad else Ok([])
  {
    hide Walk, Tokens;
    var v := PathObject(paths, coerce);
    WalkTokens(v, []);
    assert Tokens(v) + [] == Tokens(v);
    assert Distinct(v) <==> DistinctNames(v.members);
    if !Merged(paths, coerce) {
      forall i, j | 0 <= i < j < |v.members| ensures v.members[i].name != v.members[j].name {
        assert coerce(paths[i]) != coerce(paths[j]);
      }
    } else {
      var i, j :| 0 <= i < j < |paths| && coerce(paths[i]) == coerce(paths[j]);
      assert v.members[i].name == v.members[j].name;
    }
  }

  function NamesRead(paths: seq<string>, coerce: string -> string): set<string> {
    set i | 0 <= i < |paths| :: coerce(paths[i])
  }

  /** An excluded path comes back from the file exactly when the encoding leaves its name alone. */
  lemma ExcludedPathComesBack(paths: seq<string>, coerce: string -> string, p: string)
    requires p in paths && forall s :: coerce(coerce(s)) == coerce(s)
    ensures p in NamesRead(paths, coerce) <==> coerce(p) == p
  {
    if p in NamesRead(paths, coerce) {
      var i :| 0 <= i < |paths| && coerce(paths[i]) == p;
      assert coerce(coerce(paths[i])) == coerce(paths[i]);
    }
  }
}
