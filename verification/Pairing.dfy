/** Pairing questions with answers, shared by the Claude and ChatGPT sources: a question waits until the
    first answer, a later question replaces it, and an answer uses it up. */
module Pairing {
  import opened Options

  datatype Part = Ask | Answer | Skip

  /** Position p holds the question still waiting just before position i. */
  predicate Waiting(parts: seq<Part>, p: nat, i: nat)
    requires i <= |parts|
  {
    p < i && parts[p].Ask? && forall k :: p < k < i ==> parts[k].Skip?
  }

  predicate Answers(parts: seq<Part>, p: nat, i: nat) {
    i < |parts| && parts[i].Answer? && Waiting(parts, p, i)
  }

  /** The `pending` variable of both loops, as a position. */
  function PendingAt(parts: seq<Part>, i: nat): (r: Option<nat>)
    requires i <= |parts|
    ensures r.Some? ==> Waiting(parts, r.value, i)
    ensures r.None? ==> forall p :: 0 <= p < i ==> !Waiting(parts, p, i)
  {
    if i == 0 then None
    else
      match parts[i - 1]
      case Ask => Some(i - 1)
      case Answer => None
      case Skip =>
        var r := PendingAt(parts, i - 1);
        assert forall p :: 0 <= p < i - 1 && Waiting(parts, p, i) ==> Waiting(parts, p, i - 1);
        r
  }

  /** `PendingAt` finds the waiting question whenever there is one. */
  lemma WaitingIsPending(parts: seq<Part>, p: nat, i: nat)
    requires i <= |parts| && Waiting(parts, p, i)
    ensures PendingAt(parts, i) == Some(p)
  {
  }

  /** No question is answered twice, and no answer uses two questions. */
  lemma PairsAreDisjoint(parts: seq<Part>, p: nat, i: nat, q: nat, j: nat)
    requires Answers(parts, p, i) && Answers(parts, q, j) && i <= j
    ensures (p, i) == (q, j) || i < q
  {
  }
}
