/** Reciprocal rank fusion of the vector and full-text candidate lists, as the hybrid query computes it
    (internal/history/store/plans.go:276-294), over exact reals. */
module RankFusion {
  import opened Options

  datatype Id = Id(name: string)

  /** `config.Validate` admits the constant k only in [1, 10000]; nothing here needs the upper bound. */
  type RankConstant = k: int | k >= 1 witness 60

  datatype Ranked = Ranked(id: Id, rank: nat)

  /** `UNNEST ... WITH OFFSET AS rank`, counting from `offset`. */
  function RankedFrom(ids: seq<Id>, offset: nat): seq<Ranked> {
    if ids == [] then [] else [Ranked(ids[0], offset)] + RankedFrom(ids[1..], offset + 1)
  }

  /** K = k + 1: the reciprocal of the best possible term. */
  function Best(k: RankConstant): (b: real)
    ensures b >= 2.0
  {
    (k + 1) as real
  }

  function Term(k: RankConstant, rank: nat): (r: real)
    ensures r > 0.0
  {
    1.0 / (k + rank + 1) as real
  }

  /** `SUM` of a weight of the rank, over the rows of one id. */
  function SumFor(rows: seq<Ranked>, id: Id, weight: nat -> real): real {
    if rows == [] then 0.0
    else (if rows[0].id == id then weight(rows[0].rank) else 0.0) + SumFor(rows[1..], id, weight)
  }

  /** The fused score: both candidate lists joined by `UNION ALL` and grouped by id. */
  function Score(vector: seq<Id>, text: seq<Id>, id: Id, k: RankConstant): real {
    SumFor(RankedFrom(vector, 0) + RankedFrom(text, 0), id, (rank: nat) => Term(k, rank))
  }

  function Least(a: real, b: real): real {
    if a <= b then a else b
  }

  /** `1.0 - LEAST(1.0, f.Score / (2.0 / (@rrf_k + 1)))`. */
  function Distance(score: real, k: RankConstant): real {
    1.0 - Least(1.0, score / (2.0 / Best(k)))
  }

  predicate DistinctIds(ids: seq<Id>) {
    forall i, j :: 0 <= i < j < |ids| ==> ids[i] != ids[j]
  }

  /** The position of an id, counting from 0. */
  function Rank(ids: seq<Id>, id: Id): (r: Option<nat>)
    ensures r.Some? <==> id in ids
    ensures r.Some? ==> r.value < |ids| && ids[r.value] == id
  {
    if ids == [] then None
    else if ids[0] == id then Some(0)
    else
      var rest := Rank(ids[1..], id);
      if rest.None? then None else Some(rest.value + 1)
  }

  /** The share of the best possible score that one list gives: K/(K+rank) for K = k+1. */
  function Share(k: RankConstant, rank: Option<nat>): (r: real)
    ensures 0.0 <= r <= 1.0
    ensures r == 0.0 <==> rank.None?
    ensures r == 1.0 <==> rank == Some(0)
  {
    if rank.None? then 0.0
    else
      var best, mine := Best(k), (k + 1 + rank.value) as real;
      DivisionFacts(best, mine);
      best / mine
  }

  lemma DivisionFacts(x: real, y: real)
    requires 0.0 < x <= y
    ensures 0.0 < x / y <= 1.0
    ensures x / y == 1.0 <==> x == y
  {
    var q := x / y;
    assert q * y == x;
    assert q <= 0.0 ==> q * y <= 0.0;
    assert q > 1.0 ==> q * y > y;
  }

  lemma {:induction false} SumSplits(a: seq<Ranked>, b: seq<Ranked>, id: Id, weight: nat -> real)
    ensures SumFor(a + b, id, weight) == SumFor(a, id, weight) + SumFor(b, id, weight)
  {
    if a == [] {
      assert a + b == b;
    } else {
      assert (a + b)[1..] == a[1..] + b;
      SumSplits(a[1..], b, id, weight);
    }
  }

  lemma {:induction false} SumAbsent(ids: seq<Id>, offset: nat, id: Id, weight: nat -> real)
    requires id !in ids
    ensures SumFor(RankedFrom(ids, offset), id, weight) == 0.0
  {
    if ids != [] {
      SumAbsent(ids[1..], offset + 1, id, weight);
      assert RankedFrom(ids, offset)[1..] == RankedFrom(ids[1..], offset + 1);
    }
  }

  function WeightOf(rank: Option<nat>, weight: nat -> real): real {
    if rank.None? then 0.0 else weight(rank.value)
  }

  lemma {:induction false} SumAt(ids: seq<Id>, offset: nat, r: nat, weight: nat -> real)
    requires DistinctIds(ids) && r < |ids|
    ensures SumFor(RankedFrom(ids, offset), ids[r], weight) == weight(offset + r)
  {
    assert RankedFrom(ids, offset)[1..] == RankedFrom(ids[1..], offset + 1);
    if r == 0 {
      SumAbsent(ids[1..], offset + 1, ids[0], weight);
    } else {
      SumAt(ids[1..], offset + 1, r - 1, weight);
    }
  }

  /** A list of distinct ids contributes exactly the weight of the id's position. */
  lemma SumOfDistinct(ids: seq<Id>, id: Id, weight: nat -> real)
    requires DistinctIds(ids)
    ensures SumFor(RankedFrom(ids, 0), id, weight) == WeightOf(Rank(ids, id), weight)
  {
    if id in ids {
      SumAt(ids, 0, Rank(ids, id).value, weight);
    } else {
      SumAbsent(ids, 0, id, weight);
    }
  }

  /** The weight one list gives an id. */
  function ListWeight(k: RankConstant, rank: Option<nat>): real {
    WeightOf(rank, (r: nat) => Term(k, r))
  }

  lemma WeightIsShare(k: RankConstant, rank: Option<nat>)
    ensures ListWeight(k, rank) * Best(k) == Share(k, rank)
  {
    if rank.Some? {
      var best, mine := Best(k), (k + 1 + rank.value) as real;
      assert (1.0 / mine) * best == best / mine;
    }
  }

  lemma ScoreSplits(vector: seq<Id>, text: seq<Id>, id: Id, k: RankConstant)
    requires DistinctIds(vector) && DistinctIds(text)
    ensures Score(vector, text, id, k) == ListWeight(k, Rank(vector, id)) + ListWeight(k, Rank(text, id))
  {
    hide Term, SumFor, RankedFrom;
    var weight := (rank: nat) => Term(k, rank);
    SumSplits(RankedFrom(vector, 0), RankedFrom(text, 0), id, weight);
    SumOfDistinct(vector, id, weight);
    SumOfDistinct(text, id, weight);
  }

  /** The score is the two shares over K. */
  lemma ScoreIsShares(vector: seq<Id>, text: seq<Id>, id: Id, k: RankConstant)
    requires DistinctIds(vector) && DistinctIds(text)
    ensures Score(vector, text, id, k) * Best(k) == Share(k, Rank(vector, id)) + Share(k, Rank(text, id))
  {
    hide *;
    ScoreSplits(vector, text, id, k);
    WeightIsShare(k, Rank(vector, id));
    WeightIsShare(k, Rank(text, id));
    Distributes(ListWeight(k, Rank(vector, id)), ListWeight(k, Rank(text, id)), Best(k));
  }

  lemma Distributes(x: real, y: real, z: real)
    ensures (x + y) * z == x * z + y * z
  {
  }

  lemma Normalised(score: real, best: real)
    requires best > 0.0
    ensures score / (2.0 / best) == score * best / 2.0
  {
    var unit := 2.0 / best;
    assert unit * best == 2.0;
    var q := score / unit;
    assert q * unit == score;
    assert q * 2.0 == q * (unit * best) == (q * unit) * best == score * best;
  }

  /** The clamp of the query never binds: the distance is one minus the mean of the two shares. */
  lemma DistanceIsMeanShare(score: real, a: Option<nat>, b: Option<nat>, k: RankConstant)
    requires score * Best(k) == Share(k, a) + Share(k, b)
    ensures score / (2.0 / Best(k)) <= 1.0
    ensures Distance(score, k) == 1.0 - (Share(k, a) + Share(k, b)) / 2.0
  {
    Normalised(score, Best(k));
  }

  lemma MeanAboveHalf(best: real, a: real, b: real)
    requires best > 0.0 && a >= 0.0 && b >= 0.0
    ensures best / (best + a) + best / (best + b) > 1.0 <==> a * b < best * best
  {
    var p, q := best + a, best + b;
    var x, y := best / p, best / q;
    assert x * p == best && y * q == best;
    var pq := p * q;
    assert pq > 0.0;
    assert x * pq == (x * p) * q == best * q;
    assert y * pq == (y * q) * p == best * p;
    assert (x + y) * pq == best * p + best * q;
    assert pq == best * best + best * a + best * b + a * b;
    assert best * p + best * q - pq == best * best - a * b;
    var sum := x + y;
    assert sum > 1.0 ==> sum * pq > pq;
    assert sum <= 1.0 ==> sum * pq <= pq;
  }

  lemma ProductsAgree(a: nat, b: nat)
    ensures (a * b) as real == a as real * b as real
  {
  }

  lemma ShareAsQuotient(k: RankConstant, a: nat)
    ensures Share(k, Some(a)) == Best(k) / (Best(k) + a as real)
  {
    assert (k + 1 + a) as real == Best(k) + a as real;
  }

  lemma OrderAsReals(p: int, q: int, x: real, y: real)
    requires x == p as real && y == q as real
    ensures x < y <==> p < q
  {
  }

  lemma RankProducts(best: nat, a: nat, b: nat)
    ensures a as real * b as real < best as real * best as real <==> a * b < best * best
  {
    ProductsAgree(a, b);
    ProductsAgree(best, best);
    OrderAsReals(a * b, best * best, a as real * b as real, best as real * best as real);
  }

  lemma SharesAboveHalf(k: RankConstant, a: nat, b: nat)
    ensures Share(k, Some(a)) + Share(k, Some(b)) > 1.0 <==> a * b < (k + 1) * (k + 1)
  {
    hide Share;
    ShareAsQuotient(k, a);
    ShareAsQuotient(k, b);
    MeanAboveHalf(Best(k), a as real, b as real);
    RankProducts(k + 1, a, b);
  }

  lemma CandidateDistance(score: real, a: Option<nat>, b: Option<nat>, k: RankConstant)
    requires score * Best(k) == Share(k, a) + Share(k, b)
    requires a.Some? || b.Some?
    ensures 0.0 <= Distance(score, k) < 1.0
    ensures Distance(score, k) == 0.0 <==> a == Some(0) && b == Some(0)
    ensures Distance(score, k) < 0.5 <==> a.Some? && b.Some? && a.value * b.value < (k + 1) * (k + 1)
  {
    DistanceIsMeanShare(score, a, b, k);
    if a.Some? && b.Some? {
      SharesAboveHalf(k, a.value, b.value);
    }
  }

  /** Every candidate's distance is in [0,1) before the clamp is even needed; it is 0 exactly for an id
      ranked first in both lists, and below one half exactly for an id in both lists whose ranks
      multiply to less than (k+1) squared. */
  lemma FusionDistance(vector: seq<Id>, text: seq<Id>, id: Id, k: RankConstant)
    requires DistinctIds(vector) && DistinctIds(text)
    requires id in vector || id in text
    ensures var d := Distance(Score(vector, text, id, k), k);
            && Score(vector, text, id, k) / (2.0 / Best(k)) <= 1.0
            && 0.0 <= d < 1.0
            && (d == 0.0 <==> Rank(vector, id) == Some(0) && Rank(text, id) == Some(0))
            && (d < 0.5 <==> id in vector && id in text
                             && Rank(vector, id).value * Rank(text, id).value < (k + 1) * (k + 1))
  {
    hide *;
    ScoreIsShares(vector, text, id, k);
    DistanceIsMeanShare(Score(vector, text, id, k), Rank(vector, id), Rank(text, id), k);
    CandidateDistance(Score(vector, text, id, k), Rank(vector, id), Rank(text, id), k);
  }

  lemma ScalingKeepsOrder(x: real, y: real, best: real)
    requires best > 0.0
    ensures x > y <==> x * best > y * best
  {
    assert (x - y) * best == x * best - y * best;
    assert x > y ==> (x - y) * best > 0.0;
    assert x <= y ==> (x - y) * best <= 0.0;
  }

  lemma OrdersAgree(x: real, y: real, k: RankConstant, a: Option<nat>, b: Option<nat>, c: Option<nat>, d: Option<nat>)
    requires x * Best(k) == Share(k, a) + Share(k, b)
    requires y * Best(k) == Share(k, c) + Share(k, d)
    ensures x > y <==> Distance(x, k) < Distance(y, k)
  {
    hide *;
    DistanceIsMeanShare(x, a, b, k);
    DistanceIsMeanShare(y, c, d, k);
    OrderFromScaled(x, y, Best(k), Distance(x, k), Distance(y, k));
  }

  lemma OrderFromScaled(x: real, y: real, best: real, dx: real, dy: real)
    requires best > 0.0 && dx == 1.0 - (x * best) / 2.0 && dy == 1.0 - (y * best) / 2.0
    ensures x > y <==> dx < dy
  {
    ScalingKeepsOrder(x, y, best);
  }

  /** Ordering by descending score is ordering by ascending distance. */
  lemma ScoreOrderIsDistanceOrder(vector: seq<Id>, text: seq<Id>, a: Id, b: Id, k: RankConstant)
    requires DistinctIds(vector) && DistinctIds(text)
    ensures Score(vector, text, a, k) > Score(vector, text, b, k)
       <==> Distance(Score(vector, text, a, k), k) < Distance(Score(vector, text, b, k), k)
  {
    hide *;
    ScoreIsShares(vector, text, a, k);
    ScoreIsShares(vector, text, b, k);
    OrdersAgree(Score(vector, text, a, k), Score(vector, text, b, k), k,
                Rank(vector, a), Rank(text, a), Rank(vector, b), Rank(text, b));
  }
}
