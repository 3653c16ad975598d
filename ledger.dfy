/** Roll-ups over point transactions shared by the admin dashboard and the
    profile page: the earned total (`filter(earned).reduce(+points)`), the
    redeemed total (`filter(redeemed).reduce(+|points|)`) and one user's
    rows. */
module Ledger {
  import opened Types
  import opened Seqs

  predicate IsEarned(t: PointTransaction) { t.kind == Earned }
  predicate IsRedeemed(t: PointTransaction) { t.kind == Redeemed }
  function PointsOf(t: PointTransaction): int { t.points }
  function AbsPoints(t: PointTransaction): int { if t.points < 0 then -t.points else t.points }

  /** A transaction's contribution to the earned total. */
  function EarnedPoints(t: PointTransaction): int
  {
    if t.kind == Earned then t.points else 0
  }

  function EarnedTotal(txs: seq<PointTransaction>): int
  {
    Sum(Filter(txs, IsEarned), PointsOf)
  }

  function RedeemedTotal(txs: seq<PointTransaction>): int
  {
    Sum(Filter(txs, IsRedeemed), AbsPoints)
  }

  /** The rows of one user, in their order. */
  function OfUser(txs: seq<PointTransaction>, userId: string): seq<PointTransaction>
  {
    Filter(txs, (t: PointTransaction) => t.userId == userId)
  }

  /** The earned total is the sum over every transaction of its points when
      it was earned and of nothing otherwise: redeemed rows are ignored. */
  lemma EarnedTotalIsMaskedSum(txs: seq<PointTransaction>)
    ensures EarnedTotal(txs) == Sum(txs, EarnedPoints)
  {
    SumFilter(txs, IsEarned, PointsOf, EarnedPoints);
  }

  /** One more row adds its points when earned and nothing when redeemed. */
  lemma EarnedTotalAppend(txs: seq<PointTransaction>, t: PointTransaction)
    ensures EarnedTotal(txs + [t]) == EarnedTotal(txs) + EarnedPoints(t)
  {
    FilterConcat(txs, [t], IsEarned);
    SumConcat(Filter(txs, IsEarned), Filter([t], IsEarned), PointsOf);
    assert Filter([t], IsEarned) == if t.kind == Earned then [t] else [];
  }

  /** Redemptions are totalled by absolute value, so the total is never
      negative, whatever sign the rows carry. */
  lemma RedeemedTotalNonNegative(txs: seq<PointTransaction>)
    ensures RedeemedTotal(txs) >= 0
  {
    var redeemed := Filter(txs, IsRedeemed);
    forall i | 0 <= i < |redeemed| ensures AbsPoints(redeemed[i]) >= 0 {
    }
    SumNonNegative(redeemed, AbsPoints);
  }

  /** Exactly the user's rows, in their original order. */
  lemma OfUserSpec(txs: seq<PointTransaction>, userId: string)
    ensures forall t :: t in OfUser(txs, userId) <==> t in txs && t.userId == userId
    ensures forall a, b :: OfUser(a + b, userId) == OfUser(a, userId) + OfUser(b, userId)
  {
    var p := (t: PointTransaction) => t.userId == userId;
    forall t | t in txs && t.userId == userId ensures t in OfUser(txs, userId) {
      FilterKeeps(txs, p, t);
    }
    forall a, b ensures OfUser(a + b, userId) == OfUser(a, userId) + OfUser(b, userId) {
      FilterConcat(a, b, p);
    }
  }
}
