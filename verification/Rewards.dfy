/** Virtual reward apportionment: floored shares, with the last contributor taking what the floors leave. */
module Rewards {
  import opened Results

  datatype Contribution = Contribution(agentId: string, score: int)
  datatype Allocation = Allocation(agentId: string, amount: int)
  datatype Reward = Reward(allocations: seq<Allocation>, retained: int)

  datatype RewardError = NegativePool | ScoreOutOfRange | NoContributions

  const MINIMUM_ACCEPTED_SCORE := 60

  function Weight(cs: seq<Contribution>): int {
    if cs == [] then 0 else Weight(cs[..|cs| - 1]) + cs[|cs| - 1].score
  }

  function Paid(allocations: seq<Allocation>): int {
    if allocations == [] then 0 else Paid(allocations[..|allocations| - 1]) + allocations[|allocations| - 1].amount
  }

  /** The part of the pool a score earns. */
  function Payable(pool: int, score: int): int {
    pool * score / 100
  }

  /** An amount `a` is the floor of the exact share `payable * score / total`. */
  predicate FloorShare(a: int, payable: int, score: int, total: int) {
    a * total <= payable * score < (a + 1) * total
  }

  /** The floors of the first contributors, each below its exact share by less than one. */
  ghost predicate Floored(allocations: seq<Allocation>, cs: seq<Contribution>, payable: int, total: int) {
    && |allocations| <= |cs|
    && forall i :: 0 <= i < |allocations| ==>
      && allocations[i].agentId == cs[i].agentId
      && FloorShare(allocations[i].amount, payable, cs[i].score, total)
  }

  lemma FloorOf(x: int, d: int)
    requires d > 0
    ensures x / d * d <= x < (x / d + 1) * d
  {
    assert x == x / d * d + x % d;
  }

  lemma CancelFactor(a: int, b: int, t: int)
    requires t > 0 && a * t < b * t
    ensures a < b
  {
    assert a >= b ==> (a - b) * t >= 0;
  }

  lemma PayableInPool(pool: int, score: int)
    requires pool >= 0 && 60 <= score <= 100
    ensures 0 <= Payable(pool, score) <= pool
  {
    assert pool * score <= pool * 100;
    assert pool * score >= 0;
  }

  /** The first `k` floors together stay below their exact share, by less than `k`. */
  lemma {:induction false} FlooredTotal(allocations: seq<Allocation>, cs: seq<Contribution>, payable: int, total: int)
    requires total > 0 && Floored(allocations, cs, payable, total)
    ensures Paid(allocations) * total <= payable * Weight(cs[..|allocations|])
    ensures |allocations| > 0 ==> payable * Weight(cs[..|allocations|]) < (Paid(allocations) + |allocations|) * total
    ensures |allocations| == 0 ==> Paid(allocations) == 0 == Weight(cs[..|allocations|])
    decreases |allocations|
  {
    if allocations != [] {
      var init, last := allocations[..|allocations| - 1], allocations[|allocations| - 1];
      FlooredTotal(init, cs, payable, total);
      assert cs[..|allocations|][..|init|] == cs[..|init|];
      assert FloorShare(last.amount, payable, cs[|init|].score, total);
      assert Weight(cs[..|allocations|]) == Weight(cs[..|init|]) + cs[|init|].score;
      OneMoreFloor(payable, Paid(init), Weight(cs[..|init|]), last.amount, cs[|init|].score, |init|, total);
    }
  }

  lemma OneMoreFloor(payable: int, paid: int, w: int, a: int, score: int, k: nat, total: int)
    requires paid * total <= payable * w && (k > 0 ==> payable * w < (paid + k) * total) && (k == 0 ==> paid == w == 0)
    requires FloorShare(a, payable, score, total)
    ensures (paid + a) * total <= payable * (w + score) < (paid + a + k + 1) * total
  {
    assert payable * (w + score) == payable * w + payable * score;
    assert (paid + a) * total == paid * total + a * total;
    assert (paid + a + k + 1) * total == (paid + k) * total + (a + 1) * total;
  }

  lemma {:induction false} WeightPositive(cs: seq<Contribution>)
    requires cs != [] && forall i :: 0 <= i < |cs| ==> cs[i].score >= 1
    ensures Weight(cs) >= |cs|
    decreases |cs|
  {
    if |cs| > 1 {
      WeightPositive(cs[..|cs| - 1]);
    } else {
      assert cs[..0] == [];
    }
  }

  /**
   * What the last contributor gets when the others are floored: at least its own exact share, and less than that plus
   * the number of the others; alone it gets everything.
   */
  lemma LastShare(allocations: seq<Allocation>, cs: seq<Contribution>, payable: int)
    requires cs != [] && (forall i :: 0 <= i < |cs| ==> cs[i].score >= 1) && payable >= 0
    requires |allocations| == |cs| - 1 && Floored(allocations, cs, payable, Weight(cs))
    ensures var last, score, total := payable - Paid(allocations), cs[|cs| - 1].score, Weight(cs);
      && last * total >= payable * score
      && (|cs| > 1 ==> last * total < payable * score + (|cs| - 1) * total)
      && (|cs| == 1 ==> last == payable)
  {
    WeightPositive(cs);
    FlooredTotal(allocations, cs, payable, Weight(cs));
    RestOf(payable, Paid(allocations), Weight(cs[..|cs| - 1]), cs[|cs| - 1].score, |cs| - 1);
  }

  /** The rest after `k` floors, compared with the exact share of weight `score`. */
  lemma RestOf(payable: int, paid: int, w: int, score: int, k: int)
    requires paid * (w + score) <= payable * w
    ensures (payable - paid) * (w + score) >= payable * score
    ensures payable * w < (paid + k) * (w + score) ==>
      (payable - paid) * (w + score) < payable * score + k * (w + score)
  {
    var total := w + score;
    assert payable * total == payable * w + payable * score;
    assert (payable - paid) * total == payable * total - paid * total;
    assert (paid + k) * total == paid * total + k * total;
  }

  lemma ShareNonNegative(a: int, payable: int, score: int, total: int)
    requires payable >= 0 && score >= 1 && total > 0 && payable * score < (a + 1) * total
    ensures a >= 0
  {
    assert payable * score >= 0 * total;
    CancelFactor(0, a + 1, total);
  }

  lemma LastNonNegative(last: int, payable: int, score: int, total: int)
    requires payable >= 0 && score >= 1 && total > 0 && last * total >= payable * score
    ensures last >= 0
  {
    assert (last + 1) * total == last * total + total;
    ShareNonNegative(last, payable, score, total);
  }

  predicate Accepts(pool: int, score: int, cs: seq<Contribution>) {
    pool >= 0 && MINIMUM_ACCEPTED_SCORE <= score <= 100 && cs != []
  }

  /** The properties the apportionment promises. */
  ghost predicate Apportions(r: Reward, pool: int, score: int, cs: seq<Contribution>)
    requires Accepts(pool, score, cs)
  {
    var payable, total, n := Payable(pool, score), Weight(cs), |cs|;
    && |r.allocations| == n
    && Paid(r.allocations) + r.retained == pool
    && r.retained == pool - payable && 0 <= payable <= pool
    && (forall i :: 0 <= i < n ==> r.allocations[i].agentId == cs[i].agentId && r.allocations[i].amount >= 0)
    && (forall i :: 0 <= i < n - 1 ==> FloorShare(r.allocations[i].amount, payable, cs[i].score, total))
    && r.allocations[n - 1].amount * total >= payable * cs[n - 1].score
    && (n > 1 ==> r.allocations[n - 1].amount * total < payable * cs[n - 1].score + (n - 1) * total)
  }

  method TotalWeight(cs: seq<Contribution>) returns (total: int)
    ensures total == Weight(cs)
  {
    total := 0;
    for i := 0 to |cs|
      invariant total == Weight(cs[..i])
    {
      assert cs[..i + 1][..i] == cs[..i];
      total := total + cs[i].score;
    }
    assert cs[..|cs|] == cs;
  }

  /** All contributors but the last get their floor; the last one gets the rest. */
  ghost predicate Split(allocations: seq<Allocation>, cs: seq<Contribution>, payable: int)
    requires cs != []
  {
    var n := |cs|;
    && |allocations| == n
    && Floored(allocations[..n - 1], cs, payable, Weight(cs))
    && allocations[n - 1] == Allocation(cs[n - 1].agentId, payable - Paid(allocations[..n - 1]))
  }

  /** The loop of the calculation. */
  method Apportion(payable: int, cs: seq<Contribution>) returns (allocations: seq<Allocation>)
    requires cs != [] && forall i :: 0 <= i < |cs| ==> cs[i].score >= 1
    ensures Split(allocations, cs, payable)
  {
    var total := TotalWeight(cs);
    WeightPositive(cs);
    var handedOut := 0;
    allocations := [];
    for i := 0 to |cs|
      invariant |allocations| == i
      invariant i < |cs| ==> handedOut == Paid(allocations) && Floored(allocations, cs, payable, total)
      invariant i == |cs| ==> Split(allocations, cs, payable)
    {
      var amount := if i == |cs| - 1 then payable - handedOut else payable * cs[i].score / total;
      if i < |cs| - 1 {
        FloorOf(payable * cs[i].score, total);
        assert FloorShare(amount, payable, cs[i].score, total);
      }
      ghost var before := allocations;
      handedOut := handedOut + amount;
      allocations := allocations + [Allocation(cs[i].agentId, amount)];
      assert allocations[..i] == before;
    }
  }

  /** Such a split conserves the pool and gives everyone a fair, non-negative amount. */
  lemma SplitApportions(allocations: seq<Allocation>, pool: int, score: int, cs: seq<Contribution>)
    requires Accepts(pool, score, cs) && forall i :: 0 <= i < |cs| ==> cs[i].score >= 1
    requires Split(allocations, cs, Payable(pool, score))
    ensures Apportions(Reward(allocations, pool - Payable(pool, score)), pool, score, cs)
  {
    var payable, total, n := Payable(pool, score), Weight(cs), |cs|;
    var init := allocations[..n - 1];
    PayableInPool(pool, score);
    WeightPositive(cs);
    LastShare(init, cs, payable);
    LastNonNegative(allocations[n - 1].amount, payable, cs[n - 1].score, total);
    forall i | 0 <= i < n - 1
      ensures allocations[i].agentId == cs[i].agentId && allocations[i].amount >= 0
      ensures FloorShare(allocations[i].amount, payable, cs[i].score, total)
    {
      assert init[i] == allocations[i];
      ShareNonNegative(allocations[i].amount, payable, cs[i].score, total);
    }
  }

  /** Scores of contributions lie between 1 and 100. */
  method CalculateVirtualReward(pool: int, score: int, cs: seq<Contribution>)
    returns (reply: Result<Reward, RewardError>)
    requires forall i :: 0 <= i < |cs| ==> 1 <= cs[i].score <= 100
    ensures reply.Success? <==> Accepts(pool, score, cs)
    ensures reply.Success? ==> Apportions(reply.value, pool, score, cs)
    ensures reply == Failure(NegativePool) <==> pool < 0
    ensures reply == Failure(NoContributions) <==> pool >= 0 && 60 <= score <= 100 && cs == []
  {
    if pool < 0 {
      return Failure(NegativePool);
    }
    if score < MINIMUM_ACCEPTED_SCORE || score > 100 {
      return Failure(ScoreOutOfRange);
    }
    if cs == [] {
      return Failure(NoContributions);
    }
    var payable := pool * score / 100;
    var allocations := Apportion(payable, cs);
    SplitApportions(allocations, pool, score, cs);
    return Success(Reward(allocations, pool - payable));
  }
}
