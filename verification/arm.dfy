/**
 * One arm of the multi-armed bandit: a fixed bias, a running estimate of the
 * arm's value (`q_value`) and a pull counter. A pull draws the reward
 * `bias + u` for a uniform draw `u` in [0, 1) and folds it into the estimate
 * with the incremental-mean rule `q <- q + (r - q) / counter`.
 */
module Arms {

  /** The value an arm presents to the environment and to the policies. */
  datatype Arm = Arm(bias: real, q: real, counter: nat)

  /** Folds reward `r` into estimate `q`, where `n` is the count including `r`. */
  function IncrementalMean(q: real, n: nat, r: real): (q1: real)
    requires n > 0
  {
    q + 1.0 / (n as real) * (r - q)
  }

  function Sum(rs: seq<real>): (total: real)
  {
    if rs == [] then 0.0 else Sum(rs[..|rs| - 1]) + rs[|rs| - 1]
  }

  function Mean(rs: seq<real>): (m: real)
    requires |rs| > 0
  {
    Sum(rs) / (|rs| as real)
  }

  /**
   * The estimate an arm holds after the rewards `rs` have been folded in one
   * pull at a time, starting from the prior estimate `q0` with counter `c0`.
   */
  function Estimate(q0: real, c0: nat, rs: seq<real>): (q: real)
  {
    if rs == [] then q0
    else IncrementalMean(Estimate(q0, c0, rs[..|rs| - 1]), c0 + |rs|, rs[|rs| - 1])
  }

  /** One incremental step applied to a mean of `m` values gives the mean of `m + 1`. */
  lemma MeanStep(total: real, m: nat, r: real)
    requires m > 0
    ensures IncrementalMean(total / (m as real), m + 1, r) == (total + r) / ((m + 1) as real)
  {
    var q := total / (m as real);
    var n := (m + 1) as real;
    assert q * (m as real) == total;
    calc {
      IncrementalMean(q, m + 1, r);
      q + 1.0 / n * (r - q);
      (q * n + (r - q)) / n;
      (q * (m as real) + r) / n;
      (total + r) / n;
    }
  }

  /**
   * The incremental rule computes the weighted mean of the prior (weighted by
   * its counter) and every reward received since.
   */
  lemma {:induction false} EstimateIsWeightedMean(q0: real, c0: nat, rs: seq<real>)
    requires c0 + |rs| > 0
    ensures Estimate(q0, c0, rs) == ((c0 as real) * q0 + Sum(rs)) / ((c0 + |rs|) as real)
  {
    if rs != [] {
      var init, r := rs[..|rs| - 1], rs[|rs| - 1];
      if c0 + |init| == 0 {
        assert init == [] && rs == [r];
        assert Sum(rs) == r && c0 == 0;
        assert (c0 as real) * q0 == 0.0;
        assert Estimate(q0, c0, rs) == IncrementalMean(q0, 1, r) == r;
      } else {
        var total := (c0 as real) * q0 + Sum(init);
        EstimateIsWeightedMean(q0, c0, init);
        assert Estimate(q0, c0, init) == total / ((c0 + |init|) as real);
        MeanStep(total, c0 + |init|, r);
        assert Estimate(q0, c0, rs) == IncrementalMean(total / ((c0 + |init|) as real), c0 + |init| + 1, r);
        assert Sum(rs) == Sum(init) + r;
        assert c0 + |init| + 1 == c0 + |rs|;
      }
    }
  }

  /** Starting from counter 0, the estimate is the arithmetic mean of the rewards. */
  lemma EstimateIsMean(q0: real, rs: seq<real>)
    requires |rs| > 0
    ensures Estimate(q0, 0, rs) == Mean(rs)
  {
    EstimateIsWeightedMean(q0, 0, rs);
  }

  /** Starting from counter 0, the prior estimate has no influence after the first pull. */
  lemma PriorIsForgotten(q0: real, q1: real, rs: seq<real>)
    requires |rs| > 0
    ensures Estimate(q0, 0, rs) == Estimate(q1, 0, rs)
  {
    EstimateIsMean(q0, rs);
    EstimateIsMean(q1, rs);
  }

  /** The arm after a pull and the reward the pull returned. */
  datatype PullResult = PullResult(after: Arm, reward: real)

  /**
   * A pull of `arm` with the uniform draw `u`: the reward is `bias + u`, the
   * counter moves by one and the reward is folded into the estimate.
   */
  function PullArm(arm: Arm, u: real): (result: PullResult)
    requires 0.0 <= u < 1.0
    ensures result.after.bias == arm.bias
    ensures result.after.counter == arm.counter + 1
    ensures result.reward == arm.bias + u
    ensures arm.bias <= result.reward < arm.bias + 1.0
    ensures result.after.q == IncrementalMean(arm.q, arm.counter + 1, result.reward)
  {
    var reward := arm.bias + u;
    var counter := arm.counter + 1;
    PullResult(Arm(arm.bias, IncrementalMean(arm.q, counter, reward), counter), reward)
  }

  /** A pull extends the running estimate by the reward it returns. */
  lemma PullArmExtendsEstimate(arm: Arm, u: real, q0: real, c0: nat, rs: seq<real>)
    requires 0.0 <= u < 1.0
    requires arm.counter == c0 + |rs| && arm.q == Estimate(q0, c0, rs)
    ensures var result := PullArm(arm, u);
      result.after.counter == c0 + |rs + [result.reward]| &&
      result.after.q == Estimate(q0, c0, rs + [result.reward])
  {
    var reward := PullArm(arm, u).reward;
    assert (rs + [reward])[..|rs|] == rs;
  }

  /** The product of two non-negative reals is non-negative. */
  lemma MulNonNeg(x: real, y: real)
    requires 0.0 <= x && 0.0 <= y
    ensures 0.0 <= x * y
  {
  }

  /** A step of weight `w` in (0, 1] from `q` towards `r` stays between the two. */
  lemma WeightedStepBetween(q: real, w: real, r: real)
    requires 0.0 < w <= 1.0
    ensures q <= r ==> q <= q + w * (r - q) <= r
    ensures r <= q ==> r <= q + w * (r - q) <= q
  {
    if q <= r {
      MulNonNeg(w, r - q);
      MulNonNeg(1.0 - w, r - q);
      assert (1.0 - w) * (r - q) == (r - q) - w * (r - q);
    } else {
      MulNonNeg(w, q - r);
      MulNonNeg(1.0 - w, q - r);
      assert w * (q - r) == - (w * (r - q));
      assert (1.0 - w) * (q - r) == (q - r) - w * (q - r);
    }
  }

  /**
   * Every pull moves the estimate towards the reward without overshooting
   * it; the first pull from counter 0 lands exactly on the reward.
   */
  lemma PullArmMovesTowardReward(arm: Arm, u: real)
    requires 0.0 <= u < 1.0
    ensures var result := PullArm(arm, u);
      (arm.q <= result.reward ==> arm.q <= result.after.q <= result.reward) &&
      (result.reward <= arm.q ==> result.reward <= result.after.q <= arm.q)
  {
    var w := 1.0 / ((arm.counter + 1) as real);
    assert 0.0 < w <= 1.0;
    WeightedStepBetween(arm.q, w, PullArm(arm, u).reward);
  }

  /**
   * An arm as the source keeps it: fields updated in place by `Pull`. The
   * ghost fields remember the prior and every reward returned so far, and
   * `Valid` states the running-mean invariant over them.
   */
  class Bandit {
    const bias: real
    var qValue: real
    var counter: nat
    ghost const prior: real
    ghost const priorCount: nat
    ghost var rewards: seq<real>

    ghost predicate Valid()
      reads this
    {
      counter == priorCount + |rewards| && qValue == Estimate(prior, priorCount, rewards)
    }

    function View(): Arm
      reads this
    {
      Arm(bias, qValue, counter)
    }

    constructor (bias: real, qValue: real, counter: nat)
      ensures Valid()
      ensures View() == Arm(bias, qValue, counter)
      ensures prior == qValue && priorCount == counter && rewards == []
    {
      this.bias := bias;
      this.qValue := qValue;
      this.counter := counter;
      this.prior := qValue;
      this.priorCount := counter;
      this.rewards := [];
    }

    method Pull(u: real) returns (reward: real)
      requires Valid()
      requires 0.0 <= u < 1.0
      modifies this
      ensures Valid()
      ensures PullArm(old(View()), u) == PullResult(View(), reward)
      ensures counter == old(counter) + 1 && qValue == IncrementalMean(old(qValue), counter, reward)
      ensures rewards == old(rewards) + [reward]
      ensures bias <= reward < bias + 1.0
      ensures priorCount == 0 ==> qValue == Mean(rewards)
    {
      PullArmExtendsEstimate(View(), u, prior, priorCount, rewards);
      counter := counter + 1;
      reward := bias + u;
      qValue := IncrementalMean(qValue, counter, reward);
      rewards := rewards + [reward];
      if priorCount == 0 {
        EstimateIsMean(prior, rewards);
      }
    }
  }
}
