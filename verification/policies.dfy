/**
 * The action-selection rules. Each one is a pure decision over the arms'
 * estimates, their counters and the environment's step counter; the random
 * numbers a rule would draw are passed in: `u`, a uniform draw in [0, 1),
 * and `pick`, an index drawn uniformly from [0, number of arms).
 */
module Policies {

  /**
   * `i` is the first position of a maximal value of `v`: no value exceeds
   * `v[i]`, and every value before `i` is strictly smaller.
   */
  ghost predicate IsFirstMax(v: seq<real>, i: int)
  {
    0 <= i < |v| &&
    (forall j :: 0 <= j < |v| ==> v[j] <= v[i]) &&
    (forall j :: 0 <= j < i ==> v[j] < v[i])
  }

  /** Greedy choice: the lowest index holding the largest value. */
  function ArgMax(v: seq<real>): (i: nat)
    requires |v| > 0
    ensures IsFirstMax(v, i)
  {
    if |v| == 1 then 0
    else
      var m := ArgMax(v[..|v| - 1]);
      if v[m] < v[|v| - 1] then |v| - 1 else m
  }

  /** The first-maximum characterisation determines the greedy choice. */
  lemma FirstMaxIsArgMax(v: seq<real>, i: int)
    requires IsFirstMax(v, i)
    ensures i == ArgMax(v)
  {
    var m := ArgMax(v);
    assert !(i < m) && !(m < i);
  }

  /** Uniformly random selection: the supplied draw. */
  function RandomAction(noActions: nat, pick: int): (a: nat)
    requires 0 <= pick < noActions
    ensures a < noActions && a == pick
  {
    pick
  }

  /**
   * Greedy when the draw `u` falls below `1 - epsilon`, otherwise the
   * uniformly random index `pick`.
   */
  function EpsilonGreedy(q: seq<real>, epsilon: real, u: real, pick: int): (a: nat)
    requires |q| > 0 && 0 <= pick < |q|
    ensures a < |q|
    ensures u < 1.0 - epsilon ==> IsFirstMax(q, a)
    ensures !(u < 1.0 - epsilon) ==> a == pick
  {
    if u < 1.0 - epsilon then ArgMax(q) else pick
  }

  /** With epsilon 0 and a draw in [0, 1) the rule always exploits. */
  lemma EpsilonZeroIsGreedy(q: seq<real>, u: real, pick: int)
    requires |q| > 0 && 0 <= pick < |q|
    requires 0.0 <= u < 1.0
    ensures EpsilonGreedy(q, 0.0, u, pick) == ArgMax(q)
  {
  }

  /** With epsilon 1 and a non-negative draw the rule always explores. */
  lemma EpsilonOneExplores(q: seq<real>, u: real, pick: int)
    requires |q| > 0 && 0 <= pick < |q|
    requires 0.0 <= u
    ensures EpsilonGreedy(q, 1.0, u, pick) == pick
  {
  }

  /**
   * Epsilon-greedy whose epsilon decays with the step counter: `epsilonInit`
   * before the first pull, `epsilonInit / step` afterwards, never clamped.
   */
  function DecayingEpsilonGreedy(q: seq<real>, step: nat, epsilonInit: real, u: real, pick: int): (a: nat)
    requires |q| > 0 && 0 <= pick < |q|
    ensures a < |q|
  {
    if step == 0 then
      if u < 1.0 - epsilonInit then ArgMax(q) else pick
    else
      if u < 1.0 - epsilonInit / (step as real) then ArgMax(q) else pick
  }

  /** The decaying rule is epsilon-greedy with the decayed epsilon. */
  lemma DecayingIsEpsilonGreedy(q: seq<real>, step: nat, epsilonInit: real, u: real, pick: int)
    requires |q| > 0 && 0 <= pick < |q|
    ensures step == 0 ==>
      DecayingEpsilonGreedy(q, step, epsilonInit, u, pick) == EpsilonGreedy(q, epsilonInit, u, pick)
    ensures step > 0 ==>
      DecayingEpsilonGreedy(q, step, epsilonInit, u, pick) == EpsilonGreedy(q, epsilonInit / (step as real), u, pick)
  {
  }

  /**
   * Without clamping, while the step counter is positive but at most
   * `epsilonInit`, the decayed epsilon is at least 1 and every draw explores.
   */
  lemma DecayingExploresWhileEpsilonAtLeastOne(q: seq<real>, step: nat, epsilonInit: real, u: real, pick: int)
    requires |q| > 0 && 0 <= pick < |q|
    requires 0 < step && (step as real) <= epsilonInit
    requires 0.0 <= u
    ensures DecayingEpsilonGreedy(q, step, epsilonInit, u, pick) == pick
  {
    assert 1.0 <= epsilonInit / (step as real);
  }

  /** Estimates raised by the confidence bonus of every arm. */
  function Optimistic(q: seq<real>, counters: seq<nat>, step: nat, bonus: (int, int) -> real): (v: seq<real>)
    requires |counters| == |q|
    ensures |v| == |q|
    ensures forall i :: 0 <= i < |q| ==> v[i] == q[i] + bonus(step, counters[i])
  {
    seq(|q|, i requires 0 <= i < |q| => q[i] + bonus(step, counters[i]))
  }

  /**
   * Upper confidence bound: greedy before the first pull, afterwards greedy
   * on the estimates raised by `bonus(step, counter)`, which stands for the
   * confidence term computed from the step counter and the arm's counter.
   */
  function Ucb(q: seq<real>, counters: seq<nat>, step: nat, bonus: (int, int) -> real): (a: nat)
    requires |q| > 0 && |counters| == |q|
    ensures a < |q|
    ensures step == 0 ==> IsFirstMax(q, a)
    ensures step != 0 ==> IsFirstMax(Optimistic(q, counters, step, bonus), a)
  {
    if step == 0 then ArgMax(q) else ArgMax(Optimistic(q, counters, step, bonus))
  }

  /** Before the first pull the confidence term plays no part, whatever it is. */
  lemma UcbAtStepZeroIsGreedy(q: seq<real>, counters: seq<nat>, bonus: (int, int) -> real)
    requires |q| > 0 && |counters| == |q|
    ensures Ucb(q, counters, 0, bonus) == ArgMax(q)
  {
  }

  /** A confidence term that is zero everywhere (c = 0) makes the rule greedy. */
  lemma UcbWithoutBonusIsGreedy(q: seq<real>, counters: seq<nat>, step: nat, bonus: (int, int) -> real)
    requires |q| > 0 && |counters| == |q|
    requires forall s: int, n: int :: bonus(s, n) == 0.0
    ensures Ucb(q, counters, step, bonus) == ArgMax(q)
  {
    if step != 0 {
      var v := Optimistic(q, counters, step, bonus);
      forall i | 0 <= i < |q| ensures v[i] == q[i] {
        var c := counters[i];
        assert bonus(step, c) == 0.0;
      }
      assert v == q;
    }
  }

  /**
   * When the confidence term strictly decreases in the counter (as
   * `c * sqrt(log(step) / (counter + 1))` does for `c > 0` and `step > 1`),
   * an arm pulled less often than the chosen one has a strictly lower estimate.
   */
  lemma UcbPrefersLessPulled(q: seq<real>, counters: seq<nat>, step: nat, bonus: (int, int) -> real, j: int)
    requires |q| > 0 && |counters| == |q| && step != 0
    requires forall m: int, n: int :: 0 <= m < n ==> bonus(step, n) < bonus(step, m)
    requires 0 <= j < |q|
    ensures var a := Ucb(q, counters, step, bonus);
      counters[j] < counters[a] ==> q[j] < q[a]
  {
    var a := Ucb(q, counters, step, bonus);
    var v := Optimistic(q, counters, step, bonus);
    if counters[j] < counters[a] {
      assert bonus(step, counters[a]) < bonus(step, counters[j]);
      assert v[j] <= v[a];
    }
  }
}
