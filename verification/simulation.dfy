/**
 * The bandit environment as values: the arms and the global step counter,
 * one pull, one round (choose, pull, record regret and reward) and a whole
 * run. The class `Mab.MAB` is proved to behave exactly as these functions.
 */
module Simulation {
  import opened Arms
  import opened Policies

  /** The arms, in their fixed order, and the number of pulls made so far. */
  datatype EnvState = EnvState(arms: seq<Arm>, step: nat)

  /** A uniform draw from [0, 1). */
  type UnitInterval = r: real | 0.0 <= r < 1.0

  /**
   * The random numbers one round consumes: `uniform` for the epsilon test,
   * `pick` for a uniformly random arm index, taken modulo the number of arms,
   * and `noise` for the reward.
   */
  datatype Draw = Draw(uniform: UnitInterval, pick: nat, noise: UnitInterval)

  /** An exploration strategy together with its parameter. */
  datatype Strategy =
    | RandomRule
    | EpsilonGreedyRule(epsilon: real)
    | DecayingRule(epsilonInit: real)
    | UcbRule(bonus: (int, int) -> real)

  /** The estimates of the arms, in arm order. */
  function QValues(arms: seq<Arm>): (v: seq<real>)
    ensures |v| == |arms|
    ensures forall i :: 0 <= i < |arms| ==> v[i] == arms[i].q
  {
    seq(|arms|, i requires 0 <= i < |arms| => arms[i].q)
  }

  /** The pull counters of the arms, in arm order. */
  function Counters(arms: seq<Arm>): (v: seq<nat>)
    ensures |v| == |arms|
    ensures forall i :: 0 <= i < |arms| ==> v[i] == arms[i].counter
  {
    seq(|arms|, i requires 0 <= i < |arms| => arms[i].counter)
  }

  /** The action the strategy selects in the given state: always an arm index. */
  function Choose(s: Strategy, e: EnvState, d: Draw): (a: nat)
    requires |e.arms| > 0
    ensures a < |e.arms|
  {
    var q := QValues(e.arms);
    var pick := d.pick % |e.arms|;
    match s
    case RandomRule => RandomAction(|e.arms|, pick)
    case EpsilonGreedyRule(epsilon) => EpsilonGreedy(q, epsilon, d.uniform, pick)
    case DecayingRule(epsilonInit) => DecayingEpsilonGreedy(q, e.step, epsilonInit, d.uniform, pick)
    case UcbRule(bonus) => Ucb(q, Counters(e.arms), e.step, bonus)
  }

  /** The state after a pull, the reward and the pulled arm's new estimate. */
  datatype EnvPull = EnvPull(env: EnvState, reward: real, q: real)

  /**
   * Pull arm `a` with the uniform draw `u`. Only arm `a` changes, as one
   * pull of that arm changes it, and the step counter moves by one.
   */
  function PullEnv(e: EnvState, a: nat, u: real): (result: EnvPull)
    requires a < |e.arms| && 0.0 <= u < 1.0
    ensures result.env.step == e.step + 1
    ensures |result.env.arms| == |e.arms|
    ensures forall j :: 0 <= j < |e.arms| && j != a ==> result.env.arms[j] == e.arms[j]
    ensures PullArm(e.arms[a], u) == PullResult(result.env.arms[a], result.reward)
    ensures result.q == result.env.arms[a].q
  {
    var pulled := PullArm(e.arms[a], u);
    EnvPull(EnvState(e.arms[a := pulled.after], e.step + 1), pulled.reward, pulled.after.q)
  }

  /** The state after a round, the round's regret and its reward. */
  datatype RoundResult = RoundResult(env: EnvState, regret: real, reward: real)

  /**
   * One round from state `e`: the strategy chooses an arm, the arm is pulled
   * with the draw's noise, and the regret is `best` minus the arm's new estimate.
   */
  function Play(e: EnvState, s: Strategy, d: Draw, best: real): (round: RoundResult)
    requires |e.arms| > 0
    ensures var a := Choose(s, e, d);
      round.env == PullEnv(e, a, d.noise).env &&
      round.regret == best - round.env.arms[a].q &&
      round.reward == PullEnv(e, a, d.noise).reward &&
      e.arms[a].bias <= round.reward < e.arms[a].bias + 1.0
  {
    var pulled := PullEnv(e, Choose(s, e, d), d.noise);
    RoundResult(pulled.env, best - pulled.q, pulled.reward)
  }

  /** What a run produces: the final state and the regret and reward of every round. */
  datatype Outcome = Outcome(env: EnvState, regrets: seq<real>, rewards: seq<real>)

  /**
   * A run of `|ds|` rounds from `e`, round `i` consuming draw `ds[i]`, with
   * the regrets and rewards recorded in round order.
   */
  function Simulate(e: EnvState, s: Strategy, ds: seq<Draw>, best: real): (o: Outcome)
    requires |e.arms| > 0 || ds == []
    ensures |o.env.arms| == |e.arms|
    ensures o.env.step == e.step + |ds|
    ensures |o.regrets| == |ds| && |o.rewards| == |ds|
    ensures forall j :: 0 <= j < |e.arms| ==> o.env.arms[j].bias == e.arms[j].bias
    decreases |ds|
  {
    if ds == [] then Outcome(e, [], [])
    else
      var prev := Simulate(e, s, ds[..|ds| - 1], best);
      var round := Play(prev.env, s, ds[|ds| - 1], best);
      Outcome(round.env, prev.regrets + [round.regret], prev.rewards + [round.reward])
  }

  /** The first `i + 1` rounds of a run are its first `i` rounds followed by round `i`. */
  lemma SimulateNext(e: EnvState, s: Strategy, ds: seq<Draw>, best: real, i: nat)
    requires |e.arms| > 0
    requires i < |ds|
    ensures var prev := Simulate(e, s, ds[..i], best);
      var round := Play(prev.env, s, ds[i], best);
      Simulate(e, s, ds[..i + 1], best) == Outcome(round.env, prev.regrets + [round.regret], prev.rewards + [round.reward])
  {
    assert ds[..i + 1][..i] == ds[..i];
  }

  /** Dropping the last draw drops the last round's entries and nothing else. */
  lemma SimulateDropLast(e: EnvState, s: Strategy, ds: seq<Draw>, best: real)
    requires |e.arms| > 0 && ds != []
    ensures var o := Simulate(e, s, ds, best);
      var prev := Simulate(e, s, ds[..|ds| - 1], best);
      o.regrets[..|ds| - 1] == prev.regrets && o.rewards[..|ds| - 1] == prev.rewards
  {
  }

  /** Recorded entries that are a prefix of a prefix are a prefix of the whole. */
  lemma PrefixOfPrefix(o: Outcome, prev: Outcome, ok: Outcome, n: nat, k: nat)
    requires k <= n <= |o.regrets| && n <= |o.rewards|
    requires o.regrets[..n] == prev.regrets && o.rewards[..n] == prev.rewards
    requires ok.regrets == prev.regrets[..k] && ok.rewards == prev.rewards[..k]
    ensures ok.regrets == o.regrets[..k] && ok.rewards == o.rewards[..k]
  {
    assert o.regrets[..k] == o.regrets[..n][..k];
    assert o.rewards[..k] == o.rewards[..n][..k];
  }

  /** All recorded entries are a prefix of themselves. */
  lemma WholeIsPrefix(o: Outcome)
    ensures o.regrets == o.regrets[..|o.regrets|] && o.rewards == o.rewards[..|o.rewards|]
  {
  }

  /** A run of the first `k` rounds records exactly the first `k` entries of a longer run. */
  lemma {:induction false} SimulatePrefix(e: EnvState, s: Strategy, ds: seq<Draw>, best: real, k: nat)
    requires |e.arms| > 0
    requires k <= |ds|
    ensures var o := Simulate(e, s, ds, best);
      var ok := Simulate(e, s, ds[..k], best);
      ok.regrets == o.regrets[..k] && ok.rewards == o.rewards[..k]
    decreases |ds|
  {
    if k < |ds| {
      var init := ds[..|ds| - 1];
      SimulatePrefix(e, s, init, best, k);
      SimulateDropLast(e, s, ds, best);
      assert init[..k] == ds[..k];
      PrefixOfPrefix(Simulate(e, s, ds, best), Simulate(e, s, init, best), Simulate(e, s, ds[..k], best), |init|, k);
    } else {
      assert ds[..k] == ds;
      WholeIsPrefix(Simulate(e, s, ds, best));
    }
  }

  /**
   * Round `i` of a run: in the state reached after `i` rounds the strategy
   * chooses arm `a`; the round's regret is `best` minus that arm's new
   * estimate and its reward lies in `[bias, bias + 1)` of that arm.
   */
  lemma SimulateRound(e: EnvState, s: Strategy, ds: seq<Draw>, best: real, i: nat)
    requires |e.arms| > 0
    requires i < |ds|
    ensures var before := Simulate(e, s, ds[..i], best).env;
      var a := Choose(s, before, ds[i]);
      var pulled := PullEnv(before, a, ds[i].noise);
      var o := Simulate(e, s, ds, best);
      before.step == e.step + i &&
      o.regrets[i] == best - pulled.env.arms[a].q &&
      o.rewards[i] == pulled.reward &&
      e.arms[a].bias <= o.rewards[i] < e.arms[a].bias + 1.0
  {
    SimulateNext(e, s, ds, best, i);
    SimulatePrefix(e, s, ds, best, i + 1);
    var before := Simulate(e, s, ds[..i], best).env;
    var round := Play(before, s, ds[i], best);
    var next := Simulate(e, s, ds[..i + 1], best);
    assert next.regrets[i] == round.regret && next.rewards[i] == round.reward;
  }

  /** Total number of pulls recorded by the arms' counters. */
  function TotalPulls(arms: seq<Arm>): (total: int)
  {
    if arms == [] then 0 else TotalPulls(arms[..|arms| - 1]) + arms[|arms| - 1].counter
  }

  /** Replacing one arm changes the total by the change of that arm's counter. */
  lemma {:induction false} TotalPullsUpdate(arms: seq<Arm>, a: nat, arm: Arm)
    requires a < |arms|
    ensures TotalPulls(arms[a := arm]) == TotalPulls(arms) - arms[a].counter + arm.counter
    decreases |arms|
  {
    var n := |arms| - 1;
    var updated := arms[a := arm];
    if a == n {
      assert updated[..n] == arms[..n];
    } else {
      TotalPullsUpdate(arms[..n], a, arm);
      assert updated[..n] == arms[..n][a := arm];
    }
  }

  /** Every round adds exactly one pull to exactly one arm. */
  lemma {:induction false} SimulateCountsPulls(e: EnvState, s: Strategy, ds: seq<Draw>, best: real)
    requires |e.arms| > 0
    ensures TotalPulls(Simulate(e, s, ds, best).env.arms) == TotalPulls(e.arms) + |ds|
    decreases |ds|
  {
    if ds != [] {
      var init := ds[..|ds| - 1];
      var prev := Simulate(e, s, init, best);
      SimulateCountsPulls(e, s, init, best);
      var a := Choose(s, prev.env, ds[|ds| - 1]);
      var pulled := PullEnv(prev.env, a, ds[|ds| - 1].noise);
      assert pulled.env.arms == prev.env.arms[a := pulled.env.arms[a]];
      TotalPullsUpdate(prev.env.arms, a, pulled.env.arms[a]);
    }
  }

  /**
   * Two arms with biases 0 and 0.5 and estimates 0, one round of epsilon-greedy
   * with epsilon 0: the tie goes to arm 0, whose estimate becomes the reward
   * and whose counter becomes 1, while arm 1 is untouched.
   */
  lemma TwoArmsGreedyFirstRound(d: Draw)
    ensures var e := EnvState([Arm(0.0, 0.0, 0), Arm(0.5, 0.0, 0)], 0);
      var o := Simulate(e, EpsilonGreedyRule(0.0), [d], 1.0);
      o.env.arms[0].q == o.rewards[0] == d.noise &&
      o.env.arms[0].counter == 1 &&
      o.env.arms[1] == e.arms[1] &&
      o.env.step == 1 &&
      o.regrets == [1.0 - d.noise]
  {
    var e := EnvState([Arm(0.0, 0.0, 0), Arm(0.5, 0.0, 0)], 0);
    assert [d][..0] == [];
    assert QValues(e.arms) == [0.0, 0.0];
    assert ArgMax([0.0, 0.0]) == 0;
  }
}
