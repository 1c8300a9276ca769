/**
 * The bandit environment as the source keeps it: a fixed tuple of `Bandit`
 * objects and a step counter updated in place. `Pull` and `Run` are proved to
 * act on the abstract state `State()` exactly as `Simulation.PullEnv` and
 * `Simulation.Simulate` do.
 */
module Mab {
  import opened Arms
  import opened Simulation

  class MAB {
    const bandits: seq<Bandit>
    const bestActionValue: real
    const noRounds: int
    var stepCounter: nat

    /** The arms are distinct objects, each keeping its running-mean invariant. */
    ghost predicate Valid()
      reads this, bandits
    {
      (forall i, j :: 0 <= i < j < |bandits| ==> bandits[i] != bandits[j]) &&
      (forall i :: 0 <= i < |bandits| ==> bandits[i].Valid())
    }

    /** The arms as values, in their fixed order. */
    function Arms(): (arms: seq<Arm>)
      reads bandits
      ensures |arms| == |bandits|
      ensures forall i :: 0 <= i < |bandits| ==> arms[i] == bandits[i].View()
    {
      seq(|bandits|, i requires 0 <= i < |bandits| reads bandits => bandits[i].View())
    }

    ghost function State(): EnvState
      reads this, bandits
    {
      EnvState(Arms(), stepCounter)
    }

    /** The estimate of every arm, in arm order. */
    function BanditQValues(): (v: seq<real>)
      reads bandits
      ensures |v| == |bandits|
      ensures forall i :: 0 <= i < |bandits| ==> v[i] == bandits[i].qValue
    {
      QValues(Arms())
    }

    /** The pull counter of every arm, in arm order. */
    function BanditCounters(): (v: seq<nat>)
      reads bandits
      ensures |v| == |bandits|
      ensures forall i :: 0 <= i < |bandits| ==> v[i] == bandits[i].counter
    {
      Counters(Arms())
    }

    function NoActions(): (n: nat)
      ensures n == |bandits|
    {
      |bandits|
    }

    /** The number of rounds `Run` plays: none when `noRounds` is not positive. */
    function Rounds(): (n: nat)
      ensures noRounds > 0 ==> n == noRounds
      ensures noRounds <= 0 ==> n == 0
    {
      if noRounds > 0 then noRounds else 0
    }

    constructor (bestActionValue: real, noRounds: int, bandits: seq<Bandit>)
      requires forall i, j :: 0 <= i < j < |bandits| ==> bandits[i] != bandits[j]
      requires forall i :: 0 <= i < |bandits| ==> bandits[i].Valid()
      ensures Valid()
      ensures this.bandits == bandits && this.bestActionValue == bestActionValue
      ensures this.noRounds == noRounds && stepCounter == 0
    {
      this.bandits := bandits;
      this.bestActionValue := bestActionValue;
      this.noRounds := noRounds;
      this.stepCounter := 0;
    }

    /**
     * Pulls arm `action` with the uniform draw `u`: returns its reward and its
     * new estimate; only that arm and the step counter change.
     */
    method Pull(action: nat, u: real) returns (reward: real, q: real)
      requires Valid()
      requires action < |bandits|
      requires 0.0 <= u < 1.0
      modifies this, bandits[action]
      ensures Valid()
      ensures PullEnv(old(State()), action, u) == EnvPull(State(), reward, q)
      ensures stepCounter == old(stepCounter) + 1
      ensures bandits[action].counter == old(bandits[action].counter) + 1
      ensures q == bandits[action].qValue
      ensures forall j :: 0 <= j < |bandits| && j != action ==> bandits[j].View() == old(bandits[j].View())
      ensures bandits[action].rewards == old(bandits[action].rewards) + [reward]
      ensures forall j :: 0 <= j < |bandits| && j != action ==> bandits[j].rewards == old(bandits[j].rewards)
    {
      ghost var before := State();
      stepCounter := stepCounter + 1;
      reward := bandits[action].Pull(u);
      q := bandits[action].qValue;
      assert forall j :: 0 <= j < |bandits| && j != action ==> bandits[j] != bandits[action];
      assert Arms() == before.arms[action := bandits[action].View()];
    }

    /**
     * One round of `Run`: ask `strategy` for an action, pull it with the
     * draw's noise and return the regret `bestActionValue - q` and the reward.
     */
    method Round(strategy: Strategy, d: Draw) returns (regret: real, reward: real)
      requires Valid()
      requires |bandits| > 0
      modifies this, bandits
      ensures Valid()
      ensures Play(old(State()), strategy, d, bestActionValue) == RoundResult(State(), regret, reward)
      ensures var a := Choose(strategy, old(State()), d);
        bandits[a].rewards == old(bandits[a].rewards) + [reward] &&
        forall j :: 0 <= j < |bandits| && j != a ==> bandits[j].rewards == old(bandits[j].rewards)
    {
      var action := Choose(strategy, EnvState(Arms(), stepCounter), d);
      var q;
      reward, q := Pull(action, d.noise);
      regret := bestActionValue - q;
    }

    /**
     * Plays `Rounds()` rounds with `strategy`, round `i` using `draws[i]`, and
     * returns the regret and reward of every round in round order.
     */
    method Run(strategy: Strategy, draws: seq<Draw>) returns (regrets: seq<real>, rewards: seq<real>)
      requires Valid()
      requires |draws| == Rounds()
      requires |bandits| > 0 || draws == []
      modifies this, bandits
      ensures Valid()
      ensures Simulate(old(State()), strategy, draws, bestActionValue) == Outcome(State(), regrets, rewards)
      ensures |regrets| == Rounds() && |rewards| == Rounds()
      ensures stepCounter == old(stepCounter) + Rounds()
      ensures TotalPulls(Arms()) == old(TotalPulls(Arms())) + Rounds()
    {
      ghost var start := State();
      regrets, rewards := [], [];
      for i := 0 to |draws|
        invariant Valid()
        invariant Simulate(start, strategy, draws[..i], bestActionValue) == Outcome(State(), regrets, rewards)
      {
        var regret, reward := Round(strategy, draws[i]);
        SimulateNext(start, strategy, draws, bestActionValue, i);
        regrets := regrets + [regret];
        rewards := rewards + [reward];
      }
      assert draws[..|draws|] == draws;
      if draws != [] {
        SimulateCountsPulls(start, strategy, draws, bestActionValue);
      }
    }
  }
}
