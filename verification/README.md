# Multi-armed bandit simulator: a verified model

This project models the core of `exploration.py`, a small multi-armed-bandit
simulator. It covers:

- the arm (`Bandit`), which keeps a running estimate of its value;
- the environment (`MAB`), which owns the arms and a global step counter and plays rounds;
- the action-selection rules `random`, `epsilon_greedy`, `decaying_epsilon_greedy` and `ucb`.

Two substitutions make the model exact:

- Python floats are Dafny `real`s.
- Every call into `np.random` is an explicit input. A round consumes one `Draw`, which holds:
  - `uniform` in [0, 1) for the epsilon test;
  - `pick`, a natural number reduced modulo the number of arms, for `randint(0, n)`;
  - `noise` in [0, 1) for the arm's `np.random.uniform()`.

The UCB confidence term `c * sqrt(log(step) / (counter + 1))` is an arbitrary
function `bonus(step, counter)`, supplied with the strategy.

Modules:

- `Arms` (`arm.dfy`) has three parts:
  - the value `Arm` and the pure pull `PullArm`;
  - the specification `Estimate`, which folds the incremental-mean rule over the rewards, with its lemmas;
  - the class `Bandit`, whose fields `Pull` updates in place. Ghost fields keep the rewards returned so far, and `Valid` states that `qValue` is their running mean.
- `Policies` (`policies.dfy`) holds `ArgMax` (the first maximum, as `np.argmax`) and the four selection rules as functions of the estimates, the counters, the step counter and the draws.
- `Simulation` (`simulation.dfy`) holds the environment as a value. It defines:
  - one pull, `PullEnv`;
  - one round, `Play`;
  - a whole run, `Simulate`, over a sequence of draws.

  Lemmas about a run cover its prefixes, what each round records, and the total pull count.
- `Mab` (`mab.dfy`) holds the class `MAB`. `Pull`, `Round` and `Run` mutate the bandits and the step counter. Each is proved to act on the abstract state `State()` exactly as `PullEnv`, `Play` and `Simulate` do.

## Model

| member | source | states |
|---|---|---|
| Arms.MeanStep | exploration.py:28 | one incremental step applied to the mean of m values gives the mean of those values and the new reward |
| Arms.EstimateIsWeightedMean | exploration.py:20-28 | after any rewards, the estimate is the mean of the prior (weighted by the initial counter) and the rewards |
| Arms.EstimateIsMean | exploration.py:20-28 | starting from counter 0, the estimate after n >= 1 pulls is the arithmetic mean of the n rewards |
| Arms.PriorIsForgotten | exploration.py:20-28 | starting from counter 0, the initial q_value has no influence once the arm has been pulled |
| Arms.PullArm | exploration.py:25-29 | a pull keeps the bias, adds exactly one to the counter, returns the reward bias + u, which lies in [bias, bias + 1), and folds that reward into q with the new counter |
| Arms.PullArmExtendsEstimate | exploration.py:25-29 | a pull extends the running estimate by exactly the reward it returns |
| Arms.PullArmMovesTowardReward | exploration.py:28 | every pull, including the first from counter 0, leaves the new estimate between the old estimate and the reward |
| Arms.Bandit.constructor | exploration.py:20-23 | a new arm has the given bias, estimate and counter, and no rewards yet, so the running-mean invariant holds |
| Arms.Bandit.Pull | exploration.py:25-29 | the fields change as in PullArm; counter + 1; q_value becomes q + (reward - q) / counter; reward in [bias, bias + 1); the running-mean invariant is kept; from counter 0, q_value is the mean of all rewards |
| Policies.ArgMax | exploration.py:93 | np.argmax: an index whose value is at least every value, and strictly greater than every value before it |
| Policies.FirstMaxIsArgMax | exploration.py:93 | the first-maximum property determines the index uniquely |
| Policies.RandomAction | exploration.py:85 | random returns the supplied in-range draw |
| Policies.EpsilonGreedy | exploration.py:90-95 | a draw below 1 - epsilon gives the first maximum of the estimates; otherwise the result is the random index |
| Policies.EpsilonZeroIsGreedy | exploration.py:92-93 | with epsilon 0 and a draw in [0, 1), the rule is always greedy |
| Policies.EpsilonOneExplores | exploration.py:92-95 | with epsilon 1 and a non-negative draw, the rule always takes the random index |
| Policies.DecayingEpsilonGreedy | exploration.py:99-110 | decaying_epsilon_greedy always returns an arm index |
| Policies.DecayingIsEpsilonGreedy | exploration.py:99-110 | the decaying rule is epsilon_greedy with epsilon_init at step 0 and with epsilon_init / step afterwards, unclamped |
| Policies.DecayingExploresWhileEpsilonAtLeastOne | exploration.py:106-110 | while 0 < step <= epsilon_init, the unclamped decayed epsilon is at least 1, so every draw explores |
| Policies.Optimistic | exploration.py:118-119 | each entry is the arm's estimate plus its confidence bonus |
| Policies.Ucb | exploration.py:114-120 | ucb picks the first maximum of the estimates at step 0, and otherwise the first maximum of estimate + bonus |
| Policies.UcbAtStepZeroIsGreedy | exploration.py:116-117 | at step 0, ucb is greedy for every bonus, so for every c |
| Policies.UcbWithoutBonusIsGreedy | exploration.py:118-119 | a bonus that is zero everywhere (c = 0) makes ucb greedy |
| Policies.UcbPrefersLessPulled | exploration.py:118-119 | with a bonus strictly decreasing over non-negative counters, an arm pulled less often than the chosen one has a strictly lower estimate |
| Simulation.QValues | exploration.py:64-66 | bandit_q_values: the estimates, in arm order |
| Simulation.Counters | exploration.py:60-62 | bandit_counters: the counters, in arm order |
| Simulation.Choose | exploration.py:53 | every strategy returns a valid arm index |
| Simulation.PullEnv | exploration.py:42-44 | MAB.pull: the step counter goes up by one; only arm a changes, and it changes as one pull of a; the result is the reward and a's new q_value |
| Simulation.Play | exploration.py:53-57 | one round: the state is that after pulling the chosen arm with the draw's noise; regret = best_action_value minus that arm's new q; the reward is that pull's reward, in [bias, bias + 1) of that arm |
| Simulation.Simulate | exploration.py:46-58 | a run keeps the number of arms and every bias, adds one step per round, and records one regret and one reward per round |
| Simulation.SimulateNext | exploration.py:49-57 | the first i + 1 rounds are the first i rounds followed by round i, whose regret and reward are appended |
| Simulation.SimulateDropLast | exploration.py:56-57 | dropping the last draw drops exactly the last recorded regret and reward |
| Simulation.SimulatePrefix | exploration.py:46-58 | the first k rounds of a run record exactly the first k regrets and rewards of the whole run |
| Simulation.SimulateRound | exploration.py:53-57 | entry i of regrets is best_action_value minus the new q of the arm chosen in the state after i rounds; entry i of rewards is that pull's reward, in [bias, bias + 1) of that arm; that state is i steps on |
| Simulation.TotalPullsUpdate | exploration.py:26 | replacing one arm changes the total pull count by exactly the change in that arm's counter |
| Simulation.SimulateCountsPulls | exploration.py:43-44 | every round adds exactly one pull to the arms' total counter |
| Simulation.TwoArmsGreedyFirstRound | exploration.py:42-58 | two fresh arms with greedy selection: arm 0 wins the tie and gets the reward as its estimate; arm 1 is untouched; the regret is best minus that reward |
| Mab.MAB.Arms | exploration.py:36 | the arms as values, one per bandit, in order |
| Mab.MAB.BanditQValues | exploration.py:64-66 | bandit_q_values: entry i is bandit i's q_value |
| Mab.MAB.BanditCounters | exploration.py:60-62 | bandit_counters: entry i is bandit i's counter |
| Mab.MAB.NoActions | exploration.py:68-70 | no_actions is the number of bandits given at construction |
| Mab.MAB.Rounds | exploration.py:49 | range(no_rounds) runs no_rounds times, and no times when no_rounds is not positive |
| Mab.MAB.constructor | exploration.py:35-40 | keeps the bandits, best_action_value and no_rounds; step_counter starts at 0 |
| Mab.MAB.Pull | exploration.py:42-44 | acts on the state as PullEnv; step_counter + 1; only bandit `action` changes, its counter by one and its reward history by the returned reward; every other history is unchanged; returns its reward and new q_value |
| Mab.MAB.Round | exploration.py:53-57 | one loop iteration acts on the state as Play: choose, pull, regret = best_action_value - q; only the chosen bandit's reward history grows, by the returned reward |
| Mab.MAB.Run | exploration.py:46-58 | acts on the state as Simulate; returns lists of exactly no_rounds regrets and rewards in round order; step_counter and the total pull count grow by no_rounds |

## Left out

- `softmax` (exploration.py:124-129) uses `exp`, normalisation over floats and categorical sampling, so it has no exact counterpart over `real`.
- `plot` (exploration.py:73-80) renders with matplotlib and writes a file.
- The progress printing in `run` (exploration.py:50-52) is console output with no effect on the results.
- The experiment driver under `__main__` (exploration.py:133-166) is parameter lists and result-collection glue. It builds arms with prior estimate `1 - bias` and counter 0, which is the case `Arms.PriorIsForgotten` covers.
- The numeric form of the UCB confidence term is left out. Dafny has no `sqrt` or `log`, so `bonus(step, counter)` is an arbitrary function of the same two inputs. `Policies.UcbPrefersLessPulled` assumes only that it strictly decreases as the (non-negative) counter grows.
- Floating-point rounding is left out: all arithmetic is exact over `real`.
- The global `np.random` generator is left out. Its values are inputs, and the order in which the source consumes them is not modelled.
  - `pick` stands for `randint(0, n)` as any natural number reduced modulo n. This gives every index in [0, n).
  - The draws of a round that the rule does not use are ignored.
- Statistical properties (convergence of estimates or of selection frequencies) cannot be stated without a probability model.
- Arms.Bandit.constructor: the default arguments `q_value=0, counter=0` are passed explicitly, so `Bandit(b)` is the constructor called with `(b, 0.0, 0)`. The counter is a natural number. A negative initial counter, which Python accepts, could make `1 / counter` divide by zero, and it is not modelled.
- Mab.MAB.constructor: the bandits must be distinct objects. The source accepts the same `Bandit` twice in `*bandits`; the model does not cover that aliasing.
- Mab.MAB.Pull: the action must be in [0, no_actions). Python's negative indices, which select from the end, are not modelled; no strategy produces them.
- Mab.MAB.Run: with no bandits the run must have no rounds. In the source every strategy fails on an empty bandit tuple.
- Policies.DecayingEpsilonGreedy: its own contract states only that the result is an arm index. Its behaviour is stated by `Policies.DecayingIsEpsilonGreedy`.
- Simulation.Choose: its own contract states only that the result is an arm index. What each strategy chooses is stated on the rules in `Policies`.
