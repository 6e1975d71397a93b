# DQN adaptation manager — Dafny model

This project models the self-adaptation controller of the UPISAS CrowdNav
strategy: the `ReactiveAdaptationManager` in
`UPISAS/strategies/dqnStrategy.py`, the toy `CrowdNavEnvironment` next to it,
and the loop of `train_manager` that drives them.

The manager keeps three things:

- a Q-network;
- a replay memory, a `deque(maxlen=2000)` of `(state, action, reward, next_state, done)` transitions;
- an exploration rate `epsilon`.

It works in an analyze → plan → step cycle:

- `analyze` takes the greedy action, the first argmax of the predicted Q-values.
- `_decode_action` reads that action as three decimal digits. Each digit is mapped linearly onto one parameter range: exploration percentage in [0, 1], edge-duration factor in [0.1, 2.0], route-randomness sigma in [0, 1].
- `plan` hands those parameters out.
- `step` remembers the transition for the chosen action and runs `replay`.
- `replay` does nothing below 32 stored transitions. Otherwise it fits the network once per transition of a random minibatch of 32. The target is the discounted-max Bellman target. Afterwards it decays `epsilon`.

The model is functional:

- The manager is an immutable `Manager<W>` record, generic in the weight type `W`.
- The network is a `Network<W>` value holding an uninterpreted `predict` and an opaque `fit`.
- Every exception the manager, environment and training loop raise outside the Keras calls and the constructor's parameter dictionary is a `Failure` of a `Result`:
  - `KeyError` on the empty `analysis_data`;
  - `ValueError` from `argmax`/`max` of an empty row;
  - `IndexError` when an action is past the end of the target row;
  - `ValueError` from `np.reshape` when an environment state does not have `state_size` components.

Modules:

- `Wrappers`, `Errors`: `Option`, `Result` and the error kinds.
- `States`: the state vector type shared by the environment, the memory and the network.
- `ActionCodec`: `_decode_action`, with a model-side inverse `Encode`.
- `QValues`: `np.argmax` (first index of the maximum) and `np.max`.
- `ReplayMemory`: transitions and the bounded FIFO memory.
- `Exploration`: the `epsilon` schedule.
- `Learning`: the abstract network, training targets and the minibatch loop of `replay`.
- `AdaptationManager`: `__init__`, `replay`, `analyze`, `plan`, `step`.
- `CrowdNavEnvironment`: `reset` and `step` of the environment.
- `Training`: one pass of the `train_manager` loop, an episode, and the episode loop.

Parameters of the model:

- `random.sample(self.memory, 32)` becomes an explicit list of positions. `IsSample` requires 32 distinct positions inside the memory.
- In the training loop those positions come from a `Sampler` function of the episode, the step and the memory size. `ValidSampler` requires every draw to be such a sample.
- The freshly built network's weights are a parameter of `Init`.

Behaviour of the code worth knowing:

- `_decode_action` accepts any integer. An action of 1000 or more yields a sigma above 1, and a negative one yields a sigma below 0 (`ActionCodec.Decode`, `ActionCodec.DecodeInRangeIff`).
- `epsilon` is multiplied by 0.995 whenever it is above 0.01. The last decay therefore lands below 0.01. It stays strictly above 0.01 · 0.995 (`Exploration.Decay`, `Exploration.DecayNAboveFloor`). From 1.0 the last decay leaves 0.995^919 ≈ 0.00999.
- The first shape check on the training path is `np.reshape` in `train_manager`, which raises unless the environment's state has `state_size` components. The network, built with `input_dim=state_size`, would also reject a state of another width in `predict` and `fit`, but the reshape fires first. The CrowdNav states have 3, so training fails in its first episode for any other `state_size` (`Training.ShapeMismatchFails`).
- `plan` may be called any number of times after one `analyze`. `step` reuses the same analysis until the next `analyze`.
- `analyze` never consults `epsilon`: the action choice is always greedy.

## Model

| member | source | states |
|---|---|---|
| ActionCodec.Decode | UPISAS/strategies/dqnStrategy.py:85-106 | exploration and edge factor always lie in [0,1] and [0.1,2.0]. Sigma lies in [0,1] for actions 0..999, is below 0 for negative actions and above 1 for actions of 1000 or more. |
| ActionCodec.DecodeInRangeIff | UPISAS/strategies/dqnStrategy.py:95-100 | all three decoded parameters are in range if and only if 0 <= action < 1000 |
| ActionCodec.DecodeCorners | UPISAS/strategies/dqnStrategy.py:89-100 | decode(0) is the lower bounds, decode(999) the upper bounds, decode(500) has sigma 5/9, and decode(1000) has sigma 10/9 |
| ActionCodec.DigitsRecompose | UPISAS/strategies/dqnStrategy.py:96-100 | for 0..999 the units, tens and hundreds digits the decoder reads recombine into the action |
| ActionCodec.DecodeRoundTrip | UPISAS/strategies/dqnStrategy.py:95-100 | reading the digits back off the decoded parameters recovers every action 0..999 |
| ActionCodec.DecodeInjective | UPISAS/strategies/dqnStrategy.py:95-100 | two different actions in 0..999 never decode to the same parameters |
| QValues.ArgMax | UPISAS/strategies/dqnStrategy.py:75 | the chosen index holds a maximal Q-value and every earlier index holds a strictly smaller one, so ties go to the lowest index |
| QValues.ArgMaxCharacterized | UPISAS/strategies/dqnStrategy.py:75 | the argmax is the unique first maximum: an index equals it if and only if it is a first maximum |
| QValues.Max | UPISAS/strategies/dqnStrategy.py:63 | the maximum is an element of the row and bounds every entry |
| ReplayMemory.Remember | UPISAS/strategies/dqnStrategy.py:47-51 | the new transition is last. Below capacity the old contents are kept in order; at capacity the oldest is dropped and the rest keep their order. The length never exceeds 2000. |
| ReplayMemory.RememberKeepsActionsBelow | UPISAS/strategies/dqnStrategy.py:47-51 | remembering a transition whose action is below a bound keeps every stored action below that bound |
| ReplayMemory.RememberIsNewest | UPISAS/strategies/dqnStrategy.py:47-51 | one remember leaves exactly the newest 2000 of the old memory plus the new transition |
| ReplayMemory.RememberAllKeepsNewest | UPISAS/strategies/dqnStrategy.py:19 | after any sequence of remembers the memory is exactly the newest 2000 transitions ever stored, oldest first |
| ReplayMemory.FifoEviction | UPISAS/strategies/dqnStrategy.py:19 | remembering 2000 + k transitions into an empty memory leaves 2000 of them, with exactly the first k evicted |
| Exploration.Decay | UPISAS/strategies/dqnStrategy.py:67-68 | at or below 0.01 epsilon is unchanged. Above 0.01 it strictly decreases and stays above 0.01 · 0.995. |
| Exploration.DecayStaysInSchedule | UPISAS/strategies/dqnStrategy.py:21-23 | a decay keeps epsilon within [0.01 · 0.995, 1.0] and never raises it |
| Exploration.DecayNMonotone | UPISAS/strategies/dqnStrategy.py:67-68 | over any number of training passes epsilon is non-increasing and stays within [0.01 · 0.995, 1.0] |
| Exploration.DecayNAboveFloor | UPISAS/strategies/dqnStrategy.py:67-68 | from any value above 0.01 · 0.995, epsilon stays strictly above 0.01 · 0.995 over any number of passes |
| Exploration.DecayNSettled | UPISAS/strategies/dqnStrategy.py:67 | once epsilon is at or below 0.01 no later pass changes it |
| Exploration.DecayNBound | UPISAS/strategies/dqnStrategy.py:67-68 | after n passes epsilon is at most 0.01, or at most 199 · e / (199 + n) |
| Exploration.DecayReachesMinimum | UPISAS/strategies/dqnStrategy.py:21-23 | starting from 1.0, epsilon is at most 0.01 after 19701 passes and stays so. This is a loose bound; the exact count is 919 passes. |
| Learning.TargetValue | UPISAS/strategies/dqnStrategy.py:61-63 | the target is the reward on a final transition. Otherwise it is one of the values reward + 0.95 · nextQ[j] and at least every such value. |
| Learning.TargetVector | UPISAS/strategies/dqnStrategy.py:64-65 | the target row has the prediction's length, equals the prediction everywhere except at the action, and holds the target value there |
| Learning.TrainOn | UPISAS/strategies/dqnStrategy.py:60-66 | it fails exactly when the next-state row is empty on a non-final transition or the action is past the end of the state's row. On success it is the fit call for that transition from the current weights. |
| Learning.TrainBatch | UPISAS/strategies/dqnStrategy.py:60-66 | on success it makes one fit per minibatch transition, in order. Each fit starts from the previous fit's weights with that transition's target row, and the result is the last fit's weights. |
| Learning.TrainBatchSucceeds | UPISAS/strategies/dqnStrategy.py:60-66 | with a network of n > 0 outputs and every action below n, no transition of a minibatch makes the loop raise |
| AdaptationManager.Init | UPISAS/strategies/dqnStrategy.py:13-34 | a new manager has empty memory, epsilon 1.0, no analysis and no plan, keeps the given parameters, and is valid |
| AdaptationManager.Minibatch | UPISAS/strategies/dqnStrategy.py:59 | the minibatch holds, in order, the memory's transitions at the sampled positions |
| AdaptationManager.Replay | UPISAS/strategies/dqnStrategy.py:53-68 | below 32 transitions the manager is returned unchanged. Otherwise, on success, only weights and epsilon change: epsilon is decayed once, and the weights come from one fit per sampled transition. AdaptationManager.ReplaySucceeds gives the conditions for success. |
| AdaptationManager.ReplaySucceeds | UPISAS/strategies/dqnStrategy.py:53-68 | on a network of `action_size` outputs, with every remembered action below `action_size`, replay never raises |
| AdaptationManager.Analyze | UPISAS/strategies/dqnStrategy.py:70-83 | it fails exactly on an empty prediction. Otherwise it stores the prediction, its first argmax and that action's decoding as the pending analysis, changing nothing else. |
| AdaptationManager.Plan | UPISAS/strategies/dqnStrategy.py:108-118 | it fails exactly when there is no analysis. Otherwise it returns the pending analysis's parameters and records them as the plan, changing nothing else. |
| AdaptationManager.Step | UPISAS/strategies/dqnStrategy.py:120-126 | it fails without an analysis. On success the memory has the transition for the analysed action appended, and only memory, weights and epsilon change. Below 32 transitions the weights are unchanged. From 32 on, epsilon is decayed once and the weights come from one fit per sampled transition of the grown memory. |
| AdaptationManager.AnalyzeThenPlan | UPISAS/strategies/dqnStrategy.py:70-118 | plan right after analyze returns the decoding of the first argmax of the predicted Q-values |
| AdaptationManager.NoAnalysisOnFreshManager | UPISAS/strategies/dqnStrategy.py:108-126 | plan and step on a fresh manager fail because there is no analysis |
| AdaptationManager.AnalyzeValid | UPISAS/strategies/dqnStrategy.py:70-83 | on a network with actionSize > 0 outputs, analyze succeeds and keeps the manager valid |
| AdaptationManager.PlanValid | UPISAS/strategies/dqnStrategy.py:108-118 | after an analysis plan succeeds and keeps the manager valid. With at most 1000 network outputs every planned parameter is in range. |
| AdaptationManager.StepValid | UPISAS/strategies/dqnStrategy.py:120-126 | after an analysis, step on a correctly shaped network succeeds, keeps the manager valid and never raises epsilon |
| CrowdNavEnvironment.Reset | UPISAS/strategies/dqnStrategy.py:135-138 | reset restores the state [0.1, 0.2, 0.3] and a zero step count |
| CrowdNavEnvironment.Deviation | UPISAS/strategies/dqnStrategy.py:143 | the summed distance from 0.5 is non-negative and at least each single component's distance |
| CrowdNavEnvironment.DeviationZeroIff | UPISAS/strategies/dqnStrategy.py:143 | the summed distance is zero if and only if every component is 0.5 |
| CrowdNavEnvironment.EnvStep | UPISAS/strategies/dqnStrategy.py:140-146 | the step count grows by one and the state keeps its length, each component shifted by 0.01 · action. The reward is at most 0. Done holds exactly when the new count reaches 100. |
| CrowdNavEnvironment.RewardZeroIff | UPISAS/strategies/dqnStrategy.py:142-143 | the reward is zero if and only if the action moves every component to exactly 0.5 |
| Training.Interact | UPISAS/strategies/dqnStrategy.py:160-167 | it fails on an empty prediction, and when the next state does not have `state_size` components. On success the environment is stepped with the first argmax of the current prediction, and exactly that transition is appended to the memory. The analysis and plan record that action and its decoding. Epsilon and the weights change as in one step, and nothing else changes. |
| Training.InteractValid | UPISAS/strategies/dqnStrategy.py:159-168 | when the state has `state_size` components, one loop pass on a valid manager never raises. It keeps the manager valid, remembers one transition, never raises epsilon, and advances the environment by one step with a non-positive reward. |
| Training.TotalReward | UPISAS/strategies/dqnStrategy.py:156-169 | `total_reward`, the sum of an episode's rewards. It has no contract of its own: Training.EpisodeRewards bounds it by zero. |
| Training.RunSteps | UPISAS/strategies/dqnStrategy.py:159-168 | the `while not done` loop. It has no contract of its own: Training.RunStepsCompletes, Training.RunStepsProgress and Training.RunStepsRewards state its properties. |
| Training.RunStepsCompletes | UPISAS/strategies/dqnStrategy.py:159-168 | when the state has `state_size` components, the loop never raises, keeps the manager valid, and keeps its action and state sizes |
| Training.RunStepsProgress | UPISAS/strategies/dqnStrategy.py:159-168 | the loop ends with the step count at exactly 100, adds one transition per step up to capacity, and never raises epsilon |
| Training.RunStepsRewards | UPISAS/strategies/dqnStrategy.py:164-169 | a finished loop has appended one non-positive reward per step to the reward log |
| Training.Episode | UPISAS/strategies/dqnStrategy.py:153-169 | one episode. It has no contract of its own: Training.EpisodeCompletes, Training.EpisodeRewards and Training.ShapeMismatchFails state its properties. |
| Training.EpisodeCompletes | UPISAS/strategies/dqnStrategy.py:153-168 | with `state_size` 3, every episode takes exactly 100 manager steps from a reset environment. It never raises, keeps the manager valid, adds one transition per step up to capacity, and never raises epsilon. |
| Training.EpisodeRewards | UPISAS/strategies/dqnStrategy.py:153-169 | with `state_size` 3, an episode logs exactly 100 rewards and its total reward is at most zero |
| Training.Train | UPISAS/strategies/dqnStrategy.py:149-171 | the episode loop. It has no contract of its own: Training.TrainCompletes and Training.ShapeMismatchFails state its properties. |
| Training.TrainCompletes | UPISAS/strategies/dqnStrategy.py:149-171 | with `state_size` 3, training over any number of episodes never raises, keeps the manager valid and never raises epsilon |
| Training.ShapeMismatchFails | UPISAS/strategies/dqnStrategy.py:153-155 | with any `state_size` other than 3, every episode fails at the first reshape, and so does training whenever an episode remains |

## Left out

- `_build_model`, `model.fit`, the Adam optimizer and `learning_rate`: the Keras network is foreign floating-point code. It appears only as an uninterpreted `predict` and an opaque `fit` over weights `W`.
- `random.sample`: modelled as any choice of 32 distinct positions, not as a uniform distribution.
- Floating-point rounding: decode, targets, the reward and `epsilon` are computed over exact reals.
- A `replay` that raises midway: in Python the fits already made have changed the weights, and the new transition stays in memory. The model returns only the failure. It also proves that a valid manager on a correctly shaped network never reaches this case.
- The KeyError `__init__` raises when `initial_params` lacks one of its three keys: `Init` takes a `ParameterSet` record, which always has all three.
- The errors Keras `predict` and `fit` raise on input of the wrong width: the network is abstract. On the training path the reshape rejects such states first (`Training.ShapeMismatchFails`).
- `np.reshape` is modelled only as its length check. The one-row arrays it produces are plain state sequences here.
- The `print` of each episode's total in `train_manager`: output only.
- `state_size` as the network's `input_dim` in `_build_model`: the network is abstract, so the model does not tie the input width to it. It does model the reshapes of the training loop, which depend on `state_size`.
- `CrowdNavEnvironment.__init__` is the same as `reset`. It is modelled by `Reset`, and `max_steps` is the constant `MaxSteps`.
- The `__main__` block: a fixed call of `train_manager` with state size 3 and 1000 actions.
- Training.TrainCompletes: says nothing about the memory's length after several episodes, because each episode's growth is already stated by Training.EpisodeCompletes.
- The experiment-runner configurations, the CrowdNav exemplar's container set-up and the Kafka consumer: HTTP, process and message-bus I/O outside the controller.
