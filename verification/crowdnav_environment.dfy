/** `CrowdNavEnvironment`: a toy environment driven by a step counter. */
module CrowdNavEnvironment {
  import opened States

  /** The environment's state vector and how many steps the episode has taken. */
  datatype Env = Env(state: State, stepCount: nat)

  /** `max_steps`: an episode ends once this many steps have been taken. */
  const MaxSteps: nat := 100

  /** What `step` returns, with the environment it leaves behind. */
  datatype Outcome = Outcome(env: Env, nextState: State, reward: real, done: bool)

  /** The state that `__init__` and `reset` install. */
  const InitialState: State := [0.1, 0.2, 0.3]

  /** `reset` (and `__init__`): the initial state and a zero step count. */
  function Reset(): (e: Env)
    ensures e.state == [0.1, 0.2, 0.3] && e.stepCount == 0
  {
    Env(InitialState, 0)
  }

  function Abs(x: real): real {
    if x < 0.0 then -x else x
  }

  /** Total distance of the components from 0.5. */
  function Deviation(xs: seq<real>): (d: real)
    ensures d >= 0.0
    ensures forall i :: 0 <= i < |xs| ==> d >= Abs(xs[i] - 0.5)
  {
    if |xs| == 0 then 0.0
    else
      assert forall i :: 1 <= i < |xs| ==> xs[i] == xs[1..][i - 1];
      Abs(xs[0] - 0.5) + Deviation(xs[1..])
  }

  /** The deviation is zero exactly when every component is 0.5. */
  lemma {:induction false} DeviationZeroIff(xs: seq<real>)
    ensures Deviation(xs) == 0.0 <==> forall i :: 0 <= i < |xs| ==> xs[i] == 0.5
  {
    if |xs| > 0 {
      DeviationZeroIff(xs[1..]);
      if Deviation(xs) == 0.0 {
        assert Abs(xs[0] - 0.5) == 0.0;
        forall i | 0 <= i < |xs|
          ensures xs[i] == 0.5
        {
          if i > 0 {
            assert xs[i] == xs[1..][i - 1];
          }
        }
      }
    }
  }

  /** `step`: shift every component by `0.01 * action`, count the step,
      reward the negated deviation of the new state, and report the episode
      over once `MaxSteps` steps have been taken. */
  function EnvStep(env: Env, action: int): (o: Outcome)
    ensures o.env == Env(o.nextState, env.stepCount + 1)
    ensures |o.nextState| == |env.state|
    ensures forall i :: 0 <= i < |env.state| ==> o.nextState[i] == env.state[i] + 0.01 * action as real
    ensures o.reward <= 0.0
    ensures o.done <==> env.stepCount + 1 >= MaxSteps
  {
    var next := seq(|env.state|, i requires 0 <= i < |env.state| => env.state[i] + 0.01 * action as real);
    Outcome(Env(next, env.stepCount + 1), next, -Deviation(next), env.stepCount + 1 >= MaxSteps)
  }

  /** The reward is zero exactly when the action brings every component to 0.5. */
  lemma RewardZeroIff(env: Env, action: int)
    ensures EnvStep(env, action).reward == 0.0 <==>
            forall i :: 0 <= i < |env.state| ==> env.state[i] + 0.01 * action as real == 0.5
  {
    DeviationZeroIff(EnvStep(env, action).nextState);
  }
}
