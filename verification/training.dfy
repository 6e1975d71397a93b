/** `train_manager`: episodes of analyze, plan, act on the environment, step. */
module Training {
  import opened Wrappers
  import opened Errors
  import opened ActionCodec
  import opened QValues
  import opened ReplayMemory
  import opened Exploration
  import opened Learning
  import opened AdaptationManager
  import opened CrowdNavEnvironment

  /** The source of `random.sample` results: given the episode, the step
      within it and the memory size, the positions drawn. */
  type Sampler = (nat, nat, nat) -> seq<nat>

  /** Every draw from a memory of at least `BatchSize` transitions is a valid sample. */
  ghost predicate ValidSampler(pick: Sampler) {
    forall e: nat, k: nat, n: nat :: n >= BatchSize ==> IsSample(pick(e, k, n), n)
  }

  /** State after an episode: the manager, the environment and the rewards
      received, in order. */
  datatype EpisodeResult<W> = EpisodeResult(manager: Manager<W>, env: Env, rewards: seq<real>)

  /** The rewards from position `k` on are all at most zero. */
  predicate NonPositiveFrom(rewards: seq<real>, k: nat) {
    forall i :: k <= i < |rewards| ==> rewards[i] <= 0.0
  }

  /** `total_reward`: the rewards of an episode summed. */
  function TotalReward(rewards: seq<real>): real {
    if |rewards| == 0 then 0.0 else TotalReward(rewards[..|rewards| - 1]) + rewards[|rewards| - 1]
  }

  /** Helper for `EpisodeRewards`: non-positive rewards have a non-positive
      total. */
  lemma {:induction false} TotalRewardNonPositive(rewards: seq<real>)
    requires NonPositiveFrom(rewards, 0)
    ensures TotalReward(rewards) <= 0.0
  {
    if |rewards| > 0 {
      TotalRewardNonPositive(rewards[..|rewards| - 1]);
    }
  }

  /** One pass of the `while not done` body: analyze the current state,
      plan, act with the chosen action, reshape the next state to the
      manager's `state_size`, and step the manager with the feedback. Its
      `replay` draws with `pick` for step `stepCount` of episode `episode`. */
  function Interact<W(!new)>(m: Manager<W>, env: Env, net: Network<W>, pick: Sampler, episode: nat)
    : (r: Result<(Manager<W>, Outcome), Error>)
    requires ValidSampler(pick)
    ensures |net.predict(m.weights, env.state)| == 0 ==> r == Failure(EmptyQValues)
    ensures |net.predict(m.weights, env.state)| > 0 && |env.state| != m.stateSize ==> r == Failure(ShapeMismatch)
    ensures r.Success? ==>
      var q := net.predict(m.weights, env.state);
      var best := ArgMax(q);
      var m' := r.value.0;
      && r.value.1 == EnvStep(env, best)
      && m'.memory == Remember(m.memory, Transition(env.state, best, r.value.1.reward, r.value.1.nextState, r.value.1.done))
      && m' == m.(memory := m'.memory, weights := m'.weights, epsilon := m'.epsilon,
                  analysis := Some(Analysis(q, best, Decode(best))), planData := Some(Decode(best)))
      && m'.epsilon == (if |m'.memory| >= BatchSize then Decay(m.epsilon) else m.epsilon)
      && (|m'.memory| < BatchSize ==> m'.weights == m.weights)
      && (|m'.memory| >= BatchSize ==>
            TrainedOn(net, m.weights, Minibatch(m'.memory, pick(episode, env.stepCount, |m'.memory|)), m'.weights))
  {
    var analyzed :- Analyze(m, net, env.state);
    var planned := Plan(analyzed.0).value;
    var o := EnvStep(env, analyzed.1.bestAction);
    if |o.nextState| != m.stateSize then Failure(ShapeMismatch)
    else
      var sample := pick(episode, env.stepCount, SizeAfterRemember(|planned.0.memory|));
      var stepped :- Step(planned.0, net, env.state, o.reward, o.nextState, o.done, sample);
      ArgMaxCharacterized(analyzed.1.qValues, analyzed.1.bestAction);
      Success((stepped, o))
  }

  /** The `while not done` loop of one episode, from environment `env`. */
  function RunSteps<W(!new)>(m: Manager<W>, env: Env, net: Network<W>, pick: Sampler, episode: nat, rewards: seq<real>)
    : Result<EpisodeResult<W>, Error>
    requires ValidSampler(pick)
    decreases MaxSteps - env.stepCount
  {
    match Interact(m, env, net, pick, episode)
    case Failure(e) => Failure(e)
    case Success(stepped) =>
      var o := stepped.1;
      if o.done then Success(EpisodeResult(stepped.0, o.env, rewards + [o.reward]))
      else RunSteps(stepped.0, o.env, net, pick, episode, rewards + [o.reward])
  }

  /** One episode: reset the environment, reshape its state to the
      manager's `state_size`, then loop until it reports done. */
  function Episode<W(!new)>(m: Manager<W>, net: Network<W>, pick: Sampler, episode: nat)
    : Result<EpisodeResult<W>, Error>
    requires ValidSampler(pick)
  {
    var env := Reset();
    if |env.state| != m.stateSize then Failure(ShapeMismatch)
    else RunSteps(m, env, net, pick, episode, [])
  }

  /** `train_manager(manager, environment, episodes)`, from episode `e` on. */
  function Train<W(!new)>(m: Manager<W>, env: Env, net: Network<W>, pick: Sampler, e: nat, episodes: nat)
    : Result<(Manager<W>, Env), Error>
    requires ValidSampler(pick)
    decreases episodes - e
  {
    if e >= episodes then Success((m, env))
    else
      match Episode(m, net, pick, e)
      case Failure(err) => Failure(err)
      case Success(r) => Train(r.manager, r.env, net, pick, e + 1, episodes)
  }

  /** On a valid manager and a correctly shaped network one pass of the
      loop never raises, keeps the manager valid, remembers one transition,
      never raises `epsilon` and advances the environment by one step. */
  lemma InteractValid<W(!new)>(m: Manager<W>, env: Env, net: Network<W>, pick: Sampler, episode: nat)
    requires ValidSampler(pick) && Valid(m) && Shaped(net, m.actionSize)
    requires |env.state| == m.stateSize
    ensures Interact(m, env, net, pick, episode).Success?
    ensures var r := Interact(m, env, net, pick, episode).value;
      && Valid(r.0)
      && r.0.actionSize == m.actionSize
      && r.0.stateSize == m.stateSize
      && |r.1.env.state| == |env.state|
      && |r.0.memory| == SizeAfterRemember(|m.memory|)
      && r.0.epsilon <= m.epsilon
      && r.1.reward <= 0.0
      && r.1.env.stepCount == env.stepCount + 1
      && (r.1.done <==> env.stepCount + 1 >= MaxSteps)
  {
    AnalyzeValid(m, net, env.state);
    var analyzed := Analyze(m, net, env.state).value;
    PlanValid(analyzed.0);
    var planned := Plan(analyzed.0).value;
    var o := EnvStep(env, analyzed.1.bestAction);
    var n := SizeAfterRemember(|planned.0.memory|);
    var sample := pick(episode, env.stepCount, n);
    assert n >= BatchSize ==> IsSample(sample, n);
    StepValid(planned.0, net, env.state, o.reward, o.nextState, o.done, sample);
  }

  /** One unfolding of the loop after a successful pass of its body. */
  lemma RunStepsUnfold<W(!new)>(m: Manager<W>, env: Env, net: Network<W>, pick: Sampler, episode: nat,
                                rewards: seq<real>)
    requires ValidSampler(pick)
    requires Interact(m, env, net, pick, episode).Success?
    ensures var s := Interact(m, env, net, pick, episode).value;
      RunSteps(m, env, net, pick, episode, rewards) ==
        if s.1.done then Success(EpisodeResult(s.0, s.1.env, rewards + [s.1.reward]))
        else RunSteps(s.0, s.1.env, net, pick, episode, rewards + [s.1.reward])
  {
  }

  /** From any step count below `MaxSteps`, the loop never raises, keeps the
      manager valid, and keeps its action and state sizes. */
  lemma {:induction false} RunStepsCompletes<W(!new)>(m: Manager<W>, env: Env, net: Network<W>, pick: Sampler,
                                                      episode: nat, rewards: seq<real>)
    requires ValidSampler(pick) && Valid(m) && Shaped(net, m.actionSize)
    requires env.stepCount < MaxSteps && |env.state| == m.stateSize
    ensures RunSteps(m, env, net, pick, episode, rewards).Success?
    ensures var r := RunSteps(m, env, net, pick, episode, rewards).value;
      && Valid(r.manager)
      && r.manager.actionSize == m.actionSize
      && r.manager.stateSize == m.stateSize
    decreases MaxSteps - env.stepCount
  {
    InteractValid(m, env, net, pick, episode);
    var stepped := Interact(m, env, net, pick, episode).value;
    RunStepsUnfold(m, env, net, pick, episode, rewards);
    if !stepped.1.done {
      RunStepsCompletes(stepped.0, stepped.1.env, net, pick, episode, rewards + [stepped.1.reward]);
    }
  }

  /** The loop runs until the step count reaches `MaxSteps` exactly,
      remembering one transition per step up to capacity, and never raising
      `epsilon`. */
  lemma {:induction false} RunStepsProgress<W(!new)>(m: Manager<W>, env: Env, net: Network<W>, pick: Sampler,
                                                     episode: nat, rewards: seq<real>)
    requires ValidSampler(pick) && Valid(m) && Shaped(net, m.actionSize)
    requires env.stepCount < MaxSteps && |env.state| == m.stateSize
    ensures RunSteps(m, env, net, pick, episode, rewards).Success?
    ensures var r := RunSteps(m, env, net, pick, episode, rewards).value;
      && r.env.stepCount == MaxSteps
      && |r.manager.memory| == SizeAfterMany(|m.memory|, MaxSteps - env.stepCount)
      && r.manager.epsilon <= m.epsilon
    decreases MaxSteps - env.stepCount
  {
    RunStepsCompletes(m, env, net, pick, episode, rewards);
    InteractValid(m, env, net, pick, episode);
    var stepped := Interact(m, env, net, pick, episode).value;
    SizeAfterManyAdds(|m.memory|, 0, 1);
    RunStepsUnfold(m, env, net, pick, episode, rewards);
    if !stepped.1.done {
      RunStepsProgress(stepped.0, stepped.1.env, net, pick, episode, rewards + [stepped.1.reward]);
      SizeAfterManyAdds(|m.memory|, 1, MaxSteps - stepped.1.env.stepCount);
    }
  }

  /** Extending a reward log by one non-positive reward keeps it a
      prefix-preserving, non-positive extension of the shorter log. */
  lemma ExtendRewards(r: seq<real>, rewards: seq<real>, x: real)
    requires x <= 0.0
    requires |r| >= |rewards| + 1
    requires r[..|rewards| + 1] == rewards + [x]
    requires NonPositiveFrom(r, |rewards| + 1)
    ensures r[..|rewards|] == rewards
    ensures NonPositiveFrom(r, |rewards|)
  {
    assert r[..|rewards|] == r[..|rewards| + 1][..|rewards|];
    assert r[|rewards|] == (rewards + [x])[|rewards|];
  }

  /** A loop that completes appends one non-positive reward per step to the
      reward log. */
  lemma {:induction false} RunStepsRewards<W(!new)>(m: Manager<W>, env: Env, net: Network<W>, pick: Sampler,
                                                    episode: nat, rewards: seq<real>)
    requires ValidSampler(pick)
    requires env.stepCount < MaxSteps
    requires RunSteps(m, env, net, pick, episode, rewards).Success?
    ensures var r := RunSteps(m, env, net, pick, episode, rewards).value;
      && |r.rewards| == |rewards| + (MaxSteps - env.stepCount)
      && r.rewards[..|rewards|] == rewards
      && NonPositiveFrom(r.rewards, |rewards|)
    decreases MaxSteps - env.stepCount
  {
    var stepped := Interact(m, env, net, pick, episode).value;
    var rewards' := rewards + [stepped.1.reward];
    RunStepsUnfold(m, env, net, pick, episode, rewards);
    if !stepped.1.done {
      RunStepsRewards(stepped.0, stepped.1.env, net, pick, episode, rewards');
      ExtendRewards(RunSteps(m, env, net, pick, episode, rewards).value.rewards, rewards, stepped.1.reward);
    }
  }

  /** With a matching `state_size`, an episode is the loop from a reset
      environment with an empty reward log. */
  lemma EpisodeIsLoop<W(!new)>(m: Manager<W>, net: Network<W>, pick: Sampler, episode: nat)
    requires ValidSampler(pick) && m.stateSize == |InitialState|
    ensures Episode(m, net, pick, episode) == RunSteps(m, Reset(), net, pick, episode, [])
  {
  }

  /** Every episode takes exactly `MaxSteps` manager steps, never raises,
      keeps the manager valid and never raises `epsilon`. */
  lemma EpisodeCompletes<W(!new)>(m: Manager<W>, net: Network<W>, pick: Sampler, episode: nat)
    requires ValidSampler(pick) && Valid(m) && Shaped(net, m.actionSize)
    requires m.stateSize == |InitialState|
    ensures Episode(m, net, pick, episode).Success?
    ensures var r := Episode(m, net, pick, episode).value;
      && Valid(r.manager)
      && r.manager.actionSize == m.actionSize
      && r.manager.stateSize == m.stateSize
      && r.env.stepCount == MaxSteps
      && |r.manager.memory| == SizeAfterMany(|m.memory|, MaxSteps)
      && r.manager.epsilon <= m.epsilon
  {
    EpisodeIsLoop(m, net, pick, episode);
    RunStepsCompletes(m, Reset(), net, pick, episode, []);
    RunStepsProgress(m, Reset(), net, pick, episode, []);
  }

  /** An episode logs one reward per step, and its total reward is at most
      zero. */
  lemma EpisodeRewards<W(!new)>(m: Manager<W>, net: Network<W>, pick: Sampler, episode: nat)
    requires ValidSampler(pick) && Valid(m) && Shaped(net, m.actionSize)
    requires m.stateSize == |InitialState|
    ensures Episode(m, net, pick, episode).Success?
    ensures var r := Episode(m, net, pick, episode).value;
      && |r.rewards| == MaxSteps
      && TotalReward(r.rewards) <= 0.0
  {
    EpisodeCompletes(m, net, pick, episode);
    RunStepsRewards(m, Reset(), net, pick, episode, []);
    TotalRewardNonPositive(Episode(m, net, pick, episode).value.rewards);
  }

  /** One unfolding of the episode loop after a successful episode. */
  lemma TrainUnfold<W(!new)>(m: Manager<W>, env: Env, net: Network<W>, pick: Sampler, e: nat, episodes: nat)
    requires ValidSampler(pick)
    requires e < episodes && Episode(m, net, pick, e).Success?
    ensures var r := Episode(m, net, pick, e).value;
      Train(m, env, net, pick, e, episodes) == Train(r.manager, r.env, net, pick, e + 1, episodes)
  {
  }

  /** Training a valid manager on a correctly shaped network never raises,
      keeps it valid, and never raises `epsilon`. */
  lemma {:induction false} TrainCompletes<W(!new)>(m: Manager<W>, env: Env, net: Network<W>, pick: Sampler,
                                                   e: nat, episodes: nat)
    requires ValidSampler(pick) && Valid(m) && Shaped(net, m.actionSize)
    requires m.stateSize == |InitialState|
    ensures Train(m, env, net, pick, e, episodes).Success?
    ensures Valid(Train(m, env, net, pick, e, episodes).value.0)
    ensures Train(m, env, net, pick, e, episodes).value.0.epsilon <= m.epsilon
    decreases episodes - e
  {
    if e < episodes {
      EpisodeCompletes(m, net, pick, e);
      var r := Episode(m, net, pick, e).value;
      TrainUnfold(m, env, net, pick, e, episodes);
      TrainCompletes(r.manager, r.env, net, pick, e + 1, episodes);
    }
  }

  /** A manager whose `state_size` is not the environment's state length
      fails at the first reshape of every episode, so training fails as soon
      as there is an episode to run. */
  lemma ShapeMismatchFails<W(!new)>(m: Manager<W>, env: Env, net: Network<W>, pick: Sampler, e: nat, episodes: nat)
    requires ValidSampler(pick)
    requires m.stateSize != |InitialState|
    ensures Episode(m, net, pick, e) == Failure(ShapeMismatch)
    ensures e < episodes ==> Train(m, env, net, pick, e, episodes) == Failure(ShapeMismatch)
  {
  }
}
