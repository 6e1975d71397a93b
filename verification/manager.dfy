/** `ReactiveAdaptationManager`: the analyze -> plan -> step cycle over an
    immutable manager record. */
module AdaptationManager {
  import opened Wrappers
  import opened Errors
  import opened ActionCodec
  import opened QValues
  import opened States
  import opened ReplayMemory
  import opened Exploration
  import opened Learning

  /** Minibatch size of `replay`, and the fill level below which it does nothing. */
  const BatchSize: nat := 32

  /** The `analysis_data` dictionary that `analyze` fills in. */
  datatype Analysis = Analysis(qValues: seq<real>, bestAction: nat, adjustments: ParameterSet)

  /** The manager's fields. `current` holds the parameters given at
      construction; `analysis` and `planData` are `None` while the Python
      dictionaries are still `{}`. */
  datatype Manager<W> = Manager(
    stateSize: nat,
    actionSize: nat,
    memory: Memory,
    epsilon: real,
    weights: W,
    current: ParameterSet,
    analysis: Option<Analysis>,
    planData: Option<ParameterSet>)

  /** What every reachable manager satisfies: `epsilon` is on its schedule,
      every remembered action is a valid output index, and a pending analysis
      holds the first argmax of its Q-values together with its decoding. */
  predicate Valid<W>(m: Manager<W>) {
    && InSchedule(m.epsilon)
    && (forall i :: 0 <= i < |m.memory| ==> m.memory[i].action < m.actionSize)
    && (m.analysis.Some? ==>
          && IsFirstMax(m.analysis.value.qValues, m.analysis.value.bestAction)
          && m.analysis.value.bestAction < m.actionSize
          && m.analysis.value.adjustments == Decode(m.analysis.value.bestAction))
  }

  /** `__init__`, with the freshly built network's weights passed in. */
  function Init<W>(stateSize: nat, actionSize: nat, initialParams: ParameterSet, w0: W): (m: Manager<W>)
    ensures Valid(m)
    ensures m.memory == [] && m.epsilon == EpsilonStart && m.weights == w0
    ensures m.analysis.None? && m.planData.None?
    ensures m.current == initialParams && m.stateSize == stateSize && m.actionSize == actionSize
  {
    Manager(stateSize, actionSize, [], EpsilonStart, w0, initialParams, None, None)
  }

  /** What `random.sample(self.memory, 32)` can return, as positions in a
      memory of `n` transitions: 32 distinct valid positions. */
  predicate IsSample(sample: seq<nat>, n: nat) {
    && |sample| == BatchSize
    && (forall i :: 0 <= i < |sample| ==> sample[i] < n)
    && (forall i, j :: 0 <= i < j < |sample| ==> sample[i] != sample[j])
  }

  /** The transitions at the sampled positions. */
  function Minibatch(mem: Memory, sample: seq<nat>): (b: seq<Transition>)
    requires forall i :: 0 <= i < |sample| ==> sample[i] < |mem|
    ensures |b| == |sample|
    ensures forall i :: 0 <= i < |sample| ==> b[i] == mem[sample[i]]
  {
    seq(|sample|, i requires 0 <= i < |sample| => mem[sample[i]])
  }

  /** `replay`. The random minibatch is the `sample` argument; it is only
      consulted once the memory holds at least `BatchSize` transitions. */
  function Replay<W(!new)>(m: Manager<W>, net: Network<W>, sample: seq<nat>): (r: Result<Manager<W>, Error>)
    requires |m.memory| >= BatchSize ==> IsSample(sample, |m.memory|)
    ensures |m.memory| < BatchSize ==> r == Success(m)
    ensures r.Success? ==> r.value == m.(weights := r.value.weights, epsilon := r.value.epsilon)
    ensures |m.memory| >= BatchSize && r.Success? ==>
      && r.value.epsilon == Decay(m.epsilon)
      && TrainedOn(net, m.weights, Minibatch(m.memory, sample), r.value.weights)
  {
    if |m.memory| < BatchSize then Success(m)
    else
      var trained :- TrainBatch(net, m.weights, Minibatch(m.memory, sample));
      Success(m.(weights := trained.1, epsilon := Decay(m.epsilon)))
  }

  /** `analyze`: predict, take the first argmax, decode it, and keep all
      three as the pending analysis. */
  function Analyze<W>(m: Manager<W>, net: Network<W>, state: State): (r: Result<(Manager<W>, Analysis), Error>)
    ensures r.Failure? <==> |net.predict(m.weights, state)| == 0
    ensures r.Failure? ==> r.error == EmptyQValues
    ensures r.Success? ==>
      var a := r.value.1;
      && a.qValues == net.predict(m.weights, state)
      && IsFirstMax(a.qValues, a.bestAction)
      && a.adjustments == Decode(a.bestAction)
      && r.value.0 == m.(analysis := Some(a))
  {
    var q := net.predict(m.weights, state);
    if |q| == 0 then Failure(EmptyQValues)
    else
      var best := ArgMax(q);
      var a := Analysis(q, best, Decode(best));
      Success((m.(analysis := Some(a)), a))
  }

  /** `plan`: hand out the pending analysis's parameters and record them as
      the plan. The construction-time parameters are left alone. */
  function Plan<W>(m: Manager<W>): (r: Result<(Manager<W>, ParameterSet), Error>)
    ensures r.Failure? <==> m.analysis.None?
    ensures r.Failure? ==> r.error == NoAnalysis
    ensures r.Success? ==>
      && r.value.1 == m.analysis.value.adjustments
      && r.value.0 == m.(planData := Some(r.value.1))
  {
    match m.analysis
    case None => Failure(NoAnalysis)
    case Some(a) => Success((m.(planData := Some(a.adjustments)), a.adjustments))
  }

  /** `step`: remember the transition for the pending analysis's action, then
      run `replay` on the grown memory. */
  function Step<W(!new)>(m: Manager<W>, net: Network<W>, state: State, reward: real, nextState: State, done: bool,
                   sample: seq<nat>): (r: Result<Manager<W>, Error>)
    requires SizeAfterRemember(|m.memory|) >= BatchSize ==> IsSample(sample, SizeAfterRemember(|m.memory|))
    ensures m.analysis.None? ==> r == Failure(NoAnalysis)
    ensures r.Success? ==>
      && m.analysis.Some?
      && r.value.memory == Remember(m.memory, Transition(state, m.analysis.value.bestAction, reward, nextState, done))
      && r.value == m.(memory := r.value.memory, weights := r.value.weights, epsilon := r.value.epsilon)
      && r.value.epsilon == (if |r.value.memory| >= BatchSize then Decay(m.epsilon) else m.epsilon)
    ensures r.Success? && |r.value.memory| < BatchSize ==> r.value.weights == m.weights
    ensures r.Success? && |r.value.memory| >= BatchSize ==>
      TrainedOn(net, m.weights, Minibatch(r.value.memory, sample), r.value.weights)
  {
    match m.analysis
    case None => Failure(NoAnalysis)
    case Some(a) =>
      var t := Transition(state, a.bestAction, reward, nextState, done);
      Replay(m.(memory := Remember(m.memory, t)), net, sample)
  }

  /** With a correctly shaped network and every remembered action a valid
      output index, `replay` never raises. */
  lemma ReplaySucceeds<W(!new)>(m: Manager<W>, net: Network<W>, sample: seq<nat>)
    requires Shaped(net, m.actionSize)
    requires forall i :: 0 <= i < |m.memory| ==> m.memory[i].action < m.actionSize
    requires |m.memory| >= BatchSize ==> IsSample(sample, |m.memory|)
    ensures Replay(m, net, sample).Success?
  {
    if |m.memory| >= BatchSize {
      TrainBatchSucceeds(net, m.actionSize, m.weights, Minibatch(m.memory, sample));
    }
  }

  /** `plan` right after `analyze` returns the decoding of the first argmax
      of the predicted Q-values. */
  lemma AnalyzeThenPlan<W>(m: Manager<W>, net: Network<W>, state: State)
    requires |net.predict(m.weights, state)| > 0
    ensures Analyze(m, net, state).Success?
    ensures Plan(Analyze(m, net, state).value.0).Success?
    ensures Plan(Analyze(m, net, state).value.0).value.1 == Decode(ArgMax(net.predict(m.weights, state)))
  {
    ArgMaxCharacterized(net.predict(m.weights, state), Analyze(m, net, state).value.1.bestAction);
  }

  /** On a fresh manager, `plan` and `step` fail: there is no analysis yet. */
  lemma NoAnalysisOnFreshManager<W(!new)>(stateSize: nat, actionSize: nat, p: ParameterSet, w0: W, net: Network<W>,
                                    state: State, reward: real, nextState: State, done: bool)
    ensures Plan(Init(stateSize, actionSize, p, w0)) == Failure(NoAnalysis)
    ensures Step(Init(stateSize, actionSize, p, w0), net, state, reward, nextState, done, []) == Failure(NoAnalysis)
  {
  }

  /** `analyze` on a correctly shaped network never raises and keeps the
      manager valid. */
  lemma AnalyzeValid<W(!new)>(m: Manager<W>, net: Network<W>, state: State)
    requires Valid(m) && Shaped(net, m.actionSize)
    ensures Analyze(m, net, state).Success?
    ensures Valid(Analyze(m, net, state).value.0)
  {
    assert |net.predict(m.weights, state)| == m.actionSize;
  }

  /** `plan` keeps the manager valid, and on a network of at most 1000
      outputs its parameters are all in range. */
  lemma PlanValid<W>(m: Manager<W>)
    requires Valid(m) && m.analysis.Some?
    ensures Plan(m).Success? && Valid(Plan(m).value.0)
    ensures m.actionSize <= ActionCount ==> InRange(Plan(m).value.1)
  {
    DecodeInRangeIff(m.analysis.value.bestAction);
  }

  /** After an `analyze`, `step` on a correctly shaped network never raises,
      keeps the manager valid, and never raises `epsilon`. */
  lemma StepValid<W(!new)>(m: Manager<W>, net: Network<W>, state: State, reward: real, nextState: State,
                           done: bool, sample: seq<nat>)
    requires Valid(m) && Shaped(net, m.actionSize) && m.analysis.Some?
    requires SizeAfterRemember(|m.memory|) >= BatchSize ==> IsSample(sample, SizeAfterRemember(|m.memory|))
    ensures Step(m, net, state, reward, nextState, done, sample).Success?
    ensures Valid(Step(m, net, state, reward, nextState, done, sample).value)
    ensures Step(m, net, state, reward, nextState, done, sample).value.epsilon <= m.epsilon
  {
    var t := Transition(state, m.analysis.value.bestAction, reward, nextState, done);
    var m1 := m.(memory := Remember(m.memory, t));
    RememberKeepsActionsBelow(m.memory, t, m.actionSize);
    ReplaySucceeds(m1, net, sample);
    DecayStaysInSchedule(m.epsilon);
  }
}
