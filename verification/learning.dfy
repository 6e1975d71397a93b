/** The network, abstracted, and the per-transition training step of `replay`. */
module Learning {
  import opened Wrappers
  import opened Errors
  import opened QValues
  import opened States
  import opened ReplayMemory

  /** Discount factor `gamma`. */
  const Gamma: real := 0.95

  /** The Keras model seen only through its two uses: `predict` returns one row
      of Q-values for a state under weights `W`, and `fit` is an opaque update
      of the weights towards a target row. */
  datatype Network<!W> = Network(predict: (W, State) -> seq<real>, fit: (W, State, seq<real>) -> W)

  /** The output layer has `n` units: every prediction has length `n`, and
      `n` is positive. */
  ghost predicate Shaped<W(!new)>(net: Network<W>, n: nat) {
    n > 0 && forall w: W, s: State :: |net.predict(w, s)| == n
  }

  /** One call of `model.fit`: the weights it starts from, the input state and
      the target row. */
  datatype Fit<W> = Fit(weights: W, input: State, target: seq<real>)

  /** The weights a fit call produces. */
  function After<W>(net: Network<W>, f: Fit<W>): W {
    net.fit(f.weights, f.input, f.target)
  }

  /** The training target for the taken action: the reward alone on a final
      transition, otherwise the reward plus the discounted best next Q-value. */
  function TargetValue(t: Transition, nextQ: seq<real>): (v: real)
    requires t.done || |nextQ| > 0
    ensures t.done ==> v == t.reward
    ensures !t.done ==> v in set j | 0 <= j < |nextQ| :: t.reward + Gamma * nextQ[j]
    ensures !t.done ==> forall j :: 0 <= j < |nextQ| ==> t.reward + Gamma * nextQ[j] <= v
  {
    if t.done then t.reward else t.reward + Gamma * Max(nextQ)
  }

  /** The target row: the current prediction for the state, with only the
      taken action's entry replaced. */
  function TargetVector(q: seq<real>, t: Transition, nextQ: seq<real>): (r: seq<real>)
    requires t.action < |q|
    requires t.done || |nextQ| > 0
    ensures |r| == |q|
    ensures forall i :: 0 <= i < |q| && i != t.action ==> r[i] == q[i]
    ensures r[t.action] == TargetValue(t, nextQ)
  {
    q[t.action := TargetValue(t, nextQ)]
  }

  /** `f` is the fit call `replay` makes for transition `t`: its input is the
      transition's state and its target is built from predictions under the
      weights the call starts from. */
  ghost predicate IsFitFor<W>(net: Network<W>, f: Fit<W>, t: Transition) {
    var q := net.predict(f.weights, t.state);
    var nextQ := net.predict(f.weights, t.nextState);
    && f.input == t.state
    && t.action < |q|
    && (t.done || |nextQ| > 0)
    && f.target == TargetVector(q, t, nextQ)
  }

  /** `fits` is one fit per transition of `batch`, in order, each starting from
      the weights the previous one produced, and `w'` is the final weights. */
  ghost predicate FitsBatch<W>(net: Network<W>, w: W, batch: seq<Transition>, fits: seq<Fit<W>>, w': W) {
    && |fits| == |batch|
    && (|fits| == 0 ==> w' == w)
    && (|fits| > 0 ==> fits[0].weights == w && w' == After(net, fits[|fits| - 1]))
    && (forall i :: 0 < i < |fits| ==> fits[i].weights == After(net, fits[i - 1]))
    && (forall i :: 0 <= i < |fits| ==> IsFitFor(net, fits[i], batch[i]))
  }

  /** Weights `w'` arise from `w` by one fit per transition of `batch`, in order. */
  ghost predicate TrainedOn<W(!new)>(net: Network<W>, w: W, batch: seq<Transition>, w': W) {
    exists fits :: FitsBatch(net, w, batch, fits, w')
  }

  /** The body of the `replay` loop for one transition: the next-state
      prediction is maximised first (failing on an empty row), then the
      state's row is updated at the action (failing past its end). */
  function TrainOn<W>(net: Network<W>, w: W, t: Transition): (r: Result<Fit<W>, Error>)
    ensures r.Success? ==> r.value.weights == w && IsFitFor(net, r.value, t)
    ensures r.Failure? <==> (!t.done && |net.predict(w, t.nextState)| == 0) || t.action >= |net.predict(w, t.state)|
  {
    var nextQ := net.predict(w, t.nextState);
    if !t.done && |nextQ| == 0 then Failure(EmptyQValues)
    else
      var q := net.predict(w, t.state);
      if t.action >= |q| then Failure(ActionOutOfRange)
      else Success(Fit(w, t.state, TargetVector(q, t, nextQ)))
  }

  /** The `replay` loop over a minibatch: one fit per transition, in order,
      each on the weights left by the previous one. Yields the fit calls made
      and the final weights. */
  function TrainBatch<W>(net: Network<W>, w: W, batch: seq<Transition>): (r: Result<(seq<Fit<W>>, W), Error>)
    ensures r.Success? ==> FitsBatch(net, w, batch, r.value.0, r.value.1)
    decreases |batch|
  {
    if |batch| == 0 then Success(([], w))
    else
      var f :- TrainOn(net, w, batch[0]);
      var rest :- TrainBatch(net, After(net, f), batch[1..]);
      Success(([f] + rest.0, rest.1))
  }

  /** With a correctly shaped network and every action below the output
      width, no transition of a minibatch can make `replay` raise. */
  lemma {:induction false} TrainBatchSucceeds<W(!new)>(net: Network<W>, n: nat, w: W, batch: seq<Transition>)
    requires Shaped(net, n)
    requires forall i :: 0 <= i < |batch| ==> batch[i].action < n
    ensures TrainBatch(net, w, batch).Success?
    decreases |batch|
  {
    if |batch| > 0 {
      assert |net.predict(w, batch[0].state)| == n;
      assert |net.predict(w, batch[0].nextState)| == n;
      var f := TrainOn(net, w, batch[0]).value;
      TrainBatchSucceeds(net, n, After(net, f), batch[1..]);
    }
  }
}
