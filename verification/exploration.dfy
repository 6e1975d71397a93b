/** The exploration rate `epsilon` and its decay after every training pass. */
module Exploration {

  const EpsilonStart: real := 1.0
  const EpsilonMin: real := 0.01
  const EpsilonDecay: real := 0.995

  /** A strict lower bound on `epsilon`: one decay applied just above the minimum. */
  const EpsilonFloor: real := EpsilonMin * EpsilonDecay

  /** One decay step: multiply by the decay factor only while strictly above
      the minimum. The product is not clamped, so the last step may land a
      little below `EpsilonMin`. */
  function Decay(e: real): (r: real)
    ensures e <= EpsilonMin ==> r == e
    ensures e > EpsilonMin ==> EpsilonFloor < r < e
  {
    if e > EpsilonMin then e * EpsilonDecay else e
  }

  /** The values `epsilon` can hold over a manager's lifetime. */
  predicate InSchedule(e: real) {
    EpsilonFloor <= e <= EpsilonStart
  }

  /** `epsilon` after `n` training passes starting from `e`. */
  function DecayN(e: real, n: nat): real {
    if n == 0 then e else Decay(DecayN(e, n - 1))
  }

  /** Above the floor, `epsilon` stays strictly above it over any number of
      passes. */
  lemma {:induction false} DecayNAboveFloor(e: real, n: nat)
    requires e > EpsilonFloor
    ensures DecayN(e, n) > EpsilonFloor
    decreases n
  {
    if n > 0 {
      DecayNAboveFloor(e, n - 1);
    }
  }

  /** A decay step never raises `epsilon` and never leaves the schedule. */
  lemma DecayStaysInSchedule(e: real)
    requires InSchedule(e)
    ensures InSchedule(Decay(e)) && Decay(e) <= e
  {
  }

  /** Over any number of passes `epsilon` is non-increasing and stays within
      [EpsilonFloor, EpsilonStart]. */
  lemma {:induction false} DecayNMonotone(e: real, n: nat, m: nat)
    requires InSchedule(e)
    requires n <= m
    ensures InSchedule(DecayN(e, m))
    ensures DecayN(e, m) <= DecayN(e, n) <= e
    decreases m
  {
    if m > 0 {
      if n == m {
        DecayNMonotone(e, n - 1, m - 1);
      } else {
        DecayNMonotone(e, n, m - 1);
      }
      DecayStaysInSchedule(DecayN(e, m - 1));
    }
  }

  /** Once at or below the minimum, `epsilon` is fixed for good. */
  lemma {:induction false} DecayNSettled(e: real, n: nat, k: nat)
    requires DecayN(e, n) <= EpsilonMin
    ensures DecayN(e, n + k) == DecayN(e, n)
    decreases k
  {
    if k > 0 {
      DecayNSettled(e, n, k - 1);
    }
  }

  /** Arithmetic helper for `DecayNBound`: one decay step trades the factor
      0.995 for one more unit in `199 + k`. */
  lemma DecayStepBound(x: real, k: real)
    requires x > EpsilonMin && k >= 0.0
    ensures Decay(x) * (200.0 + k) <= x * (199.0 + k)
  {
    assert Decay(x) == x * 0.995;
    assert x * 0.995 * (200.0 + k) == x * 199.0 + x * (0.995 * k);
    assert x * (199.0 + k) == x * 199.0 + x * k;
    assert x * (0.995 * k) <= x * k by {
      assert x * k - x * (0.995 * k) == 0.005 * (x * k);
      assert x * k >= 0.0;
    }
  }

  /** A Bernoulli-style bound: while above the minimum, `epsilon` after `n`
      passes is at most `199 * e / (199 + n)`. */
  lemma {:induction false} DecayNBound(e: real, n: nat)
    requires InSchedule(e)
    ensures DecayN(e, n) <= EpsilonMin || DecayN(e, n) * (199.0 + n as real) <= 199.0 * e
    decreases n
  {
    if n > 0 {
      DecayNBound(e, n - 1);
      var x := DecayN(e, n - 1);
      var k := (n - 1) as real;
      if x > EpsilonMin {
        DecayStepBound(x, k);
      } else {
        DecayNSettled(e, n - 1, 1);
      }
    }
  }

  /** Starting from `EpsilonStart`, `epsilon` reaches its minimum after at
      most 19701 training passes and stays there. The bound is loose: the
      exact number of passes is 919, the least n with 0.995^n <= 0.01. */
  lemma DecayReachesMinimum(k: nat)
    ensures DecayN(EpsilonStart, 19701 + k) <= EpsilonMin
  {
    DecayNBound(EpsilonStart, 19701);
    DecayNSettled(EpsilonStart, 19701, k);
  }
}
