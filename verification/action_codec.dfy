/** `_decode_action`: an action index read as three decimal digits, each
    mapped linearly onto one adaptation parameter's range. */
module ActionCodec {

  /** The three parameters the manager proposes to the exemplar. */
  datatype ParameterSet = ParameterSet(
    explorationPercentage: real,
    averageEdgeDurationFactor: real,
    routeRandomSigma: real)

  /** Range of each parameter, as in `adjustment_ranges`. */
  const ExplorationLow: real := 0.0
  const ExplorationHigh: real := 1.0
  const EdgeFactorLow: real := 0.1
  const EdgeFactorHigh: real := 2.0
  const SigmaLow: real := 0.0
  const SigmaHigh: real := 1.0

  /** Number of distinct actions the three-digit scheme covers. */
  const ActionCount: int := 1000

  /** Digits of an action. Dafny's `/` and `%` with a positive divisor round
      toward minus infinity, exactly like Python's `//` and `%`. */
  function Units(action: int): int { action % 10 }
  function Tens(action: int): int { (action / 10) % 10 }
  function Hundreds(action: int): int { action / 100 }

  /** Each parameter is `low + (high - low) * digit / 9` over its range.
      There is no range check on `action`, so the hundreds digit is unbounded. */
  function Decode(action: int): (p: ParameterSet)
    ensures ExplorationLow <= p.explorationPercentage <= ExplorationHigh
    ensures EdgeFactorLow <= p.averageEdgeDurationFactor <= EdgeFactorHigh
    ensures 0 <= action < ActionCount ==> SigmaLow <= p.routeRandomSigma <= SigmaHigh
    ensures action < 0 ==> p.routeRandomSigma < SigmaLow
    ensures action >= ActionCount ==> p.routeRandomSigma > SigmaHigh
  {
    ParameterSet(
      ExplorationLow + (ExplorationHigh - ExplorationLow) * (Units(action) as real) / 9.0,
      EdgeFactorLow + (EdgeFactorHigh - EdgeFactorLow) * (Tens(action) as real) / 9.0,
      SigmaLow + (SigmaHigh - SigmaLow) * (Hundreds(action) as real) / 9.0)
  }

  /** All three parameters lie in their declared ranges. */
  predicate InRange(p: ParameterSet) {
    && ExplorationLow <= p.explorationPercentage <= ExplorationHigh
    && EdgeFactorLow <= p.averageEdgeDurationFactor <= EdgeFactorHigh
    && SigmaLow <= p.routeRandomSigma <= SigmaHigh
  }

  /** A model-side inverse of `Decode`, reading each digit back off its parameter. */
  function Encode(p: ParameterSet): int {
    var d0 := ((p.explorationPercentage - ExplorationLow) * 9.0 / (ExplorationHigh - ExplorationLow)).Floor;
    var d1 := ((p.averageEdgeDurationFactor - EdgeFactorLow) * 9.0 / (EdgeFactorHigh - EdgeFactorLow)).Floor;
    var d2 := ((p.routeRandomSigma - SigmaLow) * 9.0 / (SigmaHigh - SigmaLow)).Floor;
    d0 + 10 * d1 + 100 * d2
  }

  /** The decoded parameters are in range exactly for the 1000 actions of the
      three-digit grid: above 999 (and below 0) the sigma leaves [0, 1]. */
  lemma DecodeInRangeIff(action: int)
    ensures InRange(Decode(action)) <==> 0 <= action < ActionCount
  {
  }

  /** The corners and one interior point of the grid. */
  lemma DecodeCorners()
    ensures Decode(0) == ParameterSet(0.0, 0.1, 0.0)
    ensures Decode(999) == ParameterSet(1.0, 2.0, 1.0)
    ensures Decode(500) == ParameterSet(0.0, 0.1, 5.0 / 9.0)
    ensures Decode(1000).routeRandomSigma == 10.0 / 9.0
  {
  }

  /** An integer-valued real floors to itself. */
  lemma FloorOfDigit(d: int, x: real)
    requires x == d as real
    ensures x.Floor == d
  {
  }

  /** A grid action is its three digits put back together. */
  lemma DigitsRecompose(action: int)
    requires 0 <= action < ActionCount
    ensures 0 <= Hundreds(action) <= 9
    ensures action == Units(action) + 10 * Tens(action) + 100 * Hundreds(action)
  {
    var q := action / 10;
    assert action == 10 * q + Units(action);
    assert q == 10 * (q / 10) + Tens(action);
    assert q / 10 == Hundreds(action);
  }

  /** Decoding loses nothing on the grid: `Encode` recovers the action. */
  lemma DecodeRoundTrip(action: int)
    requires 0 <= action < ActionCount
    ensures Encode(Decode(action)) == action
  {
    var p := Decode(action);
    var u, t, h := Units(action), Tens(action), Hundreds(action);
    FloorOfDigit(u, (p.explorationPercentage - ExplorationLow) * 9.0 / (ExplorationHigh - ExplorationLow));
    FloorOfDigit(t, (p.averageEdgeDurationFactor - EdgeFactorLow) * 9.0 / (EdgeFactorHigh - EdgeFactorLow));
    FloorOfDigit(h, (p.routeRandomSigma - SigmaLow) * 9.0 / (SigmaHigh - SigmaLow));
    DigitsRecompose(action);
  }

  /** Hence two different grid actions never decode to the same parameters. */
  lemma DecodeInjective(a: int, b: int)
    requires 0 <= a < ActionCount && 0 <= b < ActionCount
    requires Decode(a) == Decode(b)
    ensures a == b
  {
    DecodeRoundTrip(a);
    DecodeRoundTrip(b);
  }
}
