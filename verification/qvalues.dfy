/** `np.argmax` and `np.max` over one row of Q-values. */
module QValues {

  /** `i` is the first index holding the largest value of `q`. */
  predicate IsFirstMax(q: seq<real>, i: int) {
    && 0 <= i < |q|
    && (forall j :: 0 <= j < |q| ==> q[j] <= q[i])
    && (forall j :: 0 <= j < i ==> q[j] < q[i])
  }

  /** Index of the largest Q-value; ties go to the lowest index, as with `np.argmax`. */
  function ArgMax(q: seq<real>): (r: nat)
    requires |q| > 0
    ensures IsFirstMax(q, r)
  {
    if |q| == 1 then 0
    else
      var k := ArgMax(q[..|q| - 1]);
      if q[|q| - 1] > q[k] then |q| - 1 else k
  }

  /** The largest Q-value. */
  function Max(q: seq<real>): (m: real)
    requires |q| > 0
    ensures m in q
    ensures forall j :: 0 <= j < |q| ==> q[j] <= m
  {
    q[ArgMax(q)]
  }

  /** The first maximum is unique, so `ArgMax` is the only index it could return. */
  lemma ArgMaxCharacterized(q: seq<real>, i: int)
    requires |q| > 0
    ensures ArgMax(q) == i <==> IsFirstMax(q, i)
  {
  }
}
