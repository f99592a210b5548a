/** Arithmetic over finite series of reals: Python's `sum`, `abs`, `min`,
    `max` and the counting comprehensions the engine uses. */
module Series {

  function Abs(x: real): (r: real)
    ensures r >= 0.0 && (r == x || r == -x)
  {
    if x < 0.0 then -x else x
  }

  function Min(a: real, b: real): (r: real)
    ensures r <= a && r <= b && (r == a || r == b)
  {
    if a <= b then a else b
  }

  function MinNat(a: nat, b: nat): (r: nat)
    ensures r <= a && r <= b && (r == a || r == b)
  {
    if a <= b then a else b
  }

  /** Python's `sum` over a list of floats. */
  function Sum(s: seq<real>): (r: real)
  {
    if s == [] then 0.0 else s[0] + Sum(s[1..])
  }

  /** Arithmetic mean; the callers guarantee a non-empty series. */
  function Mean(s: seq<real>): (r: real)
    requires |s| > 0
  {
    Sum(s) / |s| as real
  }

  /** Largest element, as Python's `max`. */
  function Max(s: seq<real>): (r: real)
    requires |s| > 0
    ensures r in s
    ensures forall i :: 0 <= i < |s| ==> s[i] <= r
  {
    if |s| == 1 then s[0]
    else
      var m := Max(s[1..]);
      assert forall i :: 1 <= i < |s| ==> s[i] == s[1..][i - 1];
      if s[0] >= m then s[0] else m
  }

  /** `sum(1 for x in s if x > 0)` */
  function CountPositive(s: seq<real>): (r: nat)
    ensures r <= |s|
  {
    if s == [] then 0 else (if s[0] > 0.0 then 1 else 0) + CountPositive(s[1..])
  }

  /** `sum(1 for x in s if x < 0)` */
  function CountNegative(s: seq<real>): (r: nat)
    ensures r <= |s|
  {
    if s == [] then 0 else (if s[0] < 0.0 then 1 else 0) + CountNegative(s[1..])
  }

  /** `s[-k:]` for `k <= len(s)`: the last `k` entries. */
  function Last(s: seq<real>, k: nat): (r: seq<real>)
    requires k <= |s|
  {
    s[|s| - k..]
  }

  lemma {:induction false} SumAppend(a: seq<real>, b: seq<real>)
    ensures Sum(a + b) == Sum(a) + Sum(b)
  {
    if a == [] {
      assert a + b == b;
    } else {
      assert (a + b)[1..] == a[1..] + b;
      SumAppend(a[1..], b);
    }
  }

  /** A non-empty series of positive values has a positive sum. */
  lemma {:induction false} SumOfPositivesPositive(s: seq<real>)
    requires |s| > 0
    requires forall i :: 0 <= i < |s| ==> s[i] > 0.0
    ensures Sum(s) > 0.0
  {
    if |s| > 1 {
      SumOfPositivesPositive(s[1..]);
    }
  }

  /** The mean of a non-empty series of positive values is positive. */
  lemma MeanOfPositivesPositive(s: seq<real>)
    requires |s| > 0
    requires forall i :: 0 <= i < |s| ==> s[i] > 0.0
    ensures Mean(s) > 0.0
  {
    SumOfPositivesPositive(s);
  }

  /** A non-empty series of negative values has a negative sum. */
  lemma {:induction false} SumOfNegativesNegative(s: seq<real>)
    requires |s| > 0
    requires forall i :: 0 <= i < |s| ==> s[i] < 0.0
    ensures Sum(s) < 0.0
  {
    if |s| > 1 {
      SumOfNegativesNegative(s[1..]);
    }
  }
}
