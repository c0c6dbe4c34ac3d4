/**
 * The exponentially weighted mean that pandas computes for `ewm(span=5).mean()`
 * with its default `adjust=True`, and the one-step `shift(1)` that turns the
 * running mean into a feature that only looks at earlier observations.
 *
 * With span 5 the smoothing factor is alpha = 2 / (5 + 1) = 1/3, so every
 * observation is worth 2/3 of the one after it.  After observations
 * x_0 .. x_t the mean is  sum_i (2/3)^(t-i) * x_i  /  sum_i (2/3)^(t-i).
 */
module Ewma {
  import opened Wrappers

  const Span: nat := 5

  /** `alpha = 2 / (span + 1)`. */
  const Alpha: real := 2.0 / (Span as real + 1.0)

  /** The weight ratio between consecutive observations, `1 - alpha`. */
  const Decay: real := 1.0 - Alpha

  lemma {:induction false} DecayValue()
    ensures Alpha == 1.0 / 3.0 && Decay == 2.0 / 3.0
  {
  }

  /** Numerator of the adjusted mean: `S_t = x_t + Decay * S_{t-1}`. */
  function Num(x: seq<real>): real
    decreases |x|
  {
    if |x| == 0 then 0.0 else x[|x| - 1] + Decay * Num(x[..|x| - 1])
  }

  /** Denominator of the adjusted mean: `D_n = 1 + Decay * D_{n-1}`. */
  function Den(n: nat): (d: real)
    ensures n > 0 ==> d >= 1.0
    ensures d >= 0.0
  {
    if n == 0 then 0.0 else 1.0 + Decay * Den(n - 1)
  }

  /** The adjusted exponentially weighted mean of a non-empty history. */
  function Mean(x: seq<real>): real
    requires |x| > 0
  {
    Num(x) / Den(|x|)
  }

  function Pow(b: real, k: nat): real {
    if k == 0 then 1.0 else b * Pow(b, k - 1)
  }

  /** The weight pandas gives observation `i` of a history of length `n`. */
  function Weight(n: nat, i: nat): real
    requires i < n
  {
    Pow(Decay, n - 1 - i)
  }

  /** `sum_{i < k} Weight(|x|, i) * x_i`: the first `k` weighted terms. */
  function WeightedSum(x: seq<real>, k: nat): real
    requires k <= |x|
  {
    if k == 0 then 0.0 else WeightedSum(x, k - 1) + Weight(|x|, k - 1) * x[k - 1]
  }

  /** `sum_{i < k} Weight(n, i)`: the first `k` weights. */
  function WeightTotal(n: nat, k: nat): real
    requires k <= n
  {
    if k == 0 then 0.0 else WeightTotal(n, k - 1) + Weight(n, k - 1)
  }

  /** Appending one observation multiplies every older term by `Decay`. */
  lemma {:induction false} WeightedSumSnoc(x: seq<real>, a: real, k: nat)
    requires k <= |x|
    ensures WeightedSum(x + [a], k) == Decay * WeightedSum(x, k)
  {
    if k > 0 {
      WeightedSumSnoc(x, a, k - 1);
      assert (x + [a])[k - 1] == x[k - 1];
      assert Weight(|x| + 1, k - 1) == Decay * Weight(|x|, k - 1);
    }
  }

  lemma {:induction false} WeightTotalSnoc(n: nat, k: nat)
    requires k <= n
    ensures WeightTotal(n + 1, k) == Decay * WeightTotal(n, k)
  {
    if k > 0 {
      WeightTotalSnoc(n, k - 1);
      assert Weight(n + 1, k - 1) == Decay * Weight(n, k - 1);
    }
  }

  /** The recurrence computes the weighted sum pandas defines. */
  lemma {:induction false} NumIsWeightedSum(x: seq<real>)
    ensures Num(x) == WeightedSum(x, |x|)
    decreases |x|
  {
    if |x| > 0 {
      var init := x[..|x| - 1];
      var a := x[|x| - 1];
      assert x == init + [a];
      NumIsWeightedSum(init);
      WeightedSumSnoc(init, a, |init|);
    }
  }

  /** The recurrence computes the total weight pandas divides by. */
  lemma {:induction false} DenIsWeightTotal(n: nat)
    ensures Den(n) == WeightTotal(n, n)
  {
    if n > 0 {
      DenIsWeightTotal(n - 1);
      WeightTotalSnoc(n - 1, n - 1);
    }
  }

  /**
   * The mean is the weighted average with weights `(1 - alpha)^(t - i)`,
   * the definition pandas documents for `adjust=True`.
   */
  lemma {:induction false} MeanIsWeightedAverage(x: seq<real>)
    requires |x| > 0
    ensures WeightTotal(|x|, |x|) > 0.0
    ensures Mean(x) == WeightedSum(x, |x|) / WeightTotal(|x|, |x|)
  {
    NumIsWeightedSum(x);
    DenIsWeightTotal(|x|);
  }

  /** Closed form of the total weight: `3 * (1 - (2/3)^n)`, always below 3. */
  lemma {:induction false} DenClosedForm(n: nat)
    ensures Den(n) == 3.0 * (1.0 - Pow(Decay, n))
    ensures Den(n) < 3.0
  {
    if n > 0 {
      DenClosedForm(n - 1);
    }
    PowPositive(Decay, n);
  }

  lemma {:induction false} PowPositive(b: real, k: nat)
    requires b > 0.0
    ensures Pow(b, k) > 0.0
  {
    if k > 0 {
      PowPositive(b, k - 1);
    }
  }

  /** If every observation is at most `hi`, so is the numerator relative to the weights. */
  lemma {:induction false} NumBounds(x: seq<real>, lo: real, hi: real)
    requires forall i :: 0 <= i < |x| ==> lo <= x[i] <= hi
    ensures lo * Den(|x|) <= Num(x) <= hi * Den(|x|)
    decreases |x|
  {
    if |x| > 0 {
      NumBounds(x[..|x| - 1], lo, hi);
    }
  }

  /** The mean of a history lies between its smallest and largest observation. */
  lemma {:induction false} MeanBounds(x: seq<real>, lo: real, hi: real)
    requires |x| > 0
    requires forall i :: 0 <= i < |x| ==> lo <= x[i] <= hi
    ensures lo <= Mean(x) <= hi
  {
    NumBounds(x, lo, hi);
    var d := Den(|x|);
    assert d >= 1.0;
    assert lo <= Num(x) / d <= hi by {
      assert lo * d <= Num(x) <= hi * d;
    }
  }

  /** The numerator is monotone in every observation. */
  lemma {:induction false} NumMono(x: seq<real>, y: seq<real>)
    requires |x| == |y|
    requires forall i :: 0 <= i < |x| ==> x[i] <= y[i]
    ensures Num(x) <= Num(y)
    decreases |x|
  {
    if |x| > 0 {
      NumMono(x[..|x| - 1], y[..|y| - 1]);
    }
  }

  /** Histories that are pointwise ordered have ordered means. */
  lemma {:induction false} MeanMono(x: seq<real>, y: seq<real>)
    requires |x| == |y| > 0
    requires forall i :: 0 <= i < |x| ==> x[i] <= y[i]
    ensures Mean(x) <= Mean(y)
  {
    NumMono(x, y);
    var d := Den(|x|);
    assert Num(x) / d <= Num(y) / d by {
      assert d > 0.0;
    }
  }

  /** A history of one repeated value averages to that value. */
  lemma {:induction false} MeanConstant(x: seq<real>, c: real)
    requires |x| > 0
    requires forall i :: 0 <= i < |x| ==> x[i] == c
    ensures Mean(x) == c
  {
    MeanBounds(x, c, c);
  }

  /** `x.ewm(span=5).mean()`: the running mean after each observation. */
  function Series(x: seq<real>): (r: seq<real>)
    ensures |r| == |x|
    ensures forall k :: 0 <= k < |x| ==> r[k] == Mean(x[..k + 1])
  {
    seq(|x|, k requires 0 <= k < |x| => Mean(x[..k + 1]))
  }

  /** `s.shift(1)`: every value moves one place later; the first becomes null. */
  function Shift<T>(s: seq<T>): (r: seq<Option<T>>)
    ensures |r| == |s|
    ensures |s| > 0 ==> r[0] == None
    ensures forall k :: 0 < k < |s| ==> r[k] == Some(s[k - 1])
  {
    if |s| == 0 then [] else [None] + seq(|s| - 1, k requires 0 <= k < |s| - 1 => Some(s[k]))
  }

  /** A fighter's feature column before each fight: `ewm(span=5).mean()` followed by `shift(1)`. */
  function Causal(x: seq<real>): (r: seq<Option<real>>)
    ensures |r| == |x|
    ensures |x| > 0 ==> r[0] == None
  {
    Shift(Series(x))
  }

  /**
   * The feature of observation `k` is the mean of observations `0 .. k-1`;
   * it is null for the first observation.
   */
  lemma {:induction false} CausalIsMeanOfEarlier(x: seq<real>, k: nat)
    requires k < |x|
    ensures |Causal(x)| == |x|
    ensures k == 0 ==> Causal(x)[k] == None
    ensures k > 0 ==> Causal(x)[k] == Some(Mean(x[..k]))
  {
    if k > 0 {
      assert x[..k - 1 + 1] == x[..k];
    }
  }

  /**
   * The feature of observation `k` does not depend on observation `k` or on
   * anything after it: two histories that agree before `k` agree on it.
   */
  lemma {:induction false} CausalNoLookAhead(x: seq<real>, y: seq<real>, k: nat)
    requires k < |x| && k < |y|
    requires x[..k] == y[..k]
    ensures Causal(x)[k] == Causal(y)[k]
  {
    CausalIsMeanOfEarlier(x, k);
    CausalIsMeanOfEarlier(y, k);
  }

  /**
   * The plain recurrence `m_0 = x_0`, `m_t = alpha * x_t + (1 - alpha) * m_{t-1}`,
   * which is what `adjust=False` would compute; it is not what the features use.
   */
  function Unadjusted(x: seq<real>): real
    requires |x| > 0
    decreases |x|
  {
    if |x| == 1 then x[0] else Alpha * x[|x| - 1] + Decay * Unadjusted(x[..|x| - 1])
  }

  /** For the history [10, 20] the feature is 16, not the 40/3 of the plain recurrence. */
  lemma {:induction false} AdjustedDiffersFromRecurrence()
    ensures Mean([10.0, 20.0]) == 16.0
    ensures Unadjusted([10.0, 20.0]) == 40.0 / 3.0
  {
    var x := [10.0, 20.0];
    assert x[..1] == [10.0];
    assert x[..1][..0] == [];
    assert Num(x) == 20.0 + Decay * 10.0;
    assert Den(2) == 1.0 + Decay;
  }
}
