/** The numeric primitives of `src/model/neural_net.rs`: the selectable activation
    functions with their derivatives, and softmax.

    The exponential (`f64::exp`) is a parameter of type `Exp`: any function whose
    values are all positive. Nothing else about it is assumed. */
module Activations {
  import opened Matrices

  /** An exponential function: a real function with positive values only. */
  type Exp = f: real -> real | forall x :: f(x) > 0.0 witness (x: real) => 1.0

  datatype ActivationFunction = ReLU | Sigmoid | Tanh | Linear | LeakyReLU

  /** `a.max(b)`. */
  function Max(a: real, b: real): real {
    if a >= b then a else b
  }

  /** The product of two positive reals is positive. */
  lemma ProductPositive(a: real, b: real)
    requires a > 0.0 && b > 0.0
    ensures a * b > 0.0
  {
  }

  /** A real strictly between -1 and 1 has a square below 1. */
  lemma SquareBelowOne(t: real)
    requires -1.0 < t < 1.0
    ensures 1.0 - t * t > 0.0
  {
    ProductPositive(1.0 - t, 1.0 + t);
    assert 1.0 - t * t == (1.0 - t) * (1.0 + t);
  }

  /** `activation`: the function applied to the linear output of every hidden layer. */
  function Activation(name: ActivationFunction, z: real, exp: Exp): (a: real)
    ensures name == ReLU ==> a >= 0.0 && a >= z
    ensures name == LeakyReLU ==> a >= z && a >= 0.01 * z
    ensures name == Sigmoid ==> 0.0 < a < 1.0
    ensures name == Tanh ==> -1.0 < a < 1.0
  {
    match name
    case ReLU => Max(z, 0.0)
    case Sigmoid =>
      var e := exp(-z);
      var s := 1.0 / (1.0 + e);
      assert s * (1.0 + e) == 1.0;
      assert s * e > 0.0;
      s
    case Tanh =>
      var p, q := exp(z), exp(-z);
      var t := (p - q) / (p + q);
      assert (1.0 - t) * (p + q) == 2.0 * q && (1.0 + t) * (p + q) == 2.0 * p;
      assert (1.0 - t) * (p + q) > 0.0 && (1.0 + t) * (p + q) > 0.0;
      t
    case Linear => 3.0 * z + 1.0
    case LeakyReLU => Max(z, 0.01 * z)
  }

  /** `delta_activation`: the derivative of `activation` at `z`. */
  function DeltaActivation(name: ActivationFunction, z: real, exp: Exp): (d: real)
    ensures d > 0.0 || (name == ReLU && d == 0.0)
    ensures name == ReLU || name == LeakyReLU ==> d <= 1.0
  {
    match name
    case ReLU => if z > 0.0 then 1.0 else 0.0
    case Sigmoid =>
      var s := Activation(name, z, exp);
      assert s * (1.0 - s) > 0.0;
      s * (1.0 - s)
    case Tanh =>
      var t := Activation(name, z, exp);
      SquareBelowOne(t);
      1.0 - t * t
    case Linear => 3.0
    case LeakyReLU => if z > 0.0 then 1.0 else 0.01
  }

  /** The activations that are linear on each side of 0. */
  predicate PiecewiseLinear(name: ActivationFunction) {
    name == ReLU || name == LeakyReLU || name == Linear
  }

  /** The piecewise-linear activations in closed form: ReLU is z above 0 and 0
      below, LeakyReLU is z above 0 and z/100 below, Linear is 3z + 1. */
  lemma ActivationClosedForm(name: ActivationFunction, z: real, exp: Exp)
    requires PiecewiseLinear(name)
    ensures name == ReLU ==> Activation(name, z, exp) == if z > 0.0 then z else 0.0
    ensures name == LeakyReLU ==> Activation(name, z, exp) == if z > 0.0 then z else 0.01 * z
    ensures name == Linear ==> Activation(name, z, exp) == 3.0 * z + 1.0
  {
  }

  /** On each linear piece the derivative is the slope: for `z` and `w` on the same
      side of 0, f(w) - f(z) = f'(z) * (w - z). */
  lemma DeltaIsSlope(name: ActivationFunction, z: real, w: real, exp: Exp)
    requires PiecewiseLinear(name)
    requires (z > 0.0 && w > 0.0) || (z <= 0.0 && w <= 0.0)
    ensures Activation(name, w, exp) - Activation(name, z, exp) == DeltaActivation(name, z, exp) * (w - z)
  {
    ActivationClosedForm(name, z, exp);
    ActivationClosedForm(name, w, exp);
  }

  /** ReLU and LeakyReLU are positively homogeneous: f(z) = f'(z) * z. */
  lemma RectifierHomogeneous(name: ActivationFunction, z: real, exp: Exp)
    requires name == ReLU || name == LeakyReLU
    ensures Activation(name, z, exp) == DeltaActivation(name, z, exp) * z
  {
    ActivationClosedForm(name, z, exp);
  }

  /** The logistic sigmoid takes values strictly between 0 and 1, so its derivative
      s(1 - s) is positive and at most 1/4. */
  lemma {:induction false} SigmoidBounds(z: real, exp: Exp)
    ensures 0.0 < Activation(Sigmoid, z, exp) < 1.0
    ensures 0.0 < DeltaActivation(Sigmoid, z, exp) <= 0.25
  {
    var e := exp(-z);
    assert e > 0.0;
    var s := 1.0 / (1.0 + e);
    assert s * (1.0 + e) == 1.0;
    assert s > 0.0;
    assert s < 1.0 by {
      assert s * e > 0.0;
      assert s == 1.0 - s * e;
    }
    assert Activation(Sigmoid, z, exp) == s;
    assert s * (1.0 - s) > 0.0;
    assert 0.25 - s * (1.0 - s) == (s - 0.5) * (s - 0.5);
  }

  /** tanh takes values strictly between -1 and 1, so its derivative 1 - t² lies in (0, 1]. */
  lemma {:induction false} TanhBounds(z: real, exp: Exp)
    ensures -1.0 < Activation(Tanh, z, exp) < 1.0
    ensures 0.0 < DeltaActivation(Tanh, z, exp) <= 1.0
  {
    var a, b := exp(z), exp(-z);
    assert a > 0.0 && b > 0.0;
    var t := (a - b) / (a + b);
    assert t * (a + b) == a - b;
    assert t < 1.0 by {
      assert (1.0 - t) * (a + b) == 2.0 * b;
      assert (1.0 - t) * (a + b) > 0.0;
    }
    assert t > -1.0 by {
      assert (1.0 + t) * (a + b) == 2.0 * a;
      assert (1.0 + t) * (a + b) > 0.0;
    }
    assert Activation(Tanh, z, exp) == t;
    assert 1.0 - t * t == (1.0 - t) * (1.0 + t);
    assert (1.0 - t) * (1.0 + t) > 0.0;
  }

  /** The largest entry of a non-empty row (`iter().max_by(total_cmp).unwrap()`). */
  function MaxOf(s: seq<real>): (m: real)
    requires |s| > 0
    ensures forall i :: 0 <= i < |s| ==> s[i] <= m
    ensures exists i :: 0 <= i < |s| && s[i] == m
    decreases |s|
  {
    if |s| == 1 then s[0]
    else
      var rest := MaxOf(s[1..]);
      assert forall i :: 1 <= i < |s| ==> s[i] == s[1..][i - 1];
      Max(s[0], rest)
  }

  /** The row with `c` added to every entry. */
  function Shift(s: seq<real>, c: real): (r: seq<real>)
    ensures |r| == |s|
  {
    seq(|s|, i requires 0 <= i < |s| => s[i] + c)
  }

  /** The exponentials of the scores shifted down by `max` (`scores.map(|x| x - max)`,
      then `exp`). */
  function ShiftedExps(scores: seq<real>, max: real, exp: Exp): (e: seq<real>)
    ensures |e| == |scores|
    ensures forall i :: 0 <= i < |e| ==> e[i] > 0.0
  {
    seq(|scores|, i requires 0 <= i < |scores| => exp(scores[i] - max))
  }

  /** `softmax`: each score's exponential, taken after subtracting the row maximum,
      divided by the sum of those exponentials. The result is a probability
      distribution over the row: positive entries summing to 1. The row must be
      non-empty (the maximum is unwrapped). */
  function Softmax(scores: seq<real>, exp: Exp): (p: seq<real>)
    requires |scores| > 0
    ensures |p| == |scores|
    ensures forall i :: 0 <= i < |p| ==> 0.0 < p[i]
    ensures Sum(p) == 1.0
  {
    Normalize(ShiftedExps(scores, MaxOf(scores), exp))
  }

  /** Positive weights divided by their total: a probability distribution. */
  function Normalize(v: seq<real>): (p: seq<real>)
    requires |v| > 0
    requires forall i :: 0 <= i < |v| ==> v[i] > 0.0
    ensures |p| == |v|
    ensures forall i :: 0 <= i < |p| ==> 0.0 < p[i]
    ensures Sum(p) == 1.0
  {
    Normalized(v);
    Divide(v, Sum(v))
  }

  /** Positive weights divided by their total are a probability distribution. */
  lemma {:induction false} Normalized(v: seq<real>)
    requires |v| > 0
    requires forall i :: 0 <= i < |v| ==> v[i] > 0.0
    ensures Sum(v) > 0.0
    ensures forall i :: 0 <= i < |v| ==> Divide(v, Sum(v))[i] > 0.0
    ensures Sum(Divide(v, Sum(v))) == 1.0
  {
    var d := Sum(v);
    SumPositive(v);
    SumDivide(v, d);
    assert d / d == 1.0;
    forall i | 0 <= i < |v|
      ensures Divide(v, d)[i] > 0.0
    {
      assert Divide(v, d)[i] * d == v[i];
    }
  }

  /** Adding a constant to every score moves the maximum by that constant. */
  lemma {:induction false} MaxOfShift(s: seq<real>, c: real)
    requires |s| > 0
    ensures MaxOf(Shift(s, c)) == MaxOf(s) + c
    decreases |s|
  {
    if |s| > 1 {
      assert Shift(s, c)[1..] == Shift(s[1..], c);
      MaxOfShift(s[1..], c);
    }
  }

  /** Softmax is unchanged when the same constant is added to every score: the
      subtraction of the row maximum cancels it exactly. */
  lemma SoftmaxShiftInvariant(s: seq<real>, c: real, exp: Exp)
    requires |s| > 0
    ensures Softmax(Shift(s, c), exp) == Softmax(s, exp)
  {
    MaxOfShift(s, c);
    ShiftedExpsShift(s, c, MaxOf(s), MaxOf(Shift(s, c)), exp);
  }

  /** Shifting the scores and the maximum by the same constant leaves the shifted
      exponentials unchanged. */
  lemma ShiftedExpsShift(s: seq<real>, c: real, max: real, shiftedMax: real, exp: Exp)
    requires shiftedMax == max + c
    ensures ShiftedExps(Shift(s, c), shiftedMax, exp) == ShiftedExps(s, max, exp)
  {
    forall i | 0 <= i < |s|
      ensures ShiftedExps(Shift(s, c), shiftedMax, exp)[i] == ShiftedExps(s, max, exp)[i]
    {
      assert Shift(s, c)[i] - shiftedMax == s[i] - max;
    }
  }
}
