/** The network engine of `src/model/neural_net.rs` as functions: layer shapes and
    initial values, the forward trace, the backward pass with its gradient-descent
    update, and the batch and epoch structure of training. The `NeuralNet` class
    (module NeuralNetwork) runs the source's loops and is proved against these. */
module NetworkSpec {
  import opened Matrices
  import opened Activations
  import opened Parsing

  /** One transition between two layer widths: a weight matrix (fan-in × fan-out)
      and a bias vector (fan-out). */
  datatype Layer = Layer(weights: Matrix, bias: Vector)

  datatype InitMethod = Default | Xavier

  predicate LayerShape(l: Layer, fanIn: nat, fanOut: nat) {
    IsMatrix(l.weights, fanIn, fanOut) && |l.bias| == fanOut
  }

  /** The layers realise the width list: layer `i` maps `widths[i]` columns to
      `widths[i + 1]` columns, so there is one layer fewer than widths. */
  predicate Fits(layers: seq<Layer>, widths: seq<nat>) {
    |widths| == |layers| + 1 &&
    forall i :: 0 <= i < |layers| ==> LayerShape(layers[i], widths[i], widths[i + 1])
  }

  // ---------------------------------------------------------------------------
  // Initialisation

  /** A draw of the random source: a real in [0, 1). */
  type Unit = u: real | 0.0 <= u < 1.0

  /** `Uniform::new(low, high).sample(rng)`: the draw `u` scaled onto [low, high). */
  function Uniform(low: real, high: real, u: Unit): (x: real)
    requires low < high
    ensures low <= x < high
  {
    low + Scaled(u, high - low)
  }

  /** The draw `u` scaled onto [0, width). */
  function Scaled(u: Unit, width: real): (offset: real)
    requires width > 0.0
    ensures 0.0 <= offset < width
  {
    assert (1.0 - u) * width > 0.0;
    u * width
  }

  /** A `rows` × `cols` matrix of samples from [low, high), filled in row-major order
      from the draws `rng(first)`, `rng(first + 1)`, ... */
  function SampleMatrix(rows: nat, cols: nat, low: real, high: real, rng: nat -> Unit, first: nat): (m: Matrix)
    requires low < high
    ensures IsMatrix(m, rows, cols)
    ensures forall i, j :: 0 <= i < rows && 0 <= j < cols ==> low <= m[i][j] < high
  {
    seq(rows, i requires 0 <= i < rows => SampleRow(cols, low, high, rng, first + i * cols))
  }

  /** `cols` samples from [low, high), from the draws `rng(first)` onwards. */
  function SampleRow(cols: nat, low: real, high: real, rng: nat -> Unit, first: nat): (row: Vector)
    requires low < high
    ensures |row| == cols
    ensures forall j :: 0 <= j < cols ==> low <= row[j] < high
  {
    var row := seq(cols, j requires 0 <= j < cols => Uniform(low, high, rng(first + j)));
    assert forall j :: 0 <= j < cols ==> row[j] == Uniform(low, high, rng(first + j));
    row
  }

  /** Every weight lies in [low, high). */
  predicate WeightsWithin(l: Layer, low: real, high: real) {
    forall i, j :: 0 <= i < |l.weights| && 0 <= j < |l.weights[i]| ==> low <= l.weights[i][j] < high
  }

  /** Every bias equals `v`. */
  predicate BiasAll(l: Layer, v: real) {
    forall j :: 0 <= j < |l.bias| ==> l.bias[j] == v
  }

  /** `6f64.sqrt()`: the double nearest to the square root of 6, as an exact real. */
  const Sqrt6: real := 2.44948974278317788133563226438127458095550537109375

  /** The Xavier boundary as the source computes it: sqrt(6) / (fan_in + fan_out).
      (Glorot and Bengio take the square root of the whole quotient instead.) */
  function XavierBound(fanIn: nat, fanOut: nat): (b: real)
    requires fanIn + fanOut > 0
    ensures b > 0.0
  {
    Sqrt6 / ((fanIn + fanOut) as real)
  }

  /** The layers `init_layers_default` produces: weights in [-0.3, 0.3), biases all 1. */
  predicate DefaultInitialised(layers: seq<Layer>) {
    forall i :: 0 <= i < |layers| ==> WeightsWithin(layers[i], -0.3, 0.3) && BiasAll(layers[i], 1.0)
  }

  /** The layers `init_layers_xavier` produces for the widths: the weights of layer `i`
      within the Xavier boundary of its fan-in and fan-out, biases all 0. */
  predicate XavierInitialised(layers: seq<Layer>, layerStructure: seq<nat>) {
    && |layerStructure| == |layers| + 1
    && forall i :: 0 <= i < |layers| ==>
         && layerStructure[i] + layerStructure[i + 1] > 0
         && WeightsWithin(layers[i], -XavierBound(layerStructure[i], layerStructure[i + 1]),
                                     XavierBound(layerStructure[i], layerStructure[i + 1]))
         && BiasAll(layers[i], 0.0)
  }

  /** Every pair of adjacent widths has a positive sum, so every Xavier boundary is
      finite; a zero sum makes the boundary infinite or NaN and `Uniform::new` panics. */
  predicate FanSumsPositive(layerStructure: seq<nat>) {
    forall i :: 0 <= i < |layerStructure| - 1 ==> layerStructure[i] + layerStructure[i + 1] > 0
  }

  // ---------------------------------------------------------------------------
  // Forward pass

  /** `hidden.last().unwrap().dot(&layer.0) + &layer.1`: the layer's affine map, the
      bias added to every row. */
  function LinearOutput(h: Matrix, l: Layer): (z: Matrix)
    ensures IsMatrix(z, |h|, |l.bias|)
  {
    AddRow(MatMul(h, l.weights, |l.bias|), l.bias)
  }

  /** `activation` applied to every entry. */
  function Activate(name: ActivationFunction, m: Matrix, exp: Exp): (a: Matrix)
    ensures SameShape(a, m)
  {
    seq(|m|, i requires 0 <= i < |m| =>
      seq(|m[i]|, j requires 0 <= j < |m[i]| => Activation(name, m[i][j], exp)))
  }

  /** `delta_activation` applied to every entry. */
  function Derivative(name: ActivationFunction, m: Matrix, exp: Exp): (d: Matrix)
    ensures SameShape(d, m)
  {
    seq(|m|, i requires 0 <= i < |m| =>
      seq(|m[i]|, j requires 0 <= j < |m[i]| => DeltaActivation(name, m[i][j], exp)))
  }

  /** The output of layer `k` from its linear output: activated for every layer but
      the last, passed through unchanged for the last. */
  function LayerOutput(layers: seq<Layer>, k: nat, name: ActivationFunction, exp: Exp, z: Matrix): (a: Matrix)
    ensures SameShape(a, z)
  {
    if k + 1 < |layers| then Activate(name, z, exp) else z
  }

  /** The forward trace after the first `n` layers: `hidden` starts with the input and
      gains one entry per layer, `hiddenLinear` holds each layer's linear output. */
  function Trace(layers: seq<Layer>, name: ActivationFunction, exp: Exp, x: Matrix, n: nat)
    : (t: (seq<Matrix>, seq<Matrix>))
    requires n <= |layers|
    ensures |t.0| == n + 1 && |t.1| == n && t.0[0] == x
    ensures forall k :: 0 <= k < n ==>
      t.1[k] == LinearOutput(t.0[k], layers[k]) && t.0[k + 1] == LayerOutput(layers, k, name, exp, t.1[k])
    decreases n
  {
    if n == 0 then ([x], [])
    else
      var t := Trace(layers, name, exp, x, n - 1);
      var z := LinearOutput(t.0[n - 1], layers[n - 1]);
      (t.0 + [LayerOutput(layers, n - 1, name, exp, z)], t.1 + [z])
  }

  /** The full forward trace of `forward`. */
  function Forwarded(layers: seq<Layer>, name: ActivationFunction, exp: Exp, x: Matrix): (t: (seq<Matrix>, seq<Matrix>))
    ensures |t.0| == |layers| + 1 && |t.1| == |layers|
  {
    Trace(layers, name, exp, x, |layers|)
  }

  /** For a batch of `B` rows whose width is the first width, every entry of the
      trace has `B` rows: `hidden[k]` has `widths[k]` columns and `hiddenLinear[k]`
      has `widths[k + 1]`. In particular the last entry has the output width. */
  lemma {:induction false} TraceShape(layers: seq<Layer>, widths: seq<nat>, name: ActivationFunction, exp: Exp, x: Matrix)
    requires Fits(layers, widths) && IsMatrix(x, |x|, widths[0])
    ensures var t := Forwarded(layers, name, exp, x);
      && (forall k :: 0 <= k <= |layers| ==> IsMatrix(t.0[k], |x|, widths[k]))
      && (forall k :: 0 <= k < |layers| ==> IsMatrix(t.1[k], |x|, widths[k + 1]))
  {
    var t := Forwarded(layers, name, exp, x);
    forall k | 0 <= k <= |layers|
      ensures IsMatrix(t.0[k], |x|, widths[k])
    {
      HiddenShape(layers, widths, name, exp, x, k);
    }
  }

  lemma {:induction false} HiddenShape(layers: seq<Layer>, widths: seq<nat>, name: ActivationFunction, exp: Exp, x: Matrix, k: nat)
    requires Fits(layers, widths) && IsMatrix(x, |x|, widths[0]) && k <= |layers|
    ensures IsMatrix(Forwarded(layers, name, exp, x).0[k], |x|, widths[k])
    decreases k
  {
    if k > 0 {
      HiddenShape(layers, widths, name, exp, x, k - 1);
    }
  }

  // ---------------------------------------------------------------------------
  // Backward pass

  /** `grad_help.dot(&layer.0.t())`: the gradient handed to the layer below, through
      this layer's weights. */
  function Propagate(g: Matrix, l: Layer): (p: Matrix)
    ensures IsMatrix(p, |g|, |l.weights|)
  {
    MatMul(g, Transpose(l.weights, |l.bias|), |l.weights|)
  }

  /** The gradient with respect to layer `idx`'s linear output. The last layer takes the
      incoming gradient as it is; every other layer takes the gradient propagated
      through the (pre-update) weights of the layer above, multiplied entrywise by the
      activation derivative at its stored linear output. */
  function LayerGrad(layers: seq<Layer>, hiddenLinear: seq<Matrix>, grad: Matrix,
                     name: ActivationFunction, exp: Exp, idx: nat): (g: Matrix)
    requires idx < |layers| && |hiddenLinear| + 1 >= |layers|
    ensures |g| == |grad|
    ensures idx < |layers| - 1 ==> IsMatrix(g, |grad|, |layers[idx + 1].weights|)
    decreases |layers| - idx
  {
    if idx == |layers| - 1 then grad
    else
      Hadamard(Propagate(LayerGrad(layers, hiddenLinear, grad, name, exp, idx + 1), layers[idx + 1]),
               Derivative(name, hiddenLinear[idx], exp))
  }

  /** Entry `(r, c)` of the gradient propagated through a layer is row `r` of the
      gradient dotted with row `c` of the layer's weights (`g · Wᵀ`). */
  lemma PropagateEntry(g: Matrix, l: Layer, r: nat, c: nat)
    requires IsMatrix(l.weights, |l.weights|, |l.bias|)
    requires r < |g| && c < |l.weights|
    ensures Propagate(g, l)[r][c] == Dot(g[r], l.weights[c])
  {
    MatMulEntry(g, Transpose(l.weights, |l.bias|), |l.weights|, r, c);
    ColumnOfTranspose(l.weights, |l.bias|, c);
  }

  /** The gradient-descent step on one layer: weights minus `lr` times `inputᵀ · g`,
      biases minus `lr` times the row mean of `g`. */
  function Step(l: Layer, input: Matrix, g: Matrix, lr: real): (r: Layer)
    requires |g| > 0
    ensures SameShape(r.weights, l.weights) && |r.bias| == |l.bias|
  {
    var weightGrad := MatMul(Transpose(input, |l.weights|), g, |l.bias|);
    var biasGrad := MeanRows(g, |l.bias|);
    Layer(StepMatrix(l.weights, weightGrad, lr), StepVector(l.bias, biasGrad, lr))
  }

  /** The layers after `backward_and_update`: every layer stepped along its own
      gradient, all gradients computed from the layers as they were before the call. */
  function Backprop(layers: seq<Layer>, hidden: seq<Matrix>, hiddenLinear: seq<Matrix>, grad: Matrix,
                    lr: real, name: ActivationFunction, exp: Exp): (r: seq<Layer>)
    requires |hidden| >= |layers| && |hiddenLinear| + 1 >= |layers|
    requires |layers| > 0 ==> |grad| > 0
    ensures |r| == |layers|
    ensures forall idx :: 0 <= idx < |layers| ==>
      SameShape(r[idx].weights, layers[idx].weights) && |r[idx].bias| == |layers[idx].bias|
  {
    seq(|layers|, idx requires 0 <= idx < |layers| =>
      Step(layers[idx], hidden[idx], LayerGrad(layers, hiddenLinear, grad, name, exp, idx), lr))
  }

  /** Entrywise, the step subtracts `lr` times the batch sum of input column `i` times
      gradient column `j` from weight `(i, j)`, and `lr` times the batch mean of
      gradient column `j` from bias `j`. */
  lemma StepEntries(l: Layer, input: Matrix, g: Matrix, lr: real, i: nat, j: nat)
    requires |g| > 0 && IsMatrix(l.weights, |l.weights|, |l.bias|)
    requires i < |l.weights| && j < |l.bias|
    ensures Step(l, input, g, lr).weights[i][j] == l.weights[i][j] - lr * Dot(Column(input, i), Column(g, j))
    ensures Step(l, input, g, lr).bias[j] == l.bias[j] - lr * (Sum(Column(g, j)) / (|g| as real))
  {
    TransposeProductEntry(input, g, |l.weights|, |l.bias|, i, j);
  }

  /** Updating a layer before propagating through it would give a different gradient:
      with one weight 1, one input 1, gradient 1 and learning rate 1 the propagated
      gradient is 1 from the pre-update weight and 0 from the updated one. */
  lemma UpdateOrderMatters()
    ensures var l := Layer([[1.0]], [0.0]);
      Propagate([[1.0]], l) == [[1.0]] && Propagate([[1.0]], Step(l, [[1.0]], [[1.0]], 1.0)) == [[0.0]]
  {
    var l := Layer([[1.0]], [0.0]);
    var one: Matrix := [[1.0]];
    assert Column(one, 0) == [1.0];
    assert Transpose(one, 1) == one;
    assert Dot([1.0], [1.0]) == 1.0 + Dot([], []);
    assert MatMul(one, one, 1)[0][0] == 1.0;
    assert MatMul(one, one, 1)[0] == [1.0];
    assert MatMul(one, one, 1) == one;
    assert MeanRows(one, 1) == [1.0];
    var s := Step(l, one, one, 1.0);
    assert s.weights[0][0] == 0.0;
    assert s.weights[0] == [0.0];
    assert s.weights == [[0.0]];
    assert Column([[0.0]], 0) == [0.0];
    assert Transpose([[0.0]], 1) == [[0.0]];
    assert Dot([1.0], [0.0]) == 0.0 + Dot([], []);
    assert MatMul(one, [[0.0]], 1)[0][0] == 0.0;
    assert MatMul(one, [[0.0]], 1)[0] == [0.0];
    assert Propagate(one, l) == one;
    assert |s.bias| == 1;
    assert Propagate(one, s) == [[0.0]];
  }

  /** Updating the layers keeps every shape, so the layers still realise the widths. */
  lemma BackpropFits(layers: seq<Layer>, widths: seq<nat>, hidden: seq<Matrix>, hiddenLinear: seq<Matrix>,
                     grad: Matrix, lr: real, name: ActivationFunction, exp: Exp)
    requires Fits(layers, widths)
    requires |hidden| >= |layers| && |hiddenLinear| + 1 >= |layers| && (|layers| > 0 ==> |grad| > 0)
    ensures Fits(Backprop(layers, hidden, hiddenLinear, grad, lr, name, exp), widths)
  {
    var r := Backprop(layers, hidden, hiddenLinear, grad, lr, name, exp);
    forall i | 0 <= i < |layers|
      ensures LayerShape(r[i], widths[i], widths[i + 1])
    {
      assert SameShape(r[i].weights, layers[i].weights);
    }
  }

  // ---------------------------------------------------------------------------
  // Training

  /** The softmax of every row: the predictions for a matrix of scores. */
  function SoftmaxRows(scores: Matrix, exp: Exp): (p: Matrix)
    requires forall i :: 0 <= i < |scores| ==> |scores[i]| > 0
    ensures SameShape(p, scores)
    ensures forall i :: 0 <= i < |p| ==> Sum(p[i]) == 1.0
    ensures forall i, j :: 0 <= i < |p| && 0 <= j < |p[i]| ==> p[i][j] > 0.0
  {
    seq(|scores|, i requires 0 <= i < |scores| => Softmax(scores[i], exp))
  }

  /** The predictions of the network for the rows of `x`: the softmax of every row of
      the last layer's output, each a probability distribution over the output width. */
  function Predicted(layers: seq<Layer>, widths: seq<nat>, name: ActivationFunction, exp: Exp, x: Matrix): (p: Matrix)
    requires Fits(layers, widths) && IsMatrix(x, |x|, widths[0]) && OutputReady(widths, |x|)
    ensures IsMatrix(p, |x|, widths[|layers|])
    ensures forall i :: 0 <= i < |p| ==> Sum(p[i]) == 1.0
  {
    HiddenShape(layers, widths, name, exp, x, |layers|);
    SoftmaxRows(Forwarded(layers, name, exp, x).0[|layers|], exp)
  }

  /** `axis_chunks_iter(Axis(0), size)`: consecutive runs of `size` rows, the last run
      possibly shorter, none empty. */
  function Chunks<T>(s: seq<T>, size: nat): (c: seq<seq<T>>)
    requires size > 0
    ensures forall k :: 0 <= k < |c| ==> 0 < |c[k]| <= size
    ensures forall k :: 0 <= k < |c| - 1 ==> |c[k]| == size
    decreases |s|
  {
    if |s| == 0 then []
    else if |s| <= size then [s]
    else [s[..size]] + Chunks(s[size..], size)
  }

  /** The runs one after another. */
  function ConcatRuns<T>(c: seq<seq<T>>): seq<T>
    decreases |c|
  {
    if |c| == 0 then [] else c[0] + ConcatRuns(c[1..])
  }

  /** The chunks cover the rows exactly, in order. */
  lemma {:induction false} ChunksCover<T>(s: seq<T>, size: nat)
    requires size > 0
    ensures ConcatRuns(Chunks(s, size)) == s
    decreases |s|
  {
    if |s| > size {
      var c := Chunks(s, size);
      assert c[1..] == Chunks(s[size..], size);
      ChunksCover(s[size..], size);
      assert s[..size] + s[size..] == s;
    } else if |s| > 0 {
      assert ConcatRuns([s]) == s + ConcatRuns<T>([]);
    }
  }

  /** Chunk `k` is the slice of rows starting at row `k * size`. */
  lemma {:induction false} ChunkIsSlice<T>(s: seq<T>, size: nat, k: nat)
    requires size > 0 && k < |Chunks(s, size)|
    ensures k * size + |Chunks(s, size)[k]| <= |s|
    ensures Chunks(s, size)[k] == s[k * size .. k * size + |Chunks(s, size)[k]|]
    decreases |s|
  {
    var c := Chunks(s, size);
    if k > 0 {
      assert |s| > size;
      var rest := Chunks(s[size..], size);
      assert c == [s[..size]] + rest;
      assert c[k] == rest[k - 1];
      var lo, len := (k - 1) * size, |c[k]|;
      ChunkIsSlice(s[size..], size, k - 1);
      ChunkStart(size, k);
      assert s[size..][lo .. lo + len] == s[size + lo .. size + lo + len];
    }
  }

  /** Chunk `k` starts one chunk after chunk `k - 1`. */
  lemma ChunkStart(size: nat, k: nat)
    requires k > 0
    ensures k * size == size + (k - 1) * size
  {
  }

  /** There are ceil(rows / size) chunks: enough to hold every row, and one fewer would not be. */
  lemma {:induction false} ChunkCount<T>(s: seq<T>, size: nat)
    requires size > 0
    ensures |s| <= |Chunks(s, size)| * size
    ensures |Chunks(s, size)| > 0 ==> (|Chunks(s, size)| - 1) * size < |s|
    decreases |s|
  {
    if |s| > size {
      var c := Chunks(s, size);
      assert c[1..] == Chunks(s[size..], size);
      ChunkCount(s[size..], size);
      assert |c| * size == (|c| - 1) * size + size;
      assert (|c| - 1) * size == (|c| - 2) * size + size;
    }
  }

  /** Every chunk of a matrix with `cols` columns is a matrix with `cols` columns. */
  lemma {:induction false} ChunksOfMatrix(m: Matrix, cols: nat, size: nat)
    requires size > 0 && IsMatrix(m, |m|, cols)
    ensures forall k :: 0 <= k < |Chunks(m, size)| ==> IsMatrix(Chunks(m, size)[k], |Chunks(m, size)[k]|, cols)
    decreases |m|
  {
    if |m| > size {
      var c := Chunks(m, size);
      assert c[1..] == Chunks(m[size..], size);
      ChunksOfMatrix(m[size..], cols, size);
      forall k | 1 <= k < |c|
        ensures IsMatrix(c[k], |c[k]|, cols)
      {
        assert c[k] == c[1..][k - 1];
      }
    }
  }

  /** Iterating two sequences together (`zip`), stopping at the shorter one. */
  function Zip<A, B>(a: seq<A>, b: seq<B>): (z: seq<(A, B)>)
    ensures |z| == if |a| <= |b| then |a| else |b|
    ensures forall k :: 0 <= k < |z| ==> z[k] == (a[k], b[k])
  {
    var n := if |a| <= |b| then |a| else |b|;
    seq(n, k requires 0 <= k < n => (a[k], b[k]))
  }

  /** The (input, target) batches of one epoch. */
  function Batches(dataset: Dataset, batchSize: nat): seq<(Matrix, Matrix)>
    requires batchSize > 0
  {
    Zip(Chunks(dataset.data, batchSize), Chunks(dataset.target, batchSize))
  }

  /** Batches the engine can run: non-empty inputs with the network's input width, and
      targets with one row of the network's output width per input row. */
  predicate RunnableBatches(batches: seq<(Matrix, Matrix)>, inWidth: nat, outWidth: nat) {
    forall k :: 0 <= k < |batches| ==>
      && |batches[k].0| > 0
      && IsMatrix(batches[k].0, |batches[k].0|, inWidth)
      && IsMatrix(batches[k].1, |batches[k].0|, outWidth)
  }

  /** The network's output width is positive, as softmax needs, whenever there are rows
      to run. */
  predicate OutputReady(widths: seq<nat>, rows: nat) {
    |widths| > 0 && (rows > 0 ==> widths[|widths| - 1] > 0)
  }

  /** One batch of `fit`: forward pass, softmax of the output rows, gradient
      `predictions - targets`, backward pass and update. The targets have the shape of
      the predictions. */
  function BatchStep(layers: seq<Layer>, widths: seq<nat>, name: ActivationFunction, lr: real, exp: Exp,
                     x: Matrix, t: Matrix): (r: seq<Layer>)
    requires Fits(layers, widths) && IsMatrix(x, |x|, widths[0]) && |x| > 0 && widths[|layers|] > 0
    requires IsMatrix(t, |x|, widths[|layers|])
    ensures Fits(r, widths)
  {
    var trace := Forwarded(layers, name, exp, x);
    TraceShape(layers, widths, name, exp, x);
    var grad := Minus(SoftmaxRows(trace.0[|layers|], exp), t);
    BackpropFits(layers, widths, trace.0, trace.1, grad, lr, name, exp);
    Backprop(layers, trace.0, trace.1, grad, lr, name, exp)
  }

  /** The layers after running the first `k` batches, in order. */
  function RunBatches(layers: seq<Layer>, widths: seq<nat>, name: ActivationFunction, lr: real, exp: Exp,
                      batches: seq<(Matrix, Matrix)>, k: nat): (r: seq<Layer>)
    requires Fits(layers, widths) && RunnableBatches(batches, widths[0], widths[|layers|])
    requires OutputReady(widths, |batches|) && k <= |batches|
    ensures Fits(r, widths)
    decreases k
  {
    if k == 0 then layers
    else
      var before := RunBatches(layers, widths, name, lr, exp, batches, k - 1);
      BatchStep(before, widths, name, lr, exp, batches[k - 1].0, batches[k - 1].1)
  }

  /** Running one more batch is one more batch step. */
  lemma RunBatchesStep(layers: seq<Layer>, widths: seq<nat>, name: ActivationFunction, lr: real, exp: Exp,
                       batches: seq<(Matrix, Matrix)>, k: nat)
    requires Fits(layers, widths) && RunnableBatches(batches, widths[0], widths[|layers|])
    requires OutputReady(widths, |batches|) && k < |batches|
    ensures RunBatches(layers, widths, name, lr, exp, batches, k + 1)
         == BatchStep(RunBatches(layers, widths, name, lr, exp, batches, k), widths, name, lr, exp,
                      batches[k].0, batches[k].1)
  {
  }

  /** A dataset the network can train on with a batch size: the batch size is positive,
      the inputs have the input width, and the targets have one row of the output width
      per input row. */
  predicate Trainable(dataset: Dataset, widths: seq<nat>, batchSize: nat) {
    && batchSize > 0
    && |widths| > 0
    && IsMatrix(dataset.data, |dataset.data|, widths[0])
    && IsMatrix(dataset.target, |dataset.data|, widths[|widths| - 1])
    && OutputReady(widths, |dataset.data|)
  }

  /** The batches of a trainable dataset can be run. */
  lemma BatchesRunnable(dataset: Dataset, widths: seq<nat>, batchSize: nat)
    requires Trainable(dataset, widths, batchSize)
    ensures RunnableBatches(Batches(dataset, batchSize), widths[0], widths[|widths| - 1])
    ensures OutputReady(widths, |Batches(dataset, batchSize)|)
  {
    ChunksOfMatrix(dataset.data, widths[0], batchSize);
    ChunksOfMatrix(dataset.target, widths[|widths| - 1], batchSize);
    ChunksAlign(dataset.data, dataset.target, batchSize);
    ChunkCount(dataset.data, batchSize);
  }

  /** Two sequences of the same length are cut into chunks of the same lengths. */
  lemma {:induction false} ChunksAlign<A, B>(s: seq<A>, u: seq<B>, size: nat)
    requires size > 0 && |s| == |u|
    ensures |Chunks(s, size)| == |Chunks(u, size)|
    ensures forall k :: 0 <= k < |Chunks(s, size)| ==> |Chunks(s, size)[k]| == |Chunks(u, size)[k]|
    decreases |s|
  {
    if |s| > size {
      ChunksAlign(s[size..], u[size..], size);
      var c, d := Chunks(s, size), Chunks(u, size);
      assert c[1..] == Chunks(s[size..], size);
      assert d[1..] == Chunks(u[size..], size);
      forall k | 1 <= k < |c|
        ensures |c[k]| == |d[k]|
      {
        assert c[k] == c[1..][k - 1];
        assert d[k] == d[1..][k - 1];
      }
    }
  }

  /** The layers after `epochs` epochs of training. */
  function Train(layers: seq<Layer>, widths: seq<nat>, name: ActivationFunction, lr: real, exp: Exp,
                 dataset: Dataset, batchSize: nat, epochs: nat): (r: seq<Layer>)
    requires Fits(layers, widths)
    requires epochs > 0 ==> Trainable(dataset, widths, batchSize)
    ensures Fits(r, widths)
    decreases epochs
  {
    if epochs == 0 then layers
    else Epoch(Train(layers, widths, name, lr, exp, dataset, batchSize, epochs - 1), widths, name, lr, exp, dataset, batchSize)
  }

  /** The layers after one epoch: every batch of the dataset, in order. */
  function Epoch(layers: seq<Layer>, widths: seq<nat>, name: ActivationFunction, lr: real, exp: Exp,
                 dataset: Dataset, batchSize: nat): (r: seq<Layer>)
    requires Fits(layers, widths) && Trainable(dataset, widths, batchSize)
    ensures Fits(r, widths)
  {
    BatchesRunnable(dataset, widths, batchSize);
    var batches := Batches(dataset, batchSize);
    RunBatches(layers, widths, name, lr, exp, batches, |batches|)
  }

  /** The pairs `(e, loss(e))` for the first `n` epochs, in order. */
  function Numbered(n: nat, loss: nat -> real): (pairs: seq<(nat, real)>)
    ensures |pairs| == n
    ensures forall e :: 0 <= e < n ==> pairs[e] == (e, loss(e))
  {
    seq(n, e requires 0 <= e < n => (e as nat, loss(e)))
  }

  /** The test loss `fit` records after epoch `e` (counted from 0): the loss of the
      layers as they stand after `e + 1` epochs. */
  function LossAfterEpoch(layers: seq<Layer>, widths: seq<nat>, name: ActivationFunction, lr: real, exp: Exp,
                          dataset: Dataset, batchSize: nat, testLoss: (seq<Layer>, string) -> real, path: string,
                          e: nat): real
    requires Fits(layers, widths) && Trainable(dataset, widths, batchSize)
  {
    testLoss(Train(layers, widths, name, lr, exp, dataset, batchSize, e + 1), path)
  }

  /** The `(epoch, loss)` pairs of `fit` with a test set: one per epoch, in order, each
      pair holding the test loss of the layers after that epoch. */
  function LossCurve(layers: seq<Layer>, widths: seq<nat>, name: ActivationFunction, lr: real, exp: Exp,
                     dataset: Dataset, batchSize: nat, epochs: nat,
                     testLoss: (seq<Layer>, string) -> real, path: string): (curve: seq<(nat, real)>)
    requires Fits(layers, widths) && Trainable(dataset, widths, batchSize)
    ensures |curve| == epochs
    ensures forall e :: 0 <= e < epochs ==>
      curve[e] == (e, LossAfterEpoch(layers, widths, name, lr, exp, dataset, batchSize, testLoss, path, e))
  {
    Numbered(epochs, (e: nat) => LossAfterEpoch(layers, widths, name, lr, exp, dataset, batchSize, testLoss, path, e))
  }

  /** One more epoch adds one pair to the loss curve: the new epoch's number with the
      test loss after it. */
  lemma LossCurveStep(layers: seq<Layer>, widths: seq<nat>, name: ActivationFunction, lr: real, exp: Exp,
                      dataset: Dataset, batchSize: nat, epochs: nat,
                      testLoss: (seq<Layer>, string) -> real, path: string)
    requires Fits(layers, widths) && Trainable(dataset, widths, batchSize)
    ensures LossCurve(layers, widths, name, lr, exp, dataset, batchSize, epochs + 1, testLoss, path)
         == LossCurve(layers, widths, name, lr, exp, dataset, batchSize, epochs, testLoss, path)
            + [(epochs, LossAfterEpoch(layers, widths, name, lr, exp, dataset, batchSize, testLoss, path, epochs))]
  {
    var loss := (e: nat) => LossAfterEpoch(layers, widths, name, lr, exp, dataset, batchSize, testLoss, path, e);
    NumberedStep(epochs, loss);
  }

  /** Numbering one more epoch appends that epoch's pair. */
  lemma NumberedStep(n: nat, loss: nat -> real)
    ensures Numbered(n + 1, loss) == Numbered(n, loss) + [(n, loss(n))]
  {
    assert Numbered(n + 1, loss)[..n] == Numbered(n, loss);
  }
}
