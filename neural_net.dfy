/** The neural network of `src/model/neural_net.rs`: a `NeuralNet` object holding its
    layers and training hyperparameters, whose `fit` updates the layers in place.

    The random source is a parameter `rng`, the sequence of draws from [0, 1); the
    exponential is a parameter `exp` (see module Activations); `test_loss`, which
    reads a test file, is a parameter `testLoss`. */
module NeuralNetwork {
  import opened Wrappers
  import opened Matrices
  import opened Activations
  import opened Parsing
  import opened NetworkSpec

  /** `init_layers_default`: one layer per pair of adjacent widths, weights sampled
      uniformly from [-0.3, 0.3) in row-major order, biases all 1. The width list must
      be non-empty (`len() - 1` underflows otherwise). */
  method InitLayersDefault(layerStructure: seq<nat>, rng: nat -> Unit) returns (layers: seq<Layer>)
    requires |layerStructure| >= 1
    ensures Fits(layers, layerStructure)
    ensures DefaultInitialised(layers)
  {
    layers := [];
    var drawn := 0;
    for i := 0 to |layerStructure| - 1
      invariant |layers| == i
      invariant forall j :: 0 <= j < i ==> LayerShape(layers[j], layerStructure[j], layerStructure[j + 1])
      invariant DefaultInitialised(layers)
    {
      var weights := SampleMatrix(layerStructure[i], layerStructure[i + 1], -0.3, 0.3, rng, drawn);
      drawn := drawn + layerStructure[i] * layerStructure[i + 1];
      var bias := seq(layerStructure[i + 1], _ => 1.0);
      layers := layers + [Layer(weights, bias)];
    }
  }

  /** `init_layers_xavier`: like the default initialisation, with the weights of each
      layer sampled from [-b, b) for b = sqrt(6) / (fan-in + fan-out), and biases all 0.
      `Uniform::new` panics on an infinite boundary, so every fan sum must be positive. */
  method InitLayersXavier(layerStructure: seq<nat>, rng: nat -> Unit) returns (layers: seq<Layer>)
    requires |layerStructure| >= 1
    requires FanSumsPositive(layerStructure)
    ensures Fits(layers, layerStructure)
    ensures XavierInitialised(layers, layerStructure)
  {
    layers := [];
    var drawn := 0;
    for i := 0 to |layerStructure| - 1
      invariant |layers| == i
      invariant forall j :: 0 <= j < i ==> LayerShape(layers[j], layerStructure[j], layerStructure[j + 1])
      invariant forall j :: 0 <= j < i ==>
        && WeightsWithin(layers[j], -XavierBound(layerStructure[j], layerStructure[j + 1]),
                                    XavierBound(layerStructure[j], layerStructure[j + 1]))
        && BiasAll(layers[j], 0.0)
    {
      var boundary := XavierBound(layerStructure[i], layerStructure[i + 1]);
      var weights := SampleMatrix(layerStructure[i], layerStructure[i + 1], -boundary, boundary, rng, drawn);
      drawn := drawn + layerStructure[i] * layerStructure[i + 1];
      var bias := seq(layerStructure[i + 1], _ => 0.0);
      layers := layers + [Layer(weights, bias)];
    }
  }

  /** The softmax matrix of `fit` and `predict`: an empty matrix with one softmax row
      pushed per row of scores. Softmax unwraps the row maximum, so no row may be empty. */
  method BuildPredictions(scores: Matrix, exp: Exp) returns (predictions: Matrix)
    requires forall i :: 0 <= i < |scores| ==> |scores[i]| > 0
    ensures predictions == SoftmaxRows(scores, exp)
  {
    predictions := [];
    for i := 0 to |scores|
      invariant |predictions| == i
      invariant forall k :: 0 <= k < i ==> predictions[k] == Softmax(scores[k], exp)
    {
      predictions := predictions + [Softmax(scores[i], exp)];
    }
  }

  class NeuralNet {
    var layers: seq<Layer>
    var numEpochs: nat
    var batchSize: nat
    var learningRate: real
    var activationFunction: ActivationFunction
    /** The layer widths the net was built with: input, hidden layers, output. */
    ghost var widths: seq<nat>

    /** The layers realise the widths. */
    ghost predicate Valid()
      reads this
    {
      Fits(layers, widths)
    }

    /** `NeuralNet::new`: the layers initialised by the chosen method, the
        hyperparameters stored as given. */
    constructor (layerStructure: seq<nat>, numEpochs: nat, batchSize: nat, learningRate: real,
                 activationFunction: ActivationFunction, initMethod: InitMethod, rng: nat -> Unit)
      requires |layerStructure| >= 1
      requires initMethod == Xavier ==> FanSumsPositive(layerStructure)
      ensures Valid() && widths == layerStructure
      ensures this.numEpochs == numEpochs && this.batchSize == batchSize
      ensures this.learningRate == learningRate && this.activationFunction == activationFunction
      ensures initMethod == Default ==> DefaultInitialised(layers)
      ensures initMethod == Xavier ==> XavierInitialised(layers, layerStructure)
    {
      var initial: seq<Layer>;
      match initMethod {
        case Default =>
          initial := InitLayersDefault(layerStructure, rng);
        case Xavier =>
          initial := InitLayersXavier(layerStructure, rng);
      }
      layers := initial;
      this.numEpochs := numEpochs;
      this.batchSize := batchSize;
      this.learningRate := learningRate;
      this.activationFunction := activationFunction;
      widths := layerStructure;
    }

    /** `forward`: starting from the input, each layer's linear output is pushed to
        `hiddenLinear` and its output (activated for all but the last layer) to
        `hidden`. The input must have the first width, or the product panics. */
    method Forward(inputs: Matrix, exp: Exp) returns (hidden: seq<Matrix>, hiddenLinear: seq<Matrix>)
      requires Valid() && IsMatrix(inputs, |inputs|, widths[0])
      ensures (hidden, hiddenLinear) == Forwarded(layers, activationFunction, exp, inputs)
      ensures forall k :: 0 <= k <= |layers| ==> IsMatrix(hidden[k], |inputs|, widths[k])
      ensures forall k :: 0 <= k < |layers| ==> IsMatrix(hiddenLinear[k], |inputs|, widths[k + 1])
    {
      hidden := [inputs];
      hiddenLinear := [];
      var k := 0;
      while k < |layers|
        invariant 0 <= k <= |layers|
        invariant hidden == Trace(layers, activationFunction, exp, inputs, k).0
        invariant hiddenLinear == Trace(layers, activationFunction, exp, inputs, k).1
      {
        var layer := layers[k];
        var linOutput := AddRow(MatMul(hidden[|hidden| - 1], layer.weights, |layer.bias|), layer.bias);
        var realOutput := if k + 1 < |layers| then Activate(activationFunction, linOutput, exp) else linOutput;
        assert linOutput == LinearOutput(hidden[k], layer);
        assert realOutput == LayerOutput(layers, k, activationFunction, exp, linOutput);
        hidden := hidden + [realOutput];
        hiddenLinear := hiddenLinear + [linOutput];
        k := k + 1;
      }
      TraceShape(layers, widths, activationFunction, exp, inputs);
    }

    /** `backward_and_update`: walking the layers from the last to the first, each
        layer's gradient is formed, its weights and biases take one gradient-descent
        step, and the gradient is propagated through the weights the layer had before
        the step. The stored trace and the gradient must have the shapes of a forward
        pass over a batch of `|grad|` rows (the products panic otherwise), and that
        batch must be non-empty (the mean over zero rows is unwrapped). */
    method BackwardAndUpdate(hidden: seq<Matrix>, hiddenLinear: seq<Matrix>, grad: Matrix, exp: Exp)
      requires Valid()
      requires |hidden| >= |layers| && |hiddenLinear| + 1 >= |layers|
      requires forall k :: 0 <= k < |layers| ==> IsMatrix(hidden[k], |grad|, widths[k])
      requires forall k :: 0 <= k < |layers| - 1 ==> IsMatrix(hiddenLinear[k], |grad|, widths[k + 1])
      requires IsMatrix(grad, |grad|, widths[|layers|])
      requires |layers| > 0 ==> |grad| > 0
      modifies this
      ensures Valid() && widths == old(widths)
      ensures numEpochs == old(numEpochs) && batchSize == old(batchSize)
      ensures learningRate == old(learningRate) && activationFunction == old(activationFunction)
      ensures layers == Backprop(old(layers), hidden, hiddenLinear, grad, learningRate, activationFunction, exp)
    {
      ghost var before := layers;
      var gradHelp := grad;
      var idx := |layers|;
      while idx > 0
        invariant 0 <= idx <= |before| == |layers|
        invariant widths == old(widths) && numEpochs == old(numEpochs) && batchSize == old(batchSize)
        invariant learningRate == old(learningRate) && activationFunction == old(activationFunction)
        invariant Valid()
        invariant |gradHelp| == |grad|
        invariant forall j :: 0 <= j < idx ==> layers[j] == before[j]
        invariant forall j :: idx <= j < |before| ==>
          layers[j] == Step(before[j], hidden[j], LayerGrad(before, hiddenLinear, grad, activationFunction, exp, j), learningRate)
        invariant idx == |before| ==> gradHelp == grad
        invariant idx < |before| ==>
          gradHelp == Propagate(LayerGrad(before, hiddenLinear, grad, activationFunction, exp, idx), before[idx])
      {
        idx := idx - 1;
        if idx != |layers| - 1 {
          var stepMat := Derivative(activationFunction, hiddenLinear[idx], exp);
          gradHelp := Hadamard(gradHelp, stepMat);
        }
        assert gradHelp == LayerGrad(before, hiddenLinear, grad, activationFunction, exp, idx);
        var weightGrad := MatMul(Transpose(hidden[idx], |layers[idx].weights|), gradHelp, |layers[idx].bias|);
        var biasGrad := MeanRows(gradHelp, |layers[idx].bias|);
        var newWeights := StepMatrix(layers[idx].weights, weightGrad, learningRate);
        var newBiases := StepVector(layers[idx].bias, biasGrad, learningRate);
        gradHelp := MatMul(gradHelp, Transpose(layers[idx].weights, |layers[idx].bias|), |layers[idx].weights|);
        layers := layers[idx := Layer(newWeights, newBiases)];
      }
    }

    /** `predict`: the softmax of every row of the network's output. */
    method Predict(inputs: Matrix, exp: Exp) returns (predictions: Matrix)
      requires Valid() && IsMatrix(inputs, |inputs|, widths[0]) && OutputReady(widths, |inputs|)
      ensures predictions == Predicted(layers, widths, activationFunction, exp, inputs)
    {
      var hidden, _ := Forward(inputs, exp);
      var scores := hidden[|hidden| - 1];
      predictions := BuildPredictions(scores, exp);
    }

    /** The body of `fit`'s batch loop: a forward pass, the softmax predictions, the
        gradient `predictions - targets`, and a backward pass with update. */
    method FitBatch(inputBatch: Matrix, targetBatch: Matrix, exp: Exp)
      requires Valid() && |inputBatch| > 0 && IsMatrix(inputBatch, |inputBatch|, widths[0])
      requires widths[|layers|] > 0 && IsMatrix(targetBatch, |inputBatch|, widths[|layers|])
      modifies this
      ensures Valid() && widths == old(widths)
      ensures numEpochs == old(numEpochs) && batchSize == old(batchSize)
      ensures learningRate == old(learningRate) && activationFunction == old(activationFunction)
      ensures layers == BatchStep(old(layers), widths, activationFunction, learningRate, exp, inputBatch, targetBatch)
    {
      var hidden, hiddenLinear := Forward(inputBatch, exp);
      var predictions := BuildPredictions(hidden[|hidden| - 1], exp);
      var grad := Minus(predictions, targetBatch);
      BackwardAndUpdate(hidden, hiddenLinear, grad, exp);
    }

    /** One epoch of `fit`: every pair of input and target batches, in order, through
        `FitBatch`. */
    method FitEpoch(dataset: Dataset, exp: Exp)
      requires Valid() && Trainable(dataset, widths, batchSize)
      modifies this
      ensures Valid() && widths == old(widths)
      ensures numEpochs == old(numEpochs) && batchSize == old(batchSize)
      ensures learningRate == old(learningRate) && activationFunction == old(activationFunction)
      ensures layers == Epoch(old(layers), widths, activationFunction, learningRate, exp, dataset, batchSize)
    {
      var batches := Batches(dataset, batchSize);
      BatchesRunnable(dataset, widths, batchSize);
      ghost var start := layers;
      ghost var outWidth := widths[|layers|];
      for k := 0 to |batches|
        invariant Valid() && widths == old(widths)
        invariant Fits(start, widths) && widths[|layers|] == outWidth
        invariant RunnableBatches(batches, widths[0], outWidth) && OutputReady(widths, |batches|)
        invariant numEpochs == old(numEpochs) && batchSize == old(batchSize)
        invariant learningRate == old(learningRate) && activationFunction == old(activationFunction)
        invariant layers == RunBatches(start, widths, activationFunction, learningRate, exp, batches, k)
      {
        FitBatchAt(batches, k, start, exp);
      }
    }

    /** Batch `k` of an epoch through `FitBatch`: the layers after `k` batches become
        the layers after `k + 1`. */
    method FitBatchAt(batches: seq<(Matrix, Matrix)>, k: nat, ghost start: seq<Layer>, exp: Exp)
      requires Valid() && Fits(start, widths)
      requires RunnableBatches(batches, widths[0], widths[|layers|]) && OutputReady(widths, |batches|)
      requires k < |batches|
      requires layers == RunBatches(start, widths, activationFunction, learningRate, exp, batches, k)
      modifies this
      ensures Valid() && widths == old(widths)
      ensures numEpochs == old(numEpochs) && batchSize == old(batchSize)
      ensures learningRate == old(learningRate) && activationFunction == old(activationFunction)
      ensures layers == RunBatches(start, widths, activationFunction, learningRate, exp, batches, k + 1)
    {
      RunBatchesStep(start, widths, activationFunction, learningRate, exp, batches, k);
      FitBatch(batches[k].0, batches[k].1, exp);
    }

    /** `fit`: for every epoch, for every pair of input and target batches, a forward
        pass, the gradient `softmax - target` and a backward pass with update; after
        each epoch, the test loss when a test file is given. The batches exist only
        when the batch size is positive (`axis_chunks_iter` panics on 0), and the targets
        must have the shape of the predictions (`Trainable`; the subtraction panics on
        targets that cannot be broadcast to it). */
    method Fit(dataset: Dataset, testPath: Option<string>, exp: Exp, testLoss: (seq<Layer>, string) -> real)
      returns (losses: seq<(nat, real)>)
      requires Valid()
      requires numEpochs > 0 ==> Trainable(dataset, widths, batchSize)
      modifies this
      ensures Valid() && widths == old(widths)
      ensures numEpochs == old(numEpochs) && batchSize == old(batchSize)
      ensures learningRate == old(learningRate) && activationFunction == old(activationFunction)
      ensures layers == Train(old(layers), widths, activationFunction, learningRate, exp, dataset, batchSize, numEpochs)
      ensures testPath.None? || numEpochs == 0 ==> losses == []
      ensures testPath.Some? && numEpochs > 0 ==>
        losses == LossCurve(old(layers), widths, activationFunction, learningRate, exp, dataset, batchSize,
                            numEpochs, testLoss, testPath.value)
    {
      losses := [];
      ghost var initial := layers;
      for epoch := 0 to numEpochs
        invariant Valid() && widths == old(widths)
        invariant numEpochs == old(numEpochs) && batchSize == old(batchSize)
        invariant learningRate == old(learningRate) && activationFunction == old(activationFunction)
        invariant layers == Train(initial, widths, activationFunction, learningRate, exp, dataset, batchSize, epoch)
        invariant testPath.None? || epoch == 0 ==> losses == []
        invariant testPath.Some? && numEpochs > 0 ==>
          losses == LossCurve(initial, widths, activationFunction, learningRate, exp, dataset, batchSize,
                              epoch, testLoss, testPath.value)
      {
        FitEpoch(dataset, exp);
        if testPath.Some? {
          LossCurveStep(initial, widths, activationFunction, learningRate, exp, dataset, batchSize,
                        epoch, testLoss, testPath.value);
          var loss := testLoss(layers, testPath.value);
          losses := losses + [(epoch, loss)];
        }
      }
    }
  }
}
