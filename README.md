# rust-neural-nets in Dafny

A model of the core of `rust-neural-nets`, a small fully connected neural network
trained on the MNIST digits. The model covers three parts of the program:

- **The network engine** (`src/model/neural_net.rs`). A `NeuralNet` object holds
  its layers, each a weight matrix and a bias vector, and its training
  hyperparameters. The model covers:
  - the two layer initialisers;
  - `forward`, which records the activated and the linear output of every layer;
  - `backward_and_update`, which runs gradient descent from the last layer to the
    first, in place;
  - the fixed-epoch `fit` loop over contiguous batches, with one test loss per
    epoch;
  - `predict` and softmax;
  - the activation functions and their derivatives.
- **The CSV parser** (`src/parsing/mnist.rs`). It splits a record on a separator,
  validates and normalises a dataset line, builds the one-hot targets, and runs the
  line loop of `parse_dataset` over the file contents.
- **Evaluation and export** (`src/main.rs`). This covers the argmax and
  mistake-counting loop of `test_model`, the `W{i}`/`b{i}` keys of
  `write_weights`, and the line layout of `write_losses`.

How values are represented:
- **Numbers and matrices.** Floats are modelled as `real` and matrices as
  `seq<seq<real>>`. Shapes that ndarray checks at run time are preconditions of
  the methods.
- **Matrix operations.** The operations of module `Matrices` are total: a missing
  entry reads as 0. The engine's members require the shapes that ndarray checks,
  the targets' shape included (`Trainable`, `BatchStep`, `FitBatch`), so they never
  reach those cases. The panics of the source become preconditions too; "## Left
  out" lists them.
- **Things passed in as parameters:**
  - `exp`: the exponential, any positive real function.
  - `rng`: the random source, the sequence of uniform draws from [0, 1).
  - `parse`: float parsing.
  - `display`: float rendering.
  - `testLoss`: the test loss, which reads a file.

Modules:

| module | file | models |
|---|---|---|
| `Wrappers` | wrappers.dfy | `Option` |
| `Matrices` | matrices.dfy | the ndarray operations the engine uses |
| `Text` | text.dfy | `split`, `lines`, decimal formatting of integers |
| `Activations` | activations.dfy | `activation`, `delta_activation`, `softmax` |
| `Parsing` | parsing.dfy | the `Dataset` record |
| `Mnist` | mnist.dfy | `src/parsing/mnist.rs` |
| `NetworkSpec` | network_spec.dfy | the engine as functions: forward trace, gradients, update, batching, training, loss curve |
| `NeuralNetwork` | neural_net.dfy | the initialisers and the `NeuralNet` object, whose methods run the source's loops and are proved against `NetworkSpec` |
| `Report` | report.dfy | `test_model`, `write_weights`, `write_losses` |

## Model

| member | source | states |
|---|---|---|
| Mnist.ParseLine | src/parsing/mnist.rs:14-27 | The result is Some exactly when every separator-delimited field parses. On success it holds one value per field, in field order. The ghost log of the fields handed to the parser, appended at each call, is always a prefix of the fields. On failure its last entry is the first unparsable field, so no field after it is handed over. |
| Mnist.ParseFields | src/parsing/mnist.rs:17-26 | The same contract for the loop over the fields once split: the log equals the fields examined so far at every step. |
| Mnist.ParseDatasetLine | src/parsing/mnist.rs:32-44 | The result is Some exactly when all fields parse and there are exactly 785 of them. The label is field 0 and the pixels are fields 1..784, each divided by 255, in order. |
| Mnist.AsUsize | src/parsing/mnist.rs:58 | `as usize` truncates toward zero, saturates at 0 for non-positive values and saturates at the largest 64-bit `usize`. |
| Mnist.OneHot | src/parsing/mnist.rs:60-62 | The target has 10 entries. It has 1 at the label and 0 everywhere else, and is all zeros when the label is 10 or more. |
| Mnist.OneHotSum | src/parsing/mnist.rs:60-62 | A one-hot row sums to 1 for a label below 10 and to 0 otherwise. |
| Mnist.ParseRecords | src/parsing/mnist.rs:55-66 | The loop over the records gives Some exactly when every record is well formed. Row i of `data` is then record i's normalised pixels and row i of `target` its one-hot label, so the two have equal row counts. |
| Mnist.TakeWhileNonEmpty | src/parsing/mnist.rs:55 | `take_while(!is_empty)` keeps the longest prefix of non-empty lines: every kept line is non-empty, and the line right after the prefix, when there is one, is empty. |
| Mnist.Body | src/parsing/mnist.rs:55 | After skipping the header line, the records are the non-empty lines that follow it up to the first empty line, in order. A text without lines has no records. |
| Mnist.ParseDataset | src/parsing/mnist.rs:47-69 | The header line is skipped and reading stops at the first empty line, and the lines in between are the records parsed as above. A malformed record gives None, never a partial dataset. |
| Text.Split | src/parsing/mnist.rs:17 | `str::split` yields at least one piece, and no piece contains the separator. |
| Text.JoinSplit | src/parsing/mnist.rs:17 | Rejoining the pieces of a split with the separator gives back the original text. |
| Text.SplitJoin | src/parsing/mnist.rs:17 | Splitting the join of separator-free pieces gives back the pieces. |
| Text.Lines | src/parsing/mnist.rs:55 | `str::lines` yields lines that contain no line feed. |
| Text.LinesOfLine | src/parsing/mnist.rs:55 | A non-empty text without a line feed is one line. |
| Text.LinesAfterLine | src/parsing/mnist.rs:55 | A text that starts with a line ended by a line feed yields that line, without one trailing carriage return, and then the lines of the rest. So a line ended by "\r\n" loses its '\r'. |
| Text.LinesEmpty | src/parsing/mnist.rs:55 | There are no lines exactly when the text is empty. |
| Text.LinesJoin | src/parsing/mnist.rs:55 | For a text without carriage returns, joining its lines with line feeds, plus a final line feed when the text ends with one, gives back the text. |
| Text.ParseNatToString | src/main.rs:116-117 | Reading back the decimal rendering of a number gives the number. |
| Activations.Softmax | src/model/neural_net.rs:231-242 | For any positive exponential, softmax of a non-empty row has the row's length, positive entries, and entries that sum to 1. |
| Activations.MaxOf | src/model/neural_net.rs:233 | The maximum of a non-empty row is at least every entry and is one of the entries. |
| Activations.Normalize | src/model/neural_net.rs:236-240 | Dividing positive entries by their sum keeps the length and positivity and gives entries that sum to 1. |
| Activations.ShiftedExpsShift | src/model/neural_net.rs:235-236 | Shifting the scores and the maximum by the same constant leaves the exponentials of the differences unchanged. |
| Activations.SoftmaxShiftInvariant | src/model/neural_net.rs:233-236 | Adding the same constant to every score leaves softmax unchanged, because the shift by the row maximum cancels it. |
| Activations.ActivationClosedForm | src/model/neural_net.rs:173-181 | ReLU is z above 0 and 0 otherwise. LeakyReLU is z above 0 and 0.01·z otherwise. Linear is 3z + 1. |
| Activations.Activation | src/model/neural_net.rs:173-181 | ReLU is non-negative and at least z. LeakyReLU is at least z and at least 0.01·z. The sigmoid lies strictly between 0 and 1, and tanh strictly between -1 and 1, for any positive exponential. |
| Activations.DeltaActivation | src/model/neural_net.rs:183-191 | The derivative is positive for every activation, and ReLU's alone may also be 0. ReLU's and LeakyReLU's are at most 1. |
| Activations.DeltaIsSlope | src/model/neural_net.rs:183-191 | For the piecewise-linear activations, `delta_activation` is the slope of `activation` on each side of 0. |
| Activations.RectifierHomogeneous | src/model/neural_net.rs:175-179 | ReLU and LeakyReLU satisfy f(z) = f'(z)·z. |
| Activations.SigmoidBounds | src/model/neural_net.rs:176-186 | The sigmoid lies strictly between 0 and 1, and its derivative lies in (0, 1/4]. |
| Activations.TanhBounds | src/model/neural_net.rs:177-187 | tanh lies strictly between -1 and 1, and its derivative lies in (0, 1]. |
| NeuralNetwork.InitLayersDefault | src/model/neural_net.rs:193-210 | A non-empty width list gives one layer per adjacent pair of widths. Layer i has weights of `ls[i]`×`ls[i+1]` with every entry in [-0.3, 0.3), and `ls[i+1]` biases that are all 1. |
| NeuralNetwork.InitLayersXavier | src/model/neural_net.rs:212-229 | Layers have the same shapes as the default initialiser. Weights lie in [-b, b) with b = √6 / (`ls[i]` + `ls[i+1]`), and biases are all 0. |
| NetworkSpec.SampleMatrix | src/model/neural_net.rs:201-202 | A sampled matrix has the requested shape and every entry lies in the half-open sampling range. |
| NeuralNetwork.NeuralNet.constructor | src/model/neural_net.rs:33-53 | The network stores its hyperparameters and the layers from the chosen initialiser, shaped by the width list. |
| NetworkSpec.Trace | src/model/neural_net.rs:57-82 | After n layers, `hidden` has n+1 entries starting with the input and `hidden_linear` has n. Entry k of `hidden_linear` is `hidden[k]`·W_k + b_k. Entry k+1 of `hidden` is its activation, or the linear output itself for the last layer. |
| NetworkSpec.TraceShape | src/model/neural_net.rs:57-82 | For an input batch with the input width, every `hidden[k]` has `widths[k]` columns and every `hidden_linear[k]` has `widths[k+1]`, all with the batch's row count. |
| NeuralNetwork.NeuralNet.Forward | src/model/neural_net.rs:57-82 | The `while let` loop returns exactly the full forward trace, with the shapes above, and changes nothing. |
| NetworkSpec.Backprop | src/model/neural_net.rs:85-115 | The update keeps the layer count and the shape of every weight matrix and bias vector. |
| NetworkSpec.StepEntries | src/model/neural_net.rs:102-108 | Weight (i, j) loses lr × the batch sum of input column i times gradient column j. Bias j loses lr × the batch mean of gradient column j. |
| NetworkSpec.Step | src/model/neural_net.rs:102-108 | The gradient-descent step keeps the shape of the weight matrix and the length of the bias vector. |
| NetworkSpec.LayerGrad | src/model/neural_net.rs:94-111 | The gradient for layer idx has one row per batch row. For every layer but the last, it has one column per output of that layer. |
| NetworkSpec.PropagateEntry | src/model/neural_net.rs:111 | Entry (r, c) of the gradient propagated through a layer is row r of the gradient dotted with row c of the layer's weights: `g · Wᵀ`. |
| NetworkSpec.UpdateOrderMatters | src/model/neural_net.rs:111-113 | Propagating through the pre-update weights, as the source does, differs from propagating through the updated ones. This is shown on a 1×1 network. |
| NetworkSpec.BackpropFits | src/model/neural_net.rs:85-115 | After the update, the layers still realise the same widths. |
| NeuralNetwork.NeuralNet.BackwardAndUpdate | src/model/neural_net.rs:85-115 | The reverse loop leaves layer idx stepped along its gradient. For every layer but the last, that gradient is the pre-update propagation from the layer above times `delta_activation` of the stored linear output. Every other field is unchanged. |
| NetworkSpec.SoftmaxRows | src/model/neural_net.rs:135-140 | The softmax matrix has the shape of the scores, and each row is a probability distribution. |
| NeuralNetwork.BuildPredictions | src/model/neural_net.rs:163-167 | Pushing the softmax of every score row gives the row-wise softmax matrix. |
| NetworkSpec.Predicted | src/model/neural_net.rs:159-170 | The predictions have one row per input and one column per output unit, and every row sums to 1. |
| NeuralNetwork.NeuralNet.Predict | src/model/neural_net.rs:159-170 | `predict` returns the row-wise softmax of the last forward output and changes nothing. |
| NetworkSpec.Chunks | src/model/neural_net.rs:129-130 | `axis_chunks_iter` gives non-empty chunks of at most the batch size. Every chunk but the last is exactly the batch size. |
| NetworkSpec.ChunksCover | src/model/neural_net.rs:127-130 | The chunks, concatenated in order, give back the dataset. |
| NetworkSpec.ChunkIsSlice | src/model/neural_net.rs:127-130 | Chunk k is the contiguous slice starting at row k × batch size. |
| NetworkSpec.ChunkCount | src/model/neural_net.rs:127-130 | The number of chunks is the dataset size divided by the batch size, rounded up. |
| NetworkSpec.Zip | src/model/neural_net.rs:127-130 | `zip` pairs the chunks position by position and stops at the shorter side. |
| NetworkSpec.ChunksAlign | src/model/neural_net.rs:127-130 | Two matrices with the same row count are cut into the same number of chunks, with equal row counts chunk by chunk, so `zip` loses no batch. |
| NetworkSpec.RunBatchesStep | src/model/neural_net.rs:130-145 | Running k + 1 batches is running k batches and then the batch step on batch k. |
| NetworkSpec.BatchStep | src/model/neural_net.rs:132-145 | One batch's forward pass, softmax, gradient `predictions - targets` and update keep the layer shapes. |
| NeuralNetwork.NeuralNet.FitBatch | src/model/neural_net.rs:132-145 | The loop body of `fit` replaces the layers by one batch step and keeps the hyperparameters. |
| NeuralNetwork.NeuralNet.FitBatchAt | src/model/neural_net.rs:130-145 | One turn of the batch loop takes the layers after k batches to the layers after k + 1. |
| NeuralNetwork.NeuralNet.FitEpoch | src/model/neural_net.rs:127-146 | One epoch runs the batch steps over every batch, in order. |
| NetworkSpec.Train | src/model/neural_net.rs:125-153 | Training for any number of epochs keeps the layer shapes. |
| NetworkSpec.LossCurve | src/model/neural_net.rs:148-152 | With a test path there is one `(epoch, loss)` pair per epoch, epochs ascending from 0. Each loss is `LossAfterEpoch`: the test loss of the layers as they stand after that epoch. |
| NetworkSpec.LossCurveStep | src/model/neural_net.rs:148-152 | One more epoch appends exactly one pair to the loss curve. |
| NeuralNetwork.NeuralNet.Fit | src/model/neural_net.rs:121-156 | `fit` leaves the layers as trained for `num_epochs` epochs and keeps the hyperparameters. It returns the loss curve when a test path is given, and an empty list otherwise. |
| Report.ArgMax | src/main.rs:75-86 | The argmax of a non-empty row is in range and its entry is at least every entry. Every later entry is strictly smaller, so ties go to the last maximal index, as with `max_by`. |
| Report.OneHotArgMax | src/main.rs:81-86 | The actual digit read back from a one-hot target is its label. An all-zero target gives 9. |
| Report.Paired | src/main.rs:71-73 | `zip` yields as many row pairs as the shorter matrix has rows. |
| Report.MistakesStep | src/main.rs:88-90 | Each pair adds one to the mistake count exactly when its two argmaxes differ. |
| Report.CountMistakes | src/main.rs:71-91 | The loop counts exactly the paired rows whose predicted and actual digits differ. |
| Report.TestModel | src/main.rs:65-94 | `test_model` counts the mistakes of the network's predictions against the targets. |
| Report.MistakesBound | src/main.rs:71-73 | The number of mistakes is at most the number of prediction rows and at most the number of target rows. |
| Report.NoMistakes | src/main.rs:88-90 | The count is 0 exactly when every paired row's predicted digit matches its actual digit. |
| Report.KeyInjective | src/main.rs:116-117 | Two keys `W{i}`/`b{j}` are equal exactly when the letter and the index are. |
| Report.Key | src/main.rs:116-117 | `format!("W{}", i)` is the letter followed by the decimal digits of i, so it has at least two characters. |
| Report.Insert | src/main.rs:119-120 | Assigning a key in the JSON object makes the key hold the value and leaves other keys alone. A new key is appended. |
| Report.WriteWeights | src/main.rs:109-126 | For every layer i in order, the object gets `W{i}` with the weights in row-major order and then `b{i}` with the biases: 2 entries per layer. |
| Report.WeightsLookup | src/main.rs:113-121 | Looking up `W{i}` or `b{i}` in the exported object gives layer i's flattened weights or its biases. |
| Matrices.FlattenEntry | src/main.rs:114 | Row-major flattening puts entry (i, j) at position i × cols + j. |
| Report.WriteLosses | src/main.rs:97-105 | The loss file is the lines `"{epoch}    {loss}\n"`, one per pair, in order. |
| Report.LossFileLines | src/main.rs:100-102 | Splitting the loss file at line feeds gives exactly one text per pair, in order, followed by the empty text after the final line feed. |
| Report.LossText | src/main.rs:101 | The text of a pair starts with the decimal epoch and ends with the loss's rendering. It holds a line feed exactly when that rendering does. |
| Report.LossLine | src/main.rs:101 | A line is the pair's text followed by a line feed, which is its only line feed when the loss's rendering holds none. |
| Report.LossTextEpoch | src/main.rs:101 | The text of a line up to its first space is the decimal epoch, which reads back as the epoch. |

## Left out

- File and console I/O (`File::open`, `read_to_string`, `File::create`, `write_all`,
  `println!`) is outside the model. Parsing works on the file contents. The
  exporters return what they would write.
- The command line (clap `Args`, `main`) is outside the model. So is the early
  stopping with `epsilon` that `main` asks for: `src/main.rs` calls `NeuralNet::new`
  and `fit` with signatures that do not match `src/model/neural_net.rs`, and the
  model follows `src/model/neural_net.rs`.
- `json::object!` and `dump()` are outside the model. The JSON object is a list of
  key/value pairs in insertion order, and the serialised text is not modelled.
- Floating point is modelled as exact `real` arithmetic. Rounding, overflow, NaN
  and the ordering of `total_cmp` are not modelled. In particular, `total_cmp`
  puts -0.0 below +0.0 when `max_by` compares them, which the argmax does not
  model.
- `exp` is an arbitrary positive function. `f64::exp`, and `log2` inside
  `cross_entropy`, are outside the model, so `cross_entropy` and `test_loss` are
  the parameter `testLoss`.
- Sampling (`rand::thread_rng`, `Uniform::sample`) is a parameter: a sequence of
  draws in [0, 1), scaled into the range. The model fixes the order in which the
  draws are taken (row-major, layer after layer), which the source does not
  promise.
- `Report.TestModel`: takes the parsed validation set rather than its path.
  Reading the file is I/O.
- `NeuralNetwork.NeuralNet.Fit`: requires the targets to have exactly the shape
  of the predictions, through `Trainable`, as `NetworkSpec.BatchStep` and
  `NeuralNetwork.NeuralNet.FitBatch` do. ndarray's subtraction would also accept
  targets that broadcast to that shape.
- The source's panics are preconditions here, so the model does not describe
  what happens on those inputs:
  - an empty width list, where `len() - 1` underflows (src/model/neural_net.rs:199, 216);
  - widths whose fan sum is 0, where the Xavier bound is infinite and
    `Uniform::new` rejects it (src/model/neural_net.rs:217-218);
  - a batch size of 0, which `axis_chunks_iter` rejects (src/model/neural_net.rs:129);
  - an empty score row in softmax (src/model/neural_net.rs:233) or an empty
    prediction or target row in the argmax (src/main.rs:79, 85);
  - the bias gradient's mean over zero rows (src/model/neural_net.rs:104), which
    cannot happen because batches are never empty.
- `Mnist.AsUsize`: models a 64-bit `usize`. NaN, which the cast turns into 0, is
  outside the model.
- `src/model/mod.rs` and `src/parsing/mod.rs` are not part of this model, apart
  from the `Dataset` record, which is a datatype here.
