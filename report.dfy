/** The evaluation and export code of `src/main.rs`: counting the validation mistakes
    of a trained network, the JSON object of its weights, and the lines of the loss
    file. Writing files and printing are left out; the exporters return what they
    would write. */
module Report {
  import opened Wrappers
  import opened Matrices
  import opened Text
  import opened Parsing
  import opened Activations
  import opened Mnist
  import opened NetworkSpec
  import opened NeuralNetwork

  // ---------------------------------------------------------------------------
  // Evaluation

  /** `iter().enumerate().max_by(total_cmp).unwrap().0`: the index of a largest entry.
      `max_by` keeps the later of two equal elements, so among several largest entries
      it is the last one. */
  function ArgMax(v: seq<real>): (i: nat)
    requires |v| > 0
    ensures i < |v|
    ensures forall j :: 0 <= j < |v| ==> v[j] <= v[i]
    ensures forall j :: i < j < |v| ==> v[j] < v[i]
    decreases |v|
  {
    if |v| == 1 then 0
    else
      var k := ArgMax(v[..|v| - 1]);
      if v[|v| - 1] >= v[k] then |v| - 1 else k
  }

  /** The two properties of `ArgMax` determine it: an index holding a largest entry
      with every later entry smaller is the argmax. */
  lemma ArgMaxUnique(v: seq<real>, i: nat)
    requires i < |v|
    requires forall j :: 0 <= j < |v| ==> v[j] <= v[i]
    requires forall j :: i < j < |v| ==> v[j] < v[i]
    ensures ArgMax(v) == i
  {
  }

  /** The argmax of a one-hot target is its digit; a label outside 0..9 gives an
      all-zero row, whose argmax is the last index, 9. */
  lemma OneHotArgMax(digit: nat)
    ensures digit < NumClasses ==> ArgMax(OneHot(digit)) == digit
    ensures digit >= NumClasses ==> ArgMax(OneHot(digit)) == NumClasses - 1
  {
    var row := OneHot(digit);
    if digit < NumClasses {
      ArgMaxUnique(row, digit);
    } else {
      ArgMaxUnique(row, NumClasses - 1);
    }
  }

  /** The number of row pairs `zip` produces: as many as the shorter matrix has rows. */
  function Paired(predictions: Matrix, targets: Matrix): (n: nat)
    ensures n <= |predictions| && n <= |targets|
    ensures n == |predictions| || n == |targets|
  {
    if |predictions| <= |targets| then |predictions| else |targets|
  }

  /** Every paired row has an argmax (`unwrap` panics on an empty row). */
  predicate RowsNonEmpty(predictions: Matrix, targets: Matrix) {
    forall i :: 0 <= i < Paired(predictions, targets) ==> |predictions[i]| > 0 && |targets[i]| > 0
  }

  /** The paired rows, among the first `k`, whose predicted digit differs from the actual one. */
  function MistakesBefore(predictions: Matrix, targets: Matrix, k: nat): (s: set<nat>)
    requires RowsNonEmpty(predictions, targets) && k <= Paired(predictions, targets)
    ensures forall i :: i in s ==> i < k
  {
    set i: nat | i < k && ArgMax(predictions[i]) != ArgMax(targets[i])
  }

  /** The rows of the validation set the network gets wrong. */
  function Mistakes(predictions: Matrix, targets: Matrix): set<nat>
    requires RowsNonEmpty(predictions, targets)
  {
    MistakesBefore(predictions, targets, Paired(predictions, targets))
  }

  /** One more row adds itself to the mistakes exactly when its digits differ. */
  lemma MistakesStep(predictions: Matrix, targets: Matrix, k: nat)
    requires RowsNonEmpty(predictions, targets) && k < Paired(predictions, targets)
    ensures |MistakesBefore(predictions, targets, k + 1)|
         == |MistakesBefore(predictions, targets, k)|
            + (if ArgMax(predictions[k]) != ArgMax(targets[k]) then 1 else 0)
  {
    MistakesNext(predictions, targets, k);
  }

  /** The mistakes among the first `k + 1` rows are those among the first `k`, plus row
      `k` when its digits differ. */
  lemma MistakesNext(predictions: Matrix, targets: Matrix, k: nat)
    requires RowsNonEmpty(predictions, targets) && k < Paired(predictions, targets)
    ensures MistakesBefore(predictions, targets, k + 1)
         == MistakesBefore(predictions, targets, k)
            + (if ArgMax(predictions[k]) != ArgMax(targets[k]) then {k} else {})
  {
    var before := MistakesBefore(predictions, targets, k);
    var after := MistakesBefore(predictions, targets, k + 1);
    var added: set<nat> := if ArgMax(predictions[k]) != ArgMax(targets[k]) then {k} else {};
    forall i: nat
      ensures i in after <==> i in before + added
    {
    }
  }

  /** There are at most as many mistakes as rows examined. */
  lemma {:induction false} MistakesBeforeBound(predictions: Matrix, targets: Matrix, k: nat)
    requires RowsNonEmpty(predictions, targets) && k <= Paired(predictions, targets)
    ensures |MistakesBefore(predictions, targets, k)| <= k
    decreases k
  {
    if k > 0 {
      MistakesBeforeBound(predictions, targets, k - 1);
      MistakesStep(predictions, targets, k - 1);
    }
  }

  /** The mistake count is at most the number of rows of either matrix. */
  lemma MistakesBound(predictions: Matrix, targets: Matrix)
    requires RowsNonEmpty(predictions, targets)
    ensures |Mistakes(predictions, targets)| <= |predictions|
    ensures |Mistakes(predictions, targets)| <= |targets|
  {
    MistakesBeforeBound(predictions, targets, Paired(predictions, targets));
  }

  /** There are no mistakes exactly when every paired row's predicted digit is the
      actual one. */
  lemma NoMistakes(predictions: Matrix, targets: Matrix)
    requires RowsNonEmpty(predictions, targets)
    ensures |Mistakes(predictions, targets)| == 0 <==>
      forall i :: 0 <= i < Paired(predictions, targets) ==> ArgMax(predictions[i]) == ArgMax(targets[i])
  {
    var m := Mistakes(predictions, targets);
    if |m| == 0 {
      forall i | 0 <= i < Paired(predictions, targets)
        ensures ArgMax(predictions[i]) == ArgMax(targets[i])
      {
        assert i !in m;
      }
    } else {
      var i :| i in m;
    }
  }

  /** `test_model` on a parsed validation set: the network's predictions, then the
      mistakes counted. Every target row must be non-empty (its argmax is unwrapped). */
  method TestModel(model: NeuralNet, dataset: Dataset, exp: Exp) returns (numMistakes: nat)
    requires model.Valid()
    requires IsMatrix(dataset.data, |dataset.data|, model.widths[0]) && OutputReady(model.widths, |dataset.data|)
    requires forall i :: 0 <= i < |dataset.target| ==> |dataset.target[i]| > 0
    ensures var predictions := Predicted(model.layers, model.widths, model.activationFunction, exp, dataset.data);
      && RowsNonEmpty(predictions, dataset.target)
      && numMistakes == |Mistakes(predictions, dataset.target)|
  {
    var predictions := model.Predict(dataset.data, exp);
    numMistakes := CountMistakes(predictions, dataset.target);
  }

  /** The loop of `test_model`: one comparison of predicted and actual digit per pair of
      rows, counting the pairs that differ. */
  method CountMistakes(predictions: Matrix, targets: Matrix) returns (numMistakes: nat)
    requires RowsNonEmpty(predictions, targets)
    ensures numMistakes == |Mistakes(predictions, targets)|
  {
    numMistakes := 0;
    for i := 0 to Paired(predictions, targets)
      invariant numMistakes == |MistakesBefore(predictions, targets, i)|
    {
      var predictDigit := ArgMax(predictions[i]);
      var actualDigit := ArgMax(targets[i]);
      MistakesStep(predictions, targets, i);
      if predictDigit != actualDigit {
        numMistakes := numMistakes + 1;
      }
    }
  }

  // ---------------------------------------------------------------------------
  // Weight export

  /** `format!("{}{}", c, i)`: a letter followed by the decimal index. */
  function Key(c: char, i: nat): (key: string)
    ensures |key| > 1 && key[0] == c && key[1..] == NatToString(i)
  {
    [c] + NatToString(i)
  }

  /** Keys are distinct for distinct letters or indices. */
  lemma KeyInjective(c: char, i: nat, d: char, j: nat)
    ensures Key(c, i) == Key(d, j) <==> c == d && i == j
  {
    if Key(c, i) == Key(d, j) {
      assert Key(c, i)[1..] == Key(d, j)[1..];
      NatToStringInjective(i, j);
    }
  }

  /** A JSON object whose values are arrays of numbers: its entries in insertion order. */
  type JsonObject = seq<(string, seq<real>)>

  /** The value stored under `key`, if any. */
  function Lookup(obj: JsonObject, key: string): Option<seq<real>>
    decreases |obj|
  {
    if |obj| == 0 then None
    else if obj[0].0 == key then Some(obj[0].1)
    else Lookup(obj[1..], key)
  }

  /** `obj[key] = value`: the value of an existing key is replaced in place; a new key
      is appended at the end. */
  function Insert(obj: JsonObject, key: string, value: seq<real>): (r: JsonObject)
    ensures Lookup(r, key) == Some(value)
    ensures forall k :: k != key ==> Lookup(r, k) == Lookup(obj, k)
    ensures Lookup(obj, key).None? ==> r == obj + [(key, value)]
    decreases |obj|
  {
    if |obj| == 0 then [(key, value)]
    else if obj[0].0 == key then [(key, value)] + obj[1..]
    else
      var rest := Insert(obj[1..], key, value);
      assert Lookup([obj[0]] + rest, key) == Lookup(rest, key);
      assert obj == [obj[0]] + obj[1..];
      [obj[0]] + rest
  }

  /** A key not among the entries has no value. */
  lemma {:induction false} LookupAbsent(obj: JsonObject, key: string)
    requires forall i :: 0 <= i < |obj| ==> obj[i].0 != key
    ensures Lookup(obj, key).None?
    decreases |obj|
  {
    if |obj| > 0 {
      LookupAbsent(obj[1..], key);
    }
  }

  /** `write_weights` before the dump: for every layer `i` in order, the key `W{i}` with
      the weights in row-major order, then the key `b{i}` with the biases. */
  method WriteWeights(model: NeuralNet) returns (data: JsonObject)
    ensures |data| == 2 * |model.layers|
    ensures forall i :: 0 <= i < |model.layers| ==>
      && data[2 * i] == (Key('W', i), Flatten(model.layers[i].weights))
      && data[2 * i + 1] == (Key('b', i), model.layers[i].bias)
  {
    data := [];
    var layers := model.layers;
    for i := 0 to |layers|
      invariant |data| == 2 * i
      invariant forall j :: 0 <= j < i ==>
        && data[2 * j] == (Key('W', j), Flatten(layers[j].weights))
        && data[2 * j + 1] == (Key('b', j), layers[j].bias)
    {
      var w := Flatten(layers[i].weights);
      var b := layers[i].bias;
      InsertLayerKeys(data, i, w, b);
      data := Insert(Insert(data, Key('W', i), w), Key('b', i), b);
      WrittenLayer(data[..2 * i], layers, i);
    }
  }

  /** Appending the two entries of layer `i` to the entries of the layers before it
      gives the entries of the layers up to and including `i`. */
  lemma WrittenLayer(data: JsonObject, layers: seq<Layer>, i: nat)
    requires i < |layers| && |data| == 2 * i
    requires forall j :: 0 <= j < i ==>
      && data[2 * j] == (Key('W', j), Flatten(layers[j].weights))
      && data[2 * j + 1] == (Key('b', j), layers[j].bias)
    ensures var next := data + [(Key('W', i), Flatten(layers[i].weights)), (Key('b', i), layers[i].bias)];
      forall j :: 0 <= j < i + 1 ==>
        && next[2 * j] == (Key('W', j), Flatten(layers[j].weights))
        && next[2 * j + 1] == (Key('b', j), layers[j].bias)
  {
  }

  /** After the keys of the layers before `i`, both keys of layer `i` are new, so
      inserting them appends them in order. */
  lemma InsertLayerKeys(data: JsonObject, i: nat, w: seq<real>, b: seq<real>)
    requires |data| == 2 * i
    requires forall j :: 0 <= j < i ==> data[2 * j].0 == Key('W', j) && data[2 * j + 1].0 == Key('b', j)
    ensures Insert(Insert(data, Key('W', i), w), Key('b', i), b) == data + [(Key('W', i), w), (Key('b', i), b)]
  {
    var wKey, bKey := Key('W', i), Key('b', i);
    KeysFresh(data, i, 'W');
    var withW := data + [(wKey, w)];
    assert Insert(data, wKey, w) == withW;
    KeysFresh(data, i, 'b');
    KeyInjective('W', i, 'b', i);
    forall k | 0 <= k < |withW|
      ensures withW[k].0 != bKey
    {
      if k < |data| {
        assert withW[k] == data[k];
      }
    }
    LookupAbsent(withW, bKey);
  }

  /** The keys written for the layers before `i` differ from both keys of layer `i`. */
  lemma KeysFresh(data: JsonObject, i: nat, c: char)
    requires |data| == 2 * i
    requires forall j :: 0 <= j < i ==> data[2 * j].0 == Key('W', j) && data[2 * j + 1].0 == Key('b', j)
    ensures forall k :: 0 <= k < |data| ==> data[k].0 != Key(c, i)
    ensures Lookup(data, Key(c, i)).None?
  {
    forall k | 0 <= k < |data|
      ensures data[k].0 != Key(c, i)
    {
      var j := k / 2;
      if k % 2 == 0 {
        assert k == 2 * j;
        KeyInjective('W', j, c, i);
      } else {
        assert k == 2 * j + 1;
        KeyInjective('b', j, c, i);
      }
    }
    LookupAbsent(data, Key(c, i));
  }

  /** Every exported key finds its layer's values: `W{i}` the flattened weights,
      `b{i}` the biases. */
  lemma WeightsLookup(data: JsonObject, layers: seq<Layer>, i: nat)
    requires |data| == 2 * |layers| && i < |layers|
    requires forall j :: 0 <= j < |layers| ==>
      && data[2 * j] == (Key('W', j), Flatten(layers[j].weights))
      && data[2 * j + 1] == (Key('b', j), layers[j].bias)
    ensures Lookup(data, Key('W', i)) == Some(Flatten(layers[i].weights))
    ensures Lookup(data, Key('b', i)) == Some(layers[i].bias)
  {
    KeysFresh(data[..2 * i], i, 'W');
    KeysFresh(data[..2 * i], i, 'b');
    LookupPrefix(data, 2 * i, Key('W', i));
    KeyInjective('W', i, 'b', i);
    KeysFresh(data[..2 * i], i, 'b');
    LookupPrefix(data, 2 * i + 1, Key('b', i));
  }

  /** When `key` first appears at position `k`, the lookup finds the value there. */
  lemma {:induction false} LookupPrefix(obj: JsonObject, k: nat, key: string)
    requires k < |obj| && obj[k].0 == key
    requires forall i :: 0 <= i < k ==> obj[i].0 != key
    ensures Lookup(obj, key) == Some(obj[k].1)
    decreases k
  {
    if k > 0 {
      LookupPrefix(obj[1..], k - 1, key);
    }
  }

  // ---------------------------------------------------------------------------
  // Loss file

  /** The text of one pair without its line feed: the epoch, four spaces, the loss as
      `display` renders it. */
  function LossText(epoch: nat, loss: real, display: real -> string): (t: string)
    ensures |t| == |NatToString(epoch)| + 4 + |display(loss)|
    ensures t[..|NatToString(epoch)|] == NatToString(epoch)
    ensures t[|t| - |display(loss)|..] == display(loss)
    ensures '\n' !in t <==> '\n' !in display(loss)
  {
    DigitsNoLineFeed(NatToString(epoch));
    NatToString(epoch) + "    " + display(loss)
  }

  /** `format!("{}    {}\n", x, y)`: the pair's text and a line feed, which is the only
      one when the rendering holds none. */
  function LossLine(epoch: nat, loss: real, display: real -> string): (l: string)
    ensures |l| > 0 && l[|l| - 1] == '\n' && l[..|l| - 1] == LossText(epoch, loss, display)
    ensures '\n' !in display(loss) ==> forall i :: 0 <= i < |l| - 1 ==> l[i] != '\n'
  {
    var t := LossText(epoch, loss, display);
    assert (t + "\n")[..|t|] == t;
    t + "\n"
  }

  /** The lines of the loss file, one per pair, in order. */
  function LossLines(losses: seq<(nat, real)>, display: real -> string): (lines: seq<string>)
    ensures |lines| == |losses|
  {
    seq(|losses|, i requires 0 <= i < |losses| => LossLine(losses[i].0, losses[i].1, display))
  }

  /** `write_losses`: one line per pair, written one after another. */
  method WriteLosses(losses: seq<(nat, real)>, display: real -> string) returns (file: string)
    ensures file == Concat(LossLines(losses, display))
  {
    file := "";
    for k := 0 to |losses|
      invariant file == Concat(LossLines(losses[..k], display))
    {
      var (x, y) := losses[k];
      ConcatAppend(LossLines(losses[..k], display), LossLine(x, y, display));
      assert LossLines(losses[..k + 1], display) == LossLines(losses[..k], display) + [LossLine(x, y, display)];
      file := file + LossLine(x, y, display);
    }
    assert losses[..|losses|] == losses;
  }

  /** The text of each pair, without its line feed. */
  function LossTexts(losses: seq<(nat, real)>, display: real -> string): (texts: seq<string>)
    ensures |texts| == |losses|
    ensures forall i :: 0 <= i < |losses| ==> texts[i] == LossText(losses[i].0, losses[i].1, display)
  {
    seq(|losses|, i requires 0 <= i < |losses| => LossText(losses[i].0, losses[i].1, display))
  }

  /** The loss file splits at its line feeds into exactly the pair texts, in order,
      followed by the empty text after the last line feed, provided the float
      rendering never contains a line feed. */
  lemma {:induction false} LossFileLines(losses: seq<(nat, real)>, display: real -> string)
    requires forall x :: '\n' !in display(x)
    ensures Split(Concat(LossLines(losses, display)), '\n') == LossTexts(losses, display) + [""]
    decreases |losses|
  {
    if |losses| == 0 {
      assert Concat(LossLines(losses, display)) == "";
    } else {
      var first := LossText(losses[0].0, losses[0].1, display);
      var rest := losses[1..];
      LossFileLines(rest, display);
      LossLinesCons(losses, display);
      SplitAfterPiece(first, '\n', Concat(LossLines(rest, display)));
      LossTextsCons(losses, display);
    }
  }

  /** The loss file of a non-empty list is the first pair's text, a line feed, then the
      loss file of the rest. */
  lemma LossLinesCons(losses: seq<(nat, real)>, display: real -> string)
    requires |losses| > 0
    ensures Concat(LossLines(losses, display))
         == LossText(losses[0].0, losses[0].1, display) + ['\n'] + Concat(LossLines(losses[1..], display))
  {
    var lines := LossLines(losses, display);
    assert lines[1..] == LossLines(losses[1..], display);
  }

  /** The texts of a non-empty list are the first pair's text before the texts of the rest. */
  lemma LossTextsCons(losses: seq<(nat, real)>, display: real -> string)
    requires |losses| > 0
    ensures LossTexts(losses, display)
         == [LossText(losses[0].0, losses[0].1, display)] + LossTexts(losses[1..], display)
  {
  }

  /** A string of digits holds no line feed. */
  lemma DigitsNoLineFeed(s: string)
    requires IsDigits(s)
    ensures '\n' !in s
  {
    forall i | 0 <= i < |s|
      ensures s[i] != '\n'
    {
    }
  }

  /** The epoch is read back from a line: its text up to the first space is the decimal
      epoch. */
  lemma LossTextEpoch(epoch: nat, loss: real, display: real -> string)
    ensures var first := Split(LossText(epoch, loss, display), ' ')[0];
      first == NatToString(epoch) && ParseNat(first) == epoch
  {
    var digits := NatToString(epoch);
    assert ' ' !in digits by {
      forall i | 0 <= i < |digits|
        ensures digits[i] != ' '
      {
      }
    }
    assert LossText(epoch, loss, display) == digits + [' '] + ("   " + display(loss));
    SplitAfterPiece(digits, ' ', "   " + display(loss));
    ParseNatToString(epoch);
  }
}
