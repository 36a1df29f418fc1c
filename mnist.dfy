/** The CSV record parser of `src/parsing/mnist.rs`: a record is a label followed by
    784 greyscale pixels, all comma-separated; the file starts with a header line.

    Parsing a field as a float (`f64::from_str`) is a parameter `parse`, and the
    file is given as its contents. */
module Mnist {
  import opened Wrappers
  import opened Matrices
  import opened Text
  import opened Parsing

  const NumFeatures: nat := 784
  const LineSize: nat := 785
  const NumClasses: nat := 10
  const GreyscaleSize: real := 255.0

  /** The largest value of a 64-bit `usize`. */
  const UsizeMax: nat := 0xFFFF_FFFF_FFFF_FFFF

  /** Every field parses. */
  predicate AllParse(fields: seq<string>, parse: string -> Option<real>) {
    forall i :: 0 <= i < |fields| ==> parse(fields[i]).Some?
  }

  /** The comma-separated fields of a dataset line. */
  function Fields(line: string): seq<string> {
    Split(line, ',')
  }

  /** A dataset line the parser accepts: every field parses and there are exactly 785. */
  predicate WellFormedLine(line: string, parse: string -> Option<real>) {
    AllParse(Fields(line), parse) && |Fields(line)| == LineSize
  }

  /** The label of a well-formed line: its first field. */
  function Label(line: string, parse: string -> Option<real>): real
    requires WellFormedLine(line, parse)
  {
    parse(Fields(line)[0]).value
  }

  /** The pixels of a well-formed line: fields 1 to 784, each scaled into [0, 1] by 255. */
  function Pixels(line: string, parse: string -> Option<real>): (pixels: seq<real>)
    requires WellFormedLine(line, parse)
    ensures |pixels| == NumFeatures
  {
    seq(NumFeatures, i requires 0 <= i < NumFeatures => parse(Fields(line)[i + 1]).value / GreyscaleSize)
  }

  /** `x as usize` for a float that is not NaN: truncation toward zero, saturating
      at 0 and at the largest `usize`. */
  function AsUsize(x: real): (n: nat)
    ensures n <= UsizeMax
    ensures 0.0 <= x < UsizeMax as real ==> n == x.Floor
    ensures x <= 0.0 ==> n == 0
    ensures x >= UsizeMax as real ==> n == UsizeMax
  {
    if x <= 0.0 then 0 else if x >= UsizeMax as real then UsizeMax else x.Floor
  }

  /** The one-hot target row for `digit`: 1 at index `digit`, 0 elsewhere; all zeros
      when the label is not a class index. */
  function OneHot(digit: nat): (row: seq<real>)
    ensures |row| == NumClasses
    ensures digit < NumClasses ==> row[digit] == 1.0
    ensures forall i :: 0 <= i < NumClasses && i != digit ==> row[i] == 0.0
  {
    seq(NumClasses, idx => if idx == digit then 1.0 else 0.0)
  }

  /** A one-hot row sums to 1 exactly when the label is a class index, and to 0 otherwise. */
  lemma {:induction false} OneHotSum(digit: nat)
    ensures Sum(OneHot(digit)) == if digit < NumClasses then 1.0 else 0.0
  {
    var row := OneHot(digit);
    forall k | 0 <= k <= NumClasses
      ensures Sum(row[k..]) == if k <= digit < NumClasses then 1.0 else 0.0
    {
      SuffixSum(row, digit, k);
    }
    assert row[0..] == row;
  }

  lemma {:induction false} SuffixSum(row: seq<real>, digit: nat, k: nat)
    requires row == OneHot(digit) && k <= NumClasses
    ensures Sum(row[k..]) == if k <= digit < NumClasses then 1.0 else 0.0
    decreases NumClasses - k
  {
    if k < NumClasses {
      SuffixSum(row, digit, k + 1);
      assert row[k..][1..] == row[k + 1..];
    }
  }

  /** `parse_line`: the fields of `s` between separators, each parsed. The loop stops at
      the first field that does not parse and yields None. `examined` logs every field
      handed to `parse`, at the moment it is handed over. */
  method ParseLine(s: string, separator: char, parse: string -> Option<real>)
    returns (record: Option<seq<real>>, ghost examined: seq<string>)
    ensures var fields := Split(s, separator);
      && (record.Some? <==> AllParse(fields, parse))
      && |examined| <= |fields| && examined == fields[..|examined|]
      && (record.Some? ==>
            && |record.value| == |fields|
            && (forall i :: 0 <= i < |fields| ==> record.value[i] == parse(fields[i]).value)
            && examined == fields)
      && (record.None? ==>
            && |examined| > 0
            && parse(examined[|examined| - 1]).None?
            && forall i :: 0 <= i < |examined| - 1 ==> parse(examined[i]).Some?)
  {
    record, examined := ParseFields(Split(s, separator), parse);
  }

  /** The loop of `parse_line` over the fields already split off. */
  method ParseFields(fields: seq<string>, parse: string -> Option<real>)
    returns (record: Option<seq<real>>, ghost examined: seq<string>)
    ensures record.Some? <==> AllParse(fields, parse)
    ensures |examined| <= |fields| && examined == fields[..|examined|]
    ensures record.Some? ==>
      && |record.value| == |fields|
      && (forall i :: 0 <= i < |fields| ==> record.value[i] == parse(fields[i]).value)
      && examined == fields
    ensures record.None? ==>
      && |examined| > 0
      && parse(examined[|examined| - 1]).None?
      && forall i :: 0 <= i < |examined| - 1 ==> parse(examined[i]).Some?
  {
    var values: seq<real> := [];
    ghost var log: seq<string> := [];
    var k := 0;
    while k < |fields|
      invariant k <= |fields| && |values| == k && log == fields[..k]
      invariant forall i :: 0 <= i < k ==> parse(fields[i]).Some? && values[i] == parse(fields[i]).value
    {
      var parsed := parse(fields[k]);
      log := log + [fields[k]];
      if parsed.None? {
        assert log == fields[..k + 1];
        return None, log;
      }
      values := values + [parsed.value];
      k := k + 1;
    }
    assert fields[..|fields|] == fields;
    return Some(values), log;
  }

  /** `parse_dataset_line`: a line is accepted when all its fields parse and there are
      exactly 785 of them; the label is field 0 and the pixels are the other 784
      fields, in order, divided by 255. */
  method ParseDatasetLine(line: string, parse: string -> Option<real>)
    returns (r: Option<(seq<real>, real)>)
    ensures r.Some? <==> WellFormedLine(line, parse)
    ensures r.Some? ==> r.value == (Pixels(line, parse), Label(line, parse))
  {
    var v, _ := ParseLine(line, ',', parse);
    match v {
      case Some(values) =>
        if |values| == LineSize {
          var pixels := seq(NumFeatures, i requires 0 <= i < NumFeatures => values[i + 1] / GreyscaleSize);
          assert pixels == Pixels(line, parse) by {
            forall i | 0 <= i < NumFeatures
              ensures pixels[i] == Pixels(line, parse)[i]
            {
              assert values[i + 1] == parse(Fields(line)[i + 1]).value;
            }
          }
          r := Some((pixels, values[0]));
        } else {
          r := None;
        }
      case None =>
        r := None;
    }
  }

  /** The prefix of `lines` before the first empty line (`take_while(|x| !x.is_empty())`). */
  function TakeWhileNonEmpty(lines: seq<string>): (taken: seq<string>)
    ensures |taken| <= |lines| && taken == lines[..|taken|]
    ensures forall i :: 0 <= i < |taken| ==> taken[i] != ""
    ensures |taken| < |lines| ==> lines[|taken|] == ""
    decreases |lines|
  {
    if |lines| == 0 || lines[0] == "" then [] else [lines[0]] + TakeWhileNonEmpty(lines[1..])
  }

  /** The records of a dataset file: its lines after the header, up to the first empty line. */
  function Body(contents: string): (body: seq<string>)
    ensures forall i :: 0 <= i < |body| ==> body[i] != ""
    ensures |Lines(contents)| == 0 ==> body == []
    ensures |Lines(contents)| > 0 ==> |body| < |Lines(contents)| && body == Lines(contents)[1..|body| + 1]
    ensures |body| + 1 < |Lines(contents)| ==> Lines(contents)[|body| + 1] == ""
  {
    var lines := Lines(contents);
    TakeWhileNonEmpty(if |lines| == 0 then [] else lines[1..])
  }

  /** `parse_dataset` over the file contents: one feature row and one one-hot target
      row per record. A malformed record aborts the whole parse (the `unwrap` panics),
      which is None here: no partial dataset is produced. */
  method ParseDataset(contents: string, parse: string -> Option<real>) returns (r: Option<Dataset>)
    ensures var body := Body(contents);
      && (r.Some? <==> forall i :: 0 <= i < |body| ==> WellFormedLine(body[i], parse))
      && (r.Some? ==>
            && IsMatrix(r.value.data, |body|, NumFeatures)
            && IsMatrix(r.value.target, |body|, NumClasses)
            && forall i :: 0 <= i < |body| ==>
                 && r.value.data[i] == Pixels(body[i], parse)
                 && r.value.target[i] == OneHot(AsUsize(Label(body[i], parse))))
  {
    r := ParseRecords(Body(contents), parse);
  }

  /** The loop of `parse_dataset` over its records. */
  method ParseRecords(body: seq<string>, parse: string -> Option<real>) returns (r: Option<Dataset>)
    ensures r.Some? <==> forall i :: 0 <= i < |body| ==> WellFormedLine(body[i], parse)
    ensures r.Some? ==>
            && IsMatrix(r.value.data, |body|, NumFeatures)
            && IsMatrix(r.value.target, |body|, NumClasses)
            && forall i :: 0 <= i < |body| ==>
                 && r.value.data[i] == Pixels(body[i], parse)
                 && r.value.target[i] == OneHot(AsUsize(Label(body[i], parse)))
  {
    var data: Matrix := [];
    var target: Matrix := [];
    for k := 0 to |body|
      invariant |data| == k && |target| == k
      invariant forall i :: 0 <= i < k ==> WellFormedLine(body[i], parse)
      invariant forall i :: 0 <= i < k ==>
        data[i] == Pixels(body[i], parse) && target[i] == OneHot(AsUsize(Label(body[i], parse)))
    {
      var line := ParseDatasetLine(body[k], parse);
      if line.None? {
        return None;
      }
      var pixels := line.value.0;
      var digit := AsUsize(line.value.1);
      var oneHotTarget := OneHot(digit);
      data := data + [pixels];
      target := target + [oneHotTarget];
    }
    r := Some(Dataset(data, target));
  }
}
