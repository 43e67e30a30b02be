/** `_decode_outputs_to_df`: turning the model's binary and categorical
    outputs back into column values. Outputs and logits are abstract reals. */
module Decoding {
  import opened Wrappers
  import opened Frames
  import opened Features

  /** `torch.argmax` over one row: the first position of the largest entry. */
  function ArgMax(xs: seq<real>): (k: nat)
    requires |xs| > 0
    ensures k < |xs|
    ensures forall j :: 0 <= j < |xs| ==> xs[j] <= xs[k]
    ensures forall j :: 0 <= j < k ==> xs[j] < xs[k]
  {
    if |xs| == 1 then 0
    else
      var init := xs[..|xs| - 1];
      var k := ArgMax(init);
      assert forall j :: 0 <= j < |init| ==> init[j] == xs[j];
      if xs[|xs| - 1] > xs[k] then |xs| - 1 else k
  }

  // ---------------------------------------------------------------------
  // Binary columns: `bin_df.apply(lambda x: round(x)).astype(bool)`, then the label map.

  /** Rounding to the nearest integer, halves to the even neighbour (numpy's rule). */
  function RoundHalfEven(x: real): int {
    var f := x.Floor;
    var d := x - f as real;
    if d < 0.5 then f
    else if d > 0.5 then f + 1
    else if f % 2 == 0 then f
    else f + 1
  }

  /** The rounded output is True exactly when it lies farther than one half from zero. */
  lemma RoundedBit(x: real)
    ensures (RoundHalfEven(x) != 0) <==> (x > 0.5 || x < -0.5)
  {
    var f := x.Floor;
    assert f as real <= x < f as real + 1.0;
    if -0.5 <= x <= 0.5 {
      assert f == 0 || f == -1;
    } else if x > 0.5 {
      assert f >= 0;
    } else {
      assert f <= -1;
    }
  }

  /** The rounded bit of one binary output. */
  function OutputBit(out: real): bool {
    RoundHalfEven(out) != 0
  }

  /** `map = {False: feature['cats'][0], True: feature['cats'][1]}; map[bit]`. */
  function DecodeBinaryAsWritten(out: real, f: BinaryFeature): bool
    requires |f.cats| >= 2
  {
    var m := map[false := f.cats[0], true := f.cats[1]];
    m[OutputBit(out)]
  }

  /** With `cats = [True, False]`, as `_init_binary` sets it, the decode map
      sends each rounded bit to its negation: a row encoded as True comes back False. */
  lemma DecodeBinaryAsWrittenNegates(out: real, b: bool)
    ensures DecodeBinaryAsWritten(out, FreshBinary) == !OutputBit(out)
    ensures DecodeBinaryAsWritten(if BinaryGet(FreshBinary, Flag(b)) then 1.0 else 0.0, FreshBinary) == !b
  {
    RoundedBit(1.0);
    RoundedBit(0.0);
  }

  /** The label among `cats` that the encoding map sends to `bit`, if any. */
  function LabelFor(cats: seq<bool>, labelOf: map<bool, bool>, bit: bool): (r: Option<bool>)
    ensures r.Some? ==> r.value in cats && r.value in labelOf && labelOf[r.value] == bit
    ensures r.None? ==> forall c :: c in cats && c in labelOf ==> labelOf[c] != bit
  {
    if cats == [] then None
    else if cats[0] in labelOf && labelOf[cats[0]] == bit then Some(cats[0])
    else LabelFor(cats[1..], labelOf, bit)
  }

  /** The binary decode as the encoder implies it: the label whose encoding
      is the rounded bit (the bit itself when no label encodes to it). */
  function DecodeBinary(out: real, f: BinaryFeature): bool {
    var bit := OutputBit(out);
    match LabelFor(f.cats, f.labelOf, bit)
    case Some(c) => c
    case None => bit
  }

  /** Decoding inverts `prepare_df`'s label map: a label encoded to a bit and
      reconstructed exactly decodes to itself, whenever the map is one-to-one
      on the categories. */
  lemma DecodeBinaryInvertsLabelMap(f: BinaryFeature, c: bool)
    requires c in f.cats && c in f.labelOf
    requires forall a, b :: a in f.cats && b in f.cats && a in f.labelOf && b in f.labelOf && f.labelOf[a] == f.labelOf[b] ==> a == b
    ensures DecodeBinary(if f.labelOf[c] then 1.0 else 0.0, f) == c
  {
    RoundedBit(1.0);
    RoundedBit(0.0);
  }

  /** The round trip of a binary cell through `prepare_df`, an exact
      reconstruction and the decode returns the cell's truth value. */
  lemma BinaryRoundTrip(b: bool)
    ensures DecodeBinary(if BinaryGet(FreshBinary, Flag(b)) then 1.0 else 0.0, FreshBinary) == b
  {
    DecodeBinaryInvertsLabelMap(FreshBinary, b);
  }

  // ---------------------------------------------------------------------
  // Categorical columns

  /** The arg-max code: over every logit but the last (`cat[i][:, :-1]`) when
      the column has a retained category, over all logits otherwise. An empty
      range is an IndexError (a reduction over a dimension of size zero);
      the categorical head always emits `len(cats) + 1` logits, so this case
      does not arise in the engine (see `DecodeNeverOther`). */
  function DecodeCategoricalCode(logits: seq<real>, catCount: nat): (r: Result<nat>)
    ensures r.Ok? <==> (if catCount > 0 then |logits| >= 2 else |logits| >= 1)
    ensures r.Err? ==> r.error == IndexError
    ensures r.Ok? && catCount > 0 ==> r.value < |logits| - 1
    ensures r.Ok? && catCount == 0 ==> r.value < |logits|
    ensures r.Ok? && catCount > 0 ==>
      && (forall j :: 0 <= j < |logits| - 1 ==> logits[j] <= logits[r.value])
      && (forall j :: 0 <= j < r.value ==> logits[j] < logits[r.value])
    ensures r.Ok? && catCount == 0 ==>
      && (forall j :: 0 <= j < |logits| ==> logits[j] <= logits[r.value])
      && (forall j :: 0 <= j < r.value ==> logits[j] < logits[r.value])
  {
    if catCount > 0 then
      if |logits| >= 2 then Ok(ArgMax(logits[..|logits| - 1])) else Err(IndexError)
    else
      if |logits| >= 1 then Ok(ArgMax(logits)) else Err(IndexError)
  }

  /** `(feature['cats'] + ["_other"])[code]`. */
  function DecodeCategorical(logits: seq<real>, cats: seq<Value>): (r: Result<Value>)
  {
    var k :- DecodeCategoricalCode(logits, |cats|);
    var labels := cats + [OtherLabel];
    if k < |labels| then Ok(labels[k]) else Err(IndexError)
  }

  /** With at least one retained category and one logit per class, decoding
      always yields a retained category, the first best-scoring one, and never `_other`. */
  lemma DecodeNeverOther(logits: seq<real>, cats: seq<Value>)
    requires |cats| > 0 && |logits| == |cats| + 1
    ensures DecodeCategorical(logits, cats).Ok?
    ensures var k := ArgMax(logits[..|cats|]);
      && k < |cats|
      && DecodeCategorical(logits, cats).value == cats[k]
      && (forall j :: 0 <= j < |cats| ==> logits[j] <= logits[k])
  {
    var k := ArgMax(logits[..|cats|]);
    assert forall j :: 0 <= j < |cats| ==> logits[..|cats|][j] == logits[j];
    assert (cats + [OtherLabel])[k] == cats[k];
  }

  /** A column with no retained category decodes every row to `_other`. */
  lemma DecodeNoCategoryIsOther(logits: seq<real>)
    requires |logits| == 1
    ensures DecodeCategorical(logits, []) == Ok(OtherLabel)
  {
  }

  /** An exact one-hot reconstruction of a retained category's code `c`
      decodes to `c`: its 1 is the only largest of the category logits. */
  lemma DecodeOneHotCode(c: nat, n: nat)
    requires c < n
    ensures DecodeCategoricalCode(OneHotRow(c, n + 1), n) == Ok(c)
  {
    var row := OneHotRow(c, n + 1);
    var xs := row[..n];
    assert row[..|row| - 1] == xs;
    var k := ArgMax(xs);
    assert xs[c] == 1.0;
    assert xs[k] == 1.0;
  }

  /** The exact one-hot reconstruction of the code of category `cats[c]` decodes to that category. */
  lemma DecodeOneHotCategory(c: nat, cats: seq<Value>)
    requires c < |cats|
    ensures DecodeCategorical(OneHotRow(c, |cats| + 1), cats) == Ok(cats[c])
  {
    DecodeOneHotCode(c, |cats|);
    assert (cats + [OtherLabel])[c] == cats[c];
  }

  /** The round trip of a retained category through `prepare_df`, one-hot
      reconstruction and the decode returns the category. */
  lemma CategoricalRoundTrip(v: Value, cats: seq<Value>)
    requires v in cats
    ensures DecodeCategorical(OneHotRow(CatCode(v, cats), |cats| + 1), cats) == Ok(v)
  {
    DecodeOneHotCategory(CatCode(v, cats), cats);
  }

  /** A value that is not a retained category is encoded to `_other`, and
      `_other` reconstructed exactly decodes to the first retained category
      (the arg-max of an all-zero row), not back to `_other`. */
  lemma UnseenDecodesToFirstCategory(v: Value, cats: seq<Value>)
    requires v !in cats && |cats| > 0
    ensures CatCode(v, cats) == |cats|
    ensures DecodeCategorical(OneHotRow(CatCode(v, cats), |cats| + 1), cats) == Ok(cats[0])
  {
    var row := OneHotRow(|cats|, |cats| + 1);
    var xs := row[..|cats|];
    var k := ArgMax(xs);
    assert forall j :: 0 <= j < |xs| ==> xs[j] == 0.0;
    assert !(xs[0] < xs[k]);
    assert DecodeCategoricalCode(row, |cats|) == Ok(0);
    assert (cats + [OtherLabel])[0] == cats[0];
  }
}
