/** The feature registry's values and the encoding side of the engine:
    category retention (`_init_cats`), the binary label map (`_init_binary`),
    `prepare_df` and the one-hot buffer of `_ohe`. */
module Features {
  import opened Wrappers
  import opened OrderedDicts
  import opened Frames
  import opened Config

  /** `numeric_fts[ft]`: the fill value for missing cells and the scaler kind
      (the scaler's fitted state lives in scalers.py, which is not part of this model). */
  datatype NumericFeature = NumericFeature(mean: Value, scaler: ScalerKind)

  /** `binary_fts[ft]`: the dict `{'cats': cats, True: ..., False: ...}`,
      its label entries as `labelOf`. */
  datatype BinaryFeature = BinaryFeature(cats: seq<bool>, labelOf: map<bool, bool>)

  /** `categorical_fts[ft]`: the retained categories; `_other` is not among them. */
  datatype CatFeature = CatFeature(cats: seq<Value>)

  /** The three registries the model is built from. */
  datatype Registry = Registry(
    numeric: ODict<string, NumericFeature>,
    binary: ODict<string, BinaryFeature>,
    categorical: ODict<string, CatFeature>)
  {
    predicate Valid() { numeric.Valid() && binary.Valid() && categorical.Valid() }
  }

  predicate NoDup<T(==)>(s: seq<T>) {
    forall i, j :: 0 <= i < j < |s| ==> s[i] != s[j]
  }

  /** The reserved bucket, always the slot after the retained categories. */
  const OtherLabel: Value := Text("_other")

  // ---------------------------------------------------------------------
  // Category retention: `vl = df[ft].value_counts(); cats = list(vl[vl >= min_cats].index)`

  /** How often `v` occurs in the column. */
  function Count(vs: seq<Value>, v: Value): nat {
    multiset(vs)[v]
  }

  /** The order `value_counts` lists values in: most frequent first. */
  predicate ByCountDesc(cats: seq<Value>, vs: seq<Value>) {
    forall i, j :: 0 <= i < j < |cats| ==> Count(vs, cats[i]) >= Count(vs, cats[j])
  }

  /** Insert `v` after every entry at least as frequent as it. */
  function InsertByCount(cats: seq<Value>, v: Value, vs: seq<Value>): (r: seq<Value>)
    requires ByCountDesc(cats, vs) && NoDup(cats) && v !in cats
    ensures |r| == |cats| + 1
    ensures forall x :: x in r <==> x in cats || x == v
    ensures ByCountDesc(r, vs) && NoDup(r)
  {
    if cats == [] then [v]
    else if Count(vs, cats[0]) >= Count(vs, v) then
      var rest := InsertByCount(cats[1..], v, vs);
      assert forall x :: x in cats <==> x == cats[0] || x in cats[1..];
      assert forall x :: x in rest ==> Count(vs, x) <= Count(vs, cats[0]) && x != cats[0] by {
        forall x | x in rest ensures Count(vs, x) <= Count(vs, cats[0]) && x != cats[0] {
          if x != v {
            var k :| 0 <= k < |cats[1..]| && cats[1..][k] == x;
            assert cats[k + 1] == x;
          }
        }
      }
      ConsByCount(cats[0], rest, vs);
      [cats[0]] + rest
    else
      assert forall x :: x in cats ==> Count(vs, x) <= Count(vs, v) && x != v by {
        forall x | x in cats ensures Count(vs, x) <= Count(vs, v) && x != v {
          var k :| 0 <= k < |cats| && cats[k] == x;
        }
      }
      ConsByCount(v, cats, vs);
      [v] + cats
  }

  /** Putting in front a value at least as frequent as, and different from,
      every entry keeps the list ordered by count and free of repeats. */
  lemma ConsByCount(x: Value, rest: seq<Value>, vs: seq<Value>)
    requires ByCountDesc(rest, vs) && NoDup(rest)
    requires forall y :: y in rest ==> Count(vs, y) <= Count(vs, x) && y != x
    ensures ByCountDesc([x] + rest, vs) && NoDup([x] + rest)
  {
    var r := [x] + rest;
    assert forall j :: 1 <= j < |r| ==> r[j] == rest[j - 1];
  }

  /** The retained categories among the first `n` cells, counting over the whole column. */
  function RetainFrom(vs: seq<Value>, n: nat, minCats: int): (cats: seq<Value>)
    requires n <= |vs|
    ensures NoDup(cats)
    ensures forall v :: v in cats <==> v in vs[..n] && v != Missing && Count(vs, v) >= minCats
    ensures ByCountDesc(cats, vs)
  {
    if n == 0 then []
    else
      var prev := RetainFrom(vs, n - 1, minCats);
      var v := vs[n - 1];
      assert vs[..n] == vs[..n - 1] + [v];
      if v != Missing && Count(vs, v) >= minCats && v !in prev then InsertByCount(prev, v, vs)
      else prev
  }

  /** `_init_cats` for one column: exactly the non-missing values seen at
      least `min_cats` times, each once, most frequent first (values of equal
      frequency in order of first appearance). */
  function RetainedCats(vs: seq<Value>, minCats: int): (cats: seq<Value>)
    ensures NoDup(cats)
    ensures forall v :: v in cats <==> v in vs && v != Missing && Count(vs, v) >= minCats
    ensures ByCountDesc(cats, vs)
  {
    assert vs[..|vs|] == vs;
    RetainFrom(vs, |vs|, minCats)
  }

  // ---------------------------------------------------------------------
  // Binary label map

  /** The binary feature `_init_binary` builds: `cats = [True, False]`, `True -> True`, `False -> False`. */
  const FreshBinary: BinaryFeature := BinaryFeature([true, false], map[true := true, false := false])

  /** The Python bool a cell is equal to as a dict key (`1 == 1.0 == True`, `0 == 0.0 == False`). */
  function BoolKey(x: Value): (r: Option<bool>)
    ensures r == Some(true) <==> x == Flag(true) || x == Num(1.0)
    ensures r == Some(false) <==> x == Flag(false) || x == Num(0.0)
  {
    match x
    case Flag(b) => Some(b)
    case Num(r) => if r == 1.0 then Some(true) else if r == 0.0 then Some(false) else None
    case _ => None
  }

  /** What `feature.get(x, False)` can return as written: a label, or the
      `'cats'` list itself, which shares the dict with the labels. */
  datatype BinaryCell = Label(b: bool) | CatsList(l: seq<bool>)

  /** `feature.get(x, False)` on the dict as `_init_binary` lays it out. */
  function BinaryGetAsWritten(f: BinaryFeature, x: Value): BinaryCell {
    if x == Text("cats") then CatsList(f.cats)
    else match BoolKey(x)
      case Some(b) => if b in f.labelOf then Label(f.labelOf[b]) else Label(false)
      case None => Label(false)
  }

  /** A binary column holding the string "cats" yields the category list, not a label. */
  lemma CatsKeyLeaksIntoBinaryColumn()
    ensures BinaryGetAsWritten(FreshBinary, Text("cats")) == CatsList([true, false])
    ensures !BinaryGetAsWritten(FreshBinary, Text("cats")).Label?
  {
  }

  /** The label lookup as intended: the mapped label of a cell equal to
      True or False, and False for every other cell. */
  function BinaryGet(f: BinaryFeature, x: Value): (b: bool)
    ensures b ==> BoolKey(x).Some? && BoolKey(x).value in f.labelOf
    ensures BoolKey(x).Some? && BoolKey(x).value in f.labelOf ==> b == f.labelOf[BoolKey(x).value]
  {
    match BoolKey(x)
    case Some(k) => if k in f.labelOf then f.labelOf[k] else false
    case None => false
  }

  /** With the map `_init_binary` builds, a cell becomes True exactly when it
      equals True; every other cell, the string "cats" included, becomes False. */
  lemma {:induction false} FreshBinaryMapsToTruth(x: Value)
    ensures BinaryGet(FreshBinary, x) <==> x == Flag(true) || x == Num(1.0)
    ensures BinaryGetAsWritten(FreshBinary, x) != Label(BinaryGet(FreshBinary, x)) <==> x == Text("cats")
  {
    var k := BoolKey(x);
    if k.Some? {
      assert k.value in FreshBinary.labelOf && FreshBinary.labelOf[k.value] == k.value;
    }
  }

  // ---------------------------------------------------------------------
  // prepare_df

  /** The code `pd.Categorical(col, categories=cats + ['_other']).fillna('_other')`
      gives a cell: its position among the retained categories, or the
      `_other` slot `|cats|` for anything else (missing and unseen values included). */
  function CatCode(v: Value, cats: seq<Value>): (c: nat)
    ensures c <= |cats|
    ensures c < |cats| ==> cats[c] == v && forall j :: 0 <= j < c ==> cats[j] != v
    ensures c == |cats| <==> v !in cats
  {
    if cats == [] then 0
    else if cats[0] == v then 0
    else 1 + CatCode(v, cats[1..])
  }

  /** The scaled-frame columns `prepare_df` produces, by feature type, in registry order
      (the numeric columns before the scaler transform, which is not part of this model). */
  datatype Prepared = Prepared(numeric: seq<seq<Value>>, binary: seq<seq<bool>>, codes: seq<seq<nat>>)

  function PrepareNumeric(names: seq<string>, fts: map<string, NumericFeature>, df: Frame): (r: Result<seq<seq<Value>>>)
    requires forall n :: n in names ==> n in fts
    ensures r.Ok? <==> forall i :: 0 <= i < |names| ==> HasColumn(df, names[i])
    ensures r.Err? ==> r.error == KeyError
    ensures r.Ok? ==> |r.value| == |names|
    ensures r.Ok? ==> forall i :: 0 <= i < |names| ==> r.value[i] == FillNa(Lookup(df, names[i]).value, fts[names[i]].mean)
  {
    if names == [] then Ok([])
    else
      var col := Lookup(df, names[0]);
      if col.Err? then Err(KeyError)
      else
        var rest := PrepareNumeric(names[1..], fts, df);
        assert forall i :: 1 <= i < |names| ==> names[i] == names[1..][i - 1];
        if rest.Err? then rest
        else Ok([FillNa(col.value, fts[names[0]].mean)] + rest.value)
  }

  function MapBinary(f: BinaryFeature, vs: seq<Value>): (r: seq<bool>)
    ensures |r| == |vs| && forall i :: 0 <= i < |vs| ==> r[i] == BinaryGet(f, vs[i])
  {
    seq(|vs|, i requires 0 <= i < |vs| => BinaryGet(f, vs[i]))
  }

  function PrepareBinary(names: seq<string>, fts: map<string, BinaryFeature>, df: Frame): (r: Result<seq<seq<bool>>>)
    requires forall n :: n in names ==> n in fts
    ensures r.Ok? <==> forall i :: 0 <= i < |names| ==> HasColumn(df, names[i])
    ensures r.Err? ==> r.error == KeyError
    ensures r.Ok? ==> |r.value| == |names|
    ensures r.Ok? ==> forall i :: 0 <= i < |names| ==> r.value[i] == MapBinary(fts[names[i]], Lookup(df, names[i]).value)
  {
    if names == [] then Ok([])
    else
      var col := Lookup(df, names[0]);
      if col.Err? then Err(KeyError)
      else
        var rest := PrepareBinary(names[1..], fts, df);
        assert forall i :: 1 <= i < |names| ==> names[i] == names[1..][i - 1];
        if rest.Err? then rest
        else Ok([MapBinary(fts[names[0]], col.value)] + rest.value)
  }

  function Codes(vs: seq<Value>, cats: seq<Value>): (r: seq<nat>)
    ensures |r| == |vs| && forall i :: 0 <= i < |vs| ==> r[i] == CatCode(vs[i], cats)
  {
    seq(|vs|, i requires 0 <= i < |vs| => CatCode(vs[i], cats))
  }

  /** `pd.Categorical` refuses a category list with a repeated or a null
      entry, so a retained category equal to "_other" is a ValueError. */
  predicate CategoriesUsable(cats: seq<Value>) {
    NoDup(cats + [OtherLabel]) && Missing !in cats
  }

  function PrepareCategorical(names: seq<string>, fts: map<string, CatFeature>, df: Frame): (r: Result<seq<seq<nat>>>)
    requires forall n :: n in names ==> n in fts
    ensures r.Ok? <==> forall i :: 0 <= i < |names| ==> HasColumn(df, names[i]) && CategoriesUsable(fts[names[i]].cats)
    ensures r.Err? ==> r.error == KeyError || r.error == ValueError
    ensures r.Ok? ==> |r.value| == |names|
    ensures r.Ok? ==> forall i :: 0 <= i < |names| ==> r.value[i] == Codes(Lookup(df, names[i]).value, fts[names[i]].cats)
  {
    if names == [] then Ok([])
    else
      var col := Lookup(df, names[0]);
      if col.Err? then Err(KeyError)
      else if !CategoriesUsable(fts[names[0]].cats) then Err(ValueError)
      else
        var rest := PrepareCategorical(names[1..], fts, df);
        assert forall i :: 1 <= i < |names| ==> names[i] == names[1..][i - 1];
        if rest.Err? then rest
        else Ok([Codes(col.value, fts[names[0]].cats)] + rest.value)
  }

  /** `prepare_df`: numeric features, then binary, then categorical, each in
      registry order; a KeyError for a registered feature the frame lacks. */
  function PrepareDf(reg: Registry, df: Frame): (r: Result<Prepared>)
    requires reg.Valid()
    ensures r.Ok? ==> PrepareNumeric(reg.numeric.keys, reg.numeric.vals, df) == Ok(r.value.numeric)
    ensures r.Ok? ==> PrepareBinary(reg.binary.keys, reg.binary.vals, df) == Ok(r.value.binary)
    ensures r.Ok? ==> PrepareCategorical(reg.categorical.keys, reg.categorical.vals, df) == Ok(r.value.codes)
    ensures r.Ok? <==>
      && PrepareNumeric(reg.numeric.keys, reg.numeric.vals, df).Ok?
      && PrepareBinary(reg.binary.keys, reg.binary.vals, df).Ok?
      && PrepareCategorical(reg.categorical.keys, reg.categorical.vals, df).Ok?
    ensures r.Err? ==>
      r.error == (if PrepareNumeric(reg.numeric.keys, reg.numeric.vals, df).Err? then KeyError
                  else if PrepareBinary(reg.binary.keys, reg.binary.vals, df).Err? then KeyError
                  else PrepareCategorical(reg.categorical.keys, reg.categorical.vals, df).error)
  {
    var num :- PrepareNumeric(reg.numeric.keys, reg.numeric.vals, df);
    var bin :- PrepareBinary(reg.binary.keys, reg.binary.vals, df);
    var codes :- PrepareCategorical(reg.categorical.keys, reg.categorical.vals, df);
    Ok(Prepared(num, bin, codes))
  }

  /** Every categorical cell `prepare_df` produces is its category's
      position, or the `_other` slot `|cats|` exactly when it is not a
      retained category (missing values and values never seen in fitting
      included); so every code lies in `[0, |cats|]`. */
  lemma PreparedCategoricalCodes(reg: Registry, df: Frame, i: nat, row: nat)
    requires reg.Valid()
    requires i < |reg.categorical.keys|
    ensures PrepareDf(reg, df).Ok? ==>
      var p := PrepareDf(reg, df).value;
      var vs := Lookup(df, reg.categorical.keys[i]).value;
      var cats := reg.categorical.vals[reg.categorical.keys[i]].cats;
      i < |p.codes| && |p.codes[i]| == |vs| &&
      (row < |vs| ==>
        && p.codes[i][row] <= |cats|
        && (p.codes[i][row] == |cats| <==> vs[row] !in cats)
        && (p.codes[i][row] < |cats| ==> cats[p.codes[i][row]] == vs[row]))
  {
  }

  /** Every code `prepare_df` produces fits the `len(cats) + 1` classes that
      `_ohe` and the categorical output head use. */
  lemma PreparedCodesFitOneHot(reg: Registry, df: Frame, i: nat)
    requires reg.Valid()
    requires i < |reg.categorical.keys|
    ensures PrepareDf(reg, df).Ok? ==>
      && i < |PrepareDf(reg, df).value.codes|
      && CodesWithin(PrepareDf(reg, df).value.codes[i], |reg.categorical.vals[reg.categorical.keys[i]].cats| + 1)
  {
    if PrepareDf(reg, df).Ok? {
      var k := reg.categorical.keys[i];
      var cats := reg.categorical.vals[k].cats;
      assert PrepareDf(reg, df).value.codes[i] == Codes(Lookup(df, k).value, cats);
      CodesFit(Lookup(df, k).value, cats);
    }
  }

  /** The codes of a column fit `|cats| + 1` classes. */
  lemma CodesFit(vs: seq<Value>, cats: seq<Value>)
    ensures CodesWithin(Codes(vs, cats), |cats| + 1)
  {
  }

  // ---------------------------------------------------------------------
  // _ohe

  predicate CodesWithin(codes: seq<int>, dim: int) {
    forall i :: 0 <= i < |codes| ==> 0 <= codes[i] < dim
  }

  /** One row of a one-hot encoding: 1 at `code`, 0 elsewhere. */
  function OneHotRow(code: int, dim: nat): (row: seq<real>)
    ensures |row| == dim
    ensures forall j :: 0 <= j < dim ==> row[j] == if j == code then 1.0 else 0.0
  {
    seq(dim, j requires 0 <= j < dim => if j == code then 1.0 else 0.0)
  }

  /** `_ohe`: allocate a `len(codes) x dim` buffer, zero it, then scatter a 1
      into column `codes[i]` of row `i`; an index outside `[0, dim)` makes the
      scatter fail. */
  method OneHot(codes: seq<int>, dim: nat) returns (ok: bool, y: array2<real>)
    ensures fresh(y) && y.Length0 == |codes| && y.Length1 == dim
    ensures ok <==> CodesWithin(codes, dim)
    ensures ok ==> forall i, j :: 0 <= i < |codes| && 0 <= j < dim ==> y[i, j] == OneHotRow(codes[i], dim)[j]
  {
    y := new real[|codes|, dim];
    for i := 0 to |codes|
      invariant forall i', j :: 0 <= i' < i && 0 <= j < dim ==> y[i', j] == 0.0
    {
      for j := 0 to dim
        invariant forall i', j' :: 0 <= i' < i && 0 <= j' < dim ==> y[i', j'] == 0.0
        invariant forall j' :: 0 <= j' < j ==> y[i, j'] == 0.0
      {
        y[i, j] := 0.0;
      }
    }
    ok := true;
    for i := 0 to |codes|
      invariant CodesWithin(codes[..i], dim)
      invariant forall i', j :: 0 <= i' < i && 0 <= j < dim ==> y[i', j] == OneHotRow(codes[i'], dim)[j]
      invariant forall i', j :: i <= i' < |codes| && 0 <= j < dim ==> y[i', j] == 0.0
    {
      if !(0 <= codes[i] < dim) {
        assert !CodesWithin(codes, dim);
        return false, y;
      }
      y[i, codes[i]] := 1.0;
      assert codes[..i + 1] == codes[..i] + [codes[i]];
    }
    assert codes[..|codes|] == codes;
  }
}
