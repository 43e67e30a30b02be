/** The slice of a pandas DataFrame that the engine looks at: named columns
    with a dtype and a sequence of cell values. */
module Frames {
  import opened Wrappers

  /** A cell. `Missing` is pandas' NaN/None; every number is a `Num`. */
  datatype Value = Missing | Num(x: real) | Flag(b: bool) | Text(s: string)

  /** The dtype classes that `select_dtypes` distinguishes. */
  datatype Dtype = IntDtype | FloatDtype | BoolDtype | ObjectDtype | OtherDtype

  datatype Column = Column(name: string, dtype: Dtype, values: seq<Value>)

  datatype Frame = Frame(columns: seq<Column>)

  predicate HasColumn(df: Frame, name: string) {
    exists i :: 0 <= i < |df.columns| && df.columns[i].name == name
  }

  /** `df[name]`: the cells of the (first) column called `name`, or KeyError. */
  function Lookup(df: Frame, name: string): (r: Result<seq<Value>>)
    ensures r.Ok? <==> HasColumn(df, name)
    ensures r.Err? ==> r.error == KeyError
    ensures r.Ok? ==> exists i :: 0 <= i < |df.columns| && df.columns[i] == Column(name, df.columns[i].dtype, r.value)
    decreases |df.columns|
  {
    if df.columns == [] then Err(KeyError)
    else if df.columns[0].name == name then Ok(df.columns[0].values)
    else
      var r := Lookup(Frame(df.columns[1..]), name);
      assert HasColumn(df, name) <==> HasColumn(Frame(df.columns[1..]), name) by {
        if HasColumn(df, name) {
          var i :| 0 <= i < |df.columns| && df.columns[i].name == name;
          assert df.columns[1..][i - 1].name == name;
        }
        if HasColumn(Frame(df.columns[1..]), name) {
          var i :| 0 <= i < |df.columns| - 1 && df.columns[1..][i].name == name;
          assert df.columns[i + 1].name == name;
        }
      }
      if r.Ok? then
        ghost var i :| 0 <= i < |df.columns| - 1 && df.columns[1..][i] == Column(name, df.columns[1..][i].dtype, r.value);
        assert df.columns[i + 1] == df.columns[1..][i];
        r
      else r
  }

  /** `list(df.select_dtypes(include=...).columns)`: the names of the columns
      whose dtype is included, in column order. */
  function SelectDtypes(cols: seq<Column>, kinds: set<Dtype>): (names: seq<string>)
    ensures |names| <= |cols|
  {
    if cols == [] then []
    else if cols[0].dtype in kinds then [cols[0].name] + SelectDtypes(cols[1..], kinds)
    else SelectDtypes(cols[1..], kinds)
  }

  /** The selected names are exactly the names of the columns of an included dtype. */
  lemma {:induction false} SelectDtypesMembers(cols: seq<Column>, kinds: set<Dtype>)
    ensures forall n :: n in SelectDtypes(cols, kinds) <==> exists c :: c in cols && c.dtype in kinds && c.name == n
  {
    if cols != [] {
      SelectDtypesMembers(cols[1..], kinds);
      assert forall c :: c in cols <==> c == cols[0] || c in cols[1..];
    }
  }

  /** The columns `select_dtypes(include=[int, float])` keeps (bool is not among them). */
  const NumericDtypes: set<Dtype> := {IntDtype, FloatDtype}

  function PresentSum(vs: seq<Value>): real {
    if vs == [] then 0.0
    else PresentSum(vs[..|vs| - 1]) + (if vs[|vs| - 1].Num? then vs[|vs| - 1].x else 0.0)
  }

  function PresentCount(vs: seq<Value>): nat {
    if vs == [] then 0
    else PresentCount(vs[..|vs| - 1]) + (if vs[|vs| - 1].Num? then 1 else 0)
  }

  /** `Series.mean()`: the mean of the numbers present, NaN skipped; NaN when none is present. */
  function ColumnMean(vs: seq<Value>): (m: Value)
    ensures m.Missing? <==> PresentCount(vs) == 0
    ensures m.Num? ==> m.x * (PresentCount(vs) as real) == PresentSum(vs)
  {
    if PresentCount(vs) == 0 then Missing else Num(PresentSum(vs) / PresentCount(vs) as real)
  }

  /** Every number present in `vs` lies in [lo, hi]. */
  predicate PresentWithin(vs: seq<Value>, lo: real, hi: real) {
    forall i :: 0 <= i < |vs| && vs[i].Num? ==> lo <= vs[i].x <= hi
  }

  lemma {:induction false} PresentSumWithin(vs: seq<Value>, lo: real, hi: real)
    requires PresentWithin(vs, lo, hi)
    ensures lo * (PresentCount(vs) as real) <= PresentSum(vs) <= hi * (PresentCount(vs) as real)
  {
    if vs != [] {
      var init := vs[..|vs| - 1];
      assert PresentWithin(init, lo, hi) by {
        forall i | 0 <= i < |init| && init[i].Num? ensures lo <= init[i].x <= hi {
          assert init[i] == vs[i];
        }
      }
      PresentSumWithin(init, lo, hi);
    }
  }

  /** The mean of a column lies between any bounds of its present numbers. */
  lemma ColumnMeanWithin(vs: seq<Value>, lo: real, hi: real)
    requires PresentWithin(vs, lo, hi)
    requires PresentCount(vs) > 0
    ensures ColumnMean(vs).Num? && lo <= ColumnMean(vs).x <= hi
  {
    PresentSumWithin(vs, lo, hi);
    QuotientWithin(PresentSum(vs), PresentCount(vs) as real, lo, hi);
  }

  lemma QuotientWithin(s: real, n: real, lo: real, hi: real)
    requires n > 0.0 && lo * n <= s <= hi * n
    ensures lo <= s / n <= hi
  {
    assert s / n - lo == (s - lo * n) / n;
    assert hi - s / n == (hi * n - s) / n;
  }

  /** `Series.fillna(fill)`: every missing cell becomes `fill`, every other cell is kept. */
  function FillNa(vs: seq<Value>, fill: Value): (r: seq<Value>)
    ensures |r| == |vs|
    ensures forall i :: 0 <= i < |vs| ==> r[i] == (if vs[i].Missing? then fill else vs[i])
  {
    seq(|vs|, i requires 0 <= i < |vs| => if vs[i].Missing? then fill else vs[i])
  }
}
