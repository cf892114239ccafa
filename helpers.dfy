/** The static helpers of ydn.db.Query that build the closures a cursor
    runs per row: the reduction steps (`reduceCount`, `reduceSum`,
    `reduceMin`, `reduceMax`, `reduceAverage`), the projection
    (`mapSelect`) and the two "take first" helpers. */
module QueryHelpers {
  import opened Outcomes

  /** A JavaScript number as the reductions see it: `undefined` (a missing
      field or no previous value), NaN, or a finite number. */
  datatype Num = Undefined | NaN | Real(r: real)

  /** A stored record whose reduced fields hold numbers. */
  type Row = map<string, real>

  /** `curr[field]`: undefined when the record lacks the field. */
  function FieldOf(row: Row, field: string): (r: Num)
    ensures r.Real? <==> field in row
  {
    if field in row then Real(row[field]) else Undefined
  }

  /** JavaScript `+` on numbers: NaN as soon as an operand is not a number. */
  function Add(a: Num, b: Num): Num {
    if a.Real? && b.Real? then Real(a.r + b.r) else NaN
  }

  /** JavaScript `*` on numbers. */
  function Mul(a: Num, b: Num): Num {
    if a.Real? && b.Real? then Real(a.r * b.r) else NaN
  }

  /** JavaScript `/` by a positive number. */
  function DivPositive(a: Num, d: real): Num
    requires d > 0.0
  {
    if a.Real? then Real(a.r / d) else NaN
  }

  /** JavaScript `<` and `>`: false as soon as an operand is not a number. */
  predicate Less(a: Num, b: Num) { a.Real? && b.Real? && a.r < b.r }
  predicate Greater(a: Num, b: Num) { a.Real? && b.Real? && a.r > b.r }

  /** `!prev` holds for undefined, NaN and zero. */
  predicate Falsy(n: Num) { n.Undefined? || n.NaN? || n == Real(0.0) }

  /** The closure of `reduceCount`: one more than the previous count, a
      falsy previous value counting as zero. */
  function CountStep(prev: Num): (r: Num)
    ensures r.Real?
    ensures Falsy(prev) ==> r == Real(1.0)
    ensures !Falsy(prev) ==> r.r == prev.r + 1.0
  {
    var p := if Falsy(prev) then Real(0.0) else prev;
    Add(p, Real(1.0))
  }

  /** The closure of `reduceSum`: previous total (0 when undefined) plus the
      current field. */
  function SumStep(field: string, prev: Num, curr: Row): (r: Num)
    ensures r.Real? <==> (prev.Undefined? || prev.Real?) && field in curr
    ensures r.Real? && prev.Undefined? ==> r.r == curr[field]
    ensures r.Real? && prev.Real? ==> r.r == prev.r + curr[field]
    ensures !r.Real? ==> r == NaN
  {
    var p := if prev.Undefined? then Real(0.0) else prev;
    Add(p, FieldOf(curr, field))
  }

  /** The closure of `reduceMin`: the current field when there is no
      previous value, otherwise the smaller of the two. */
  function MinStep(field: string, prev: Num, curr: Row): (r: Num)
    ensures r == prev || r == FieldOf(curr, field)
    ensures !prev.Real? ==> r == FieldOf(curr, field)
    ensures field !in curr ==> r == Undefined
    ensures prev.Real? && field in curr ==> r.Real? && r.r <= prev.r && r.r <= curr[field]
  {
    var x := FieldOf(curr, field);
    if prev.Undefined? then x
    else if Less(prev, x) then prev else x
  }

  /** The closure of `reduceMax`, symmetric to MinStep. */
  function MaxStep(field: string, prev: Num, curr: Row): (r: Num)
    ensures r == prev || r == FieldOf(curr, field)
    ensures !prev.Real? ==> r == FieldOf(curr, field)
    ensures field !in curr ==> r == Undefined
    ensures prev.Real? && field in curr ==> r.Real? && r.r >= prev.r && r.r >= curr[field]
  {
    var x := FieldOf(curr, field);
    if prev.Undefined? then x
    else if Greater(prev, x) then prev else x
  }

  /** The closure of `reduceAverage`: the online mean
      `(prev * i + curr[field]) / (i + 1)` for the zero-based ordinal `i`. */
  function AverageStep(field: string, prev: Num, curr: Row, i: nat): (r: Num)
    ensures r.Real? <==> (prev.Undefined? || prev.Real?) && field in curr
    ensures !r.Real? ==> r == NaN
  {
    var p := if prev.Undefined? then Real(0.0) else prev;
    DivPositive(Add(Mul(p, Real(i as real)), FieldOf(curr, field)), i as real + 1.0)
  }

  /** The reduction a compiled cursor carries. */
  datatype Reducer =
    | CountReducer(countField: Option<string>)
    | SumReducer(field: string)
    | MinReducer(field: string)
    | MaxReducer(field: string)
    | AverageReducer(field: string)

  /** One call of the reducer's closure. */
  function Step(red: Reducer, prev: Num, curr: Row, i: nat): Num {
    match red
    case CountReducer(_) => CountStep(prev)
    case SumReducer(f) => SumStep(f, prev, curr)
    case MinReducer(f) => MinStep(f, prev, curr)
    case MaxReducer(f) => MaxStep(f, prev, curr)
    case AverageReducer(f) => AverageStep(f, prev, curr, i)
  }

  /** The reducer folded over the rows in order, starting from undefined,
      with each row's zero-based ordinal (the way the executing cursor
      calls it). No rows leave the result undefined; a count over any rows
      is a number. */
  function ReduceRows(red: Reducer, rows: seq<Row>): (r: Num)
    ensures rows == [] ==> r == Undefined
    ensures red.CountReducer? && rows != [] ==> r.Real?
    decreases |rows|
  {
    if rows == [] then Undefined
    else Step(red, ReduceRows(red, rows[..|rows| - 1]), rows[|rows| - 1], |rows| - 1)
  }

  /** The last row's step on top of the reduction of the others. */
  lemma ReduceLast(red: Reducer, rows: seq<Row>)
    requires rows != []
    ensures ReduceRows(red, rows) == Step(red, ReduceRows(red, rows[..|rows| - 1]), rows[|rows| - 1], |rows| - 1)
  {
  }

  /** Every row holds the field. */
  predicate AllHave(rows: seq<Row>, field: string) {
    forall k :: 0 <= k < |rows| ==> field in rows[k]
  }

  /** The plain sum of the field over the rows. */
  function FieldSum(rows: seq<Row>, field: string): real
    requires AllHave(rows, field)
    decreases |rows|
  {
    if rows == [] then 0.0
    else FieldSum(rows[..|rows| - 1], field) + rows[|rows| - 1][field]
  }

  /** `count` over n rows yields n, whatever the field. */
  lemma {:induction false} CountCountsRows(f: Option<string>, rows: seq<Row>)
    requires rows != []
    ensures ReduceRows(CountReducer(f), rows) == Real(|rows| as real)
    decreases |rows|
  {
    var init := rows[..|rows| - 1];
    if init != [] {
      CountCountsRows(f, init);
    }
  }

  /** A row without the field makes the whole sum NaN: NaN, unlike
      undefined, is never replaced by 0 at a later step. */
  lemma {:induction false} SumMissingFieldIsNaN(f: string, rows: seq<Row>, k: nat)
    requires k < |rows| && f !in rows[k]
    ensures ReduceRows(SumReducer(f), rows) == NaN
    decreases |rows|
  {
    var init := rows[..|rows| - 1];
    if k < |rows| - 1 {
      assert init[k] == rows[k];
      SumMissingFieldIsNaN(f, init, k);
    }
  }

  /** `sum` yields the sum of the field over the rows. */
  lemma {:induction false} SumIsFieldSum(f: string, rows: seq<Row>)
    requires rows != [] && AllHave(rows, f)
    ensures ReduceRows(SumReducer(f), rows) == Real(FieldSum(rows, f))
    decreases |rows|
  {
    var init := rows[..|rows| - 1];
    assert AllHave(init, f);
    if init != [] {
      SumIsFieldSum(f, init);
    }
  }

  /** `min` yields a value of the field that no row undercuts. */
  lemma {:induction false} MinIsMinimum(f: string, rows: seq<Row>)
    requires rows != [] && AllHave(rows, f)
    ensures ReduceRows(MinReducer(f), rows).Real?
    ensures forall k :: 0 <= k < |rows| ==> ReduceRows(MinReducer(f), rows).r <= rows[k][f]
    ensures exists k :: 0 <= k < |rows| && ReduceRows(MinReducer(f), rows).r == rows[k][f]
    decreases |rows|
  {
    var n := |rows|;
    var init := rows[..n - 1];
    assert AllHave(init, f);
    if init != [] {
      MinIsMinimum(f, init);
      var k :| 0 <= k < |init| && ReduceRows(MinReducer(f), init).r == init[k][f];
      var r := ReduceRows(MinReducer(f), rows);
      if r.r == rows[n - 1][f] {
        assert 0 <= n - 1 < n && r.r == rows[n - 1][f];
      } else {
        assert r.r == rows[k][f];
      }
    } else {
      assert ReduceRows(MinReducer(f), rows).r == rows[0][f];
    }
  }

  /** `max` yields a value of the field that no row exceeds. */
  lemma {:induction false} MaxIsMaximum(f: string, rows: seq<Row>)
    requires rows != [] && AllHave(rows, f)
    ensures ReduceRows(MaxReducer(f), rows).Real?
    ensures forall k :: 0 <= k < |rows| ==> ReduceRows(MaxReducer(f), rows).r >= rows[k][f]
    ensures exists k :: 0 <= k < |rows| && ReduceRows(MaxReducer(f), rows).r == rows[k][f]
    decreases |rows|
  {
    var n := |rows|;
    var init := rows[..n - 1];
    assert AllHave(init, f);
    if init != [] {
      MaxIsMaximum(f, init);
      var k :| 0 <= k < |init| && ReduceRows(MaxReducer(f), init).r == init[k][f];
      var r := ReduceRows(MaxReducer(f), rows);
      if r.r == rows[n - 1][f] {
        assert 0 <= n - 1 < n && r.r == rows[n - 1][f];
      } else {
        assert r.r == rows[k][f];
      }
    } else {
      assert ReduceRows(MaxReducer(f), rows).r == rows[0][f];
    }
  }

  /** One step of the online mean over exact reals: from the mean of the
      first i values, the step yields the mean of the first i + 1. */
  lemma MeanStep(f: string, s: real, row: Row, i: nat)
    requires i > 0 && f in row
    ensures AverageStep(f, Real(s / i as real), row, i) == Real((s + row[f]) / (i as real + 1.0))
  {
    var m := i as real;
    assert (s / m) * m == s;
  }

  /** x / 1 == x, with the divisor a count. */
  lemma DivideByOne(x: real, n: nat)
    requires n == 1
    ensures x / n as real == x
  {
  }

  /** The first `average` step yields the first value. */
  lemma AverageFirst(f: string, row: Row)
    requires f in row
    ensures AverageStep(f, Undefined, row, 0) == Real(row[f])
  {
    var x := row[f];
    assert DivPositive(Add(Mul(Real(0.0), Real(0 as real)), Real(x)), 0 as real + 1.0) == Real(x);
  }

  /** Over one row, `average` yields that row's value. */
  lemma AverageOfOne(f: string, rows: seq<Row>)
    requires |rows| == 1 && AllHave(rows, f)
    ensures ReduceRows(AverageReducer(f), rows) == Real(FieldSum(rows, f) / |rows| as real)
  {
    assert rows[..0] == [];
    assert FieldSum(rows, f) == rows[0][f];
    DivideByOne(FieldSum(rows, f), |rows|);
    AverageFirst(f, rows[0]);
    ReduceLast(AverageReducer(f), rows);
  }

  /** The online mean of `average` equals the two-pass mean: the sum of the
      field divided by the number of rows (over exact reals). */
  lemma {:induction false} AverageIsMean(f: string, rows: seq<Row>)
    requires rows != [] && AllHave(rows, f)
    ensures ReduceRows(AverageReducer(f), rows) == Real(FieldSum(rows, f) / |rows| as real)
    decreases |rows|
  {
    var n := |rows|;
    var init := rows[..n - 1];
    assert AllHave(init, f);
    if init == [] {
      AverageOfOne(f, rows);
    } else {
      AverageIsMean(f, init);
      ReduceLast(AverageReducer(f), rows);
      MeanStep(f, FieldSum(init, f), rows[n - 1], n - 1);
      assert FieldSum(rows, f) == FieldSum(init, f) + rows[n - 1][f];
      assert |rows| as real == (n - 1) as real + 1.0;
    }
  }

  /** The field selection of a `select` map. */
  datatype Fields = OneField(name: string) | FieldList(names: seq<string>)

  /** What the projection returns: the field's value for one field name, an
      object with one property per listed name for a list. */
  datatype Projection<T> = Single(value: Option<T>) | Record(entries: map<string, Option<T>>)

  /** `data[field]`: undefined when absent. */
  function Get<T>(data: map<string, T>, field: string): (r: Option<T>)
    ensures r.Some? <==> field in data
  {
    if field in data then Some(data[field]) else None
  }

  /** The closure of `mapSelect(fields)` applied to one record. A list
      builds its object property by property in a loop; every listed name
      becomes a property, holding undefined when the record lacks it. */
  method MapSelect<T>(fields: Fields, data: map<string, T>) returns (p: Projection<T>)
    ensures fields.OneField? ==> p == Single(Get(data, fields.name))
    ensures fields.FieldList? ==> p.Record?
    ensures fields.FieldList? ==> forall f :: f in p.entries <==> f in fields.names
    ensures fields.FieldList? ==> forall f :: f in p.entries ==> p.entries[f] == Get(data, f)
  {
    match fields
    case OneField(name) =>
      p := Single(Get(data, name));
    case FieldList(names) =>
      var selected: map<string, Option<T>> := map[];
      var i := 0;
      while i < |names|
        invariant i <= |names|
        invariant forall f :: f in selected <==> f in names[..i]
        invariant forall f :: f in selected ==> selected[f] == Get(data, f)
      {
        assert names[..i + 1] == names[..i] + [names[i]];
        selected := selected[names[i] := Get(data, names[i])];
        i := i + 1;
      }
      assert names[..i] == names;
      p := Record(selected);
  }

  /** A value that is either an array or something else. */
  datatype ArrayOrOther<T> = ArrayValue(items: seq<T>) | OtherValue

  /** `finalizeTakeFirst`: the first element of an array, undefined for an
      empty array or anything that is not an array. */
  function FinalizeTakeFirst<T>(arr: ArrayOrOther<T>): (r: Option<T>)
    ensures r.Some? <==> arr.ArrayValue? && |arr.items| > 0
    ensures r.Some? ==> r.value == arr.items[0]
  {
    match arr
    case ArrayValue(items) => if |items| > 0 then Some(items[0]) else None
    case OtherValue => None
  }

  /** A property met by `for (key in row)`, with whether it is the row's own. */
  datatype Property<T> = Property(key: string, value: T, own: bool)

  /** `parseRowTakeFirst`: the value of the first own property in
      enumeration order, undefined when there is none. */
  method ParseRowTakeFirst<T>(row: seq<Property<T>>) returns (r: Option<T>)
    ensures r.None? <==> forall k :: 0 <= k < |row| ==> !row[k].own
    ensures r.Some? ==> exists k :: 0 <= k < |row| && row[k].own && r.value == row[k].value &&
                                    forall j :: 0 <= j < k ==> !row[j].own
  {
    var i := 0;
    while i < |row|
      invariant i <= |row|
      invariant forall j :: 0 <= j < i ==> !row[j].own
    {
      if row[i].own {
        return Some(row[i].value);
      }
      i := i + 1;
    }
    r := None;
  }
}
