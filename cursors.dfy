/** The compiled cursor (ydn.db.Cursor) as a record, and the lowering of a
    query's map and reduce to the cursor's projection and reduction. */
module Cursors {
  import opened Outcomes
  import opened Directions
  import opened Wheres
  import opened QueryHelpers
  import opened Builder

  /** A store of the database schema: the fields it has an index on and
      its key path, if any. */
  datatype StoreSchema = StoreSchema(indexes: set<string>, keyPath: Option<string>)

  /** `schema.getStore(name)`: the stores by name. */
  type Schema = map<string, StoreSchema>

  /** The per-row transform a cursor applies: a `mapSelect` projection or
      `ydn.object.takeFirst`. */
  datatype RowMap = SelectFields(fields: Fields) | TakeFirst

  /** A compiled cursor: store, scan direction, index and key range, the
      ordered residual filters, the row transform and the reduction; for the
      statement target also the generated SQL and its parameters. */
  datatype Cursor = Cursor(
    storeName: string,
    direction: Option<Direction>,
    index: Option<string>,
    keyRange: Option<Where>,
    filters: seq<Where>,
    rowMap: Option<RowMap>,
    reducer: Option<Reducer>,
    parseRowIdentity: bool,
    finalizeTakeFirst: bool,
    sql: string,
    params: seq<Value>)

  /** `new ydn.db.Cursor(store, direction, index, keyRange)`, with nothing
      else set yet. */
  function NewCursor(storeName: string, direction: Option<Direction>, index: Option<string>,
                     keyRange: Option<Where>): (r: Cursor)
    ensures r.storeName == storeName && r.direction == direction && r.index == index && r.keyRange == keyRange
    ensures r.filters == [] && r.params == [] && r.sql == ""
    ensures r.rowMap.None? && r.reducer.None? && !r.parseRowIdentity && !r.finalizeTakeFirst
  {
    Cursor(storeName, direction, index, keyRange, [], None, None, false, false, "", [])
  }

  /** The filter loop: `processWhereAsFilter` for each range, in order,
      appends it to the cursor's filters. */
  method ProcessFilters(c: Cursor, ws: seq<Where>) returns (d: Cursor)
    ensures d == c.(filters := c.filters + ws)
  {
    d := c;
    for i := 0 to |ws|
      invariant d == c.(filters := c.filters + ws[..i])
    {
      assert ws[..i + 1] == ws[..i] + [ws[i]];
      d := d.(filters := d.filters + [ws[i]]);
    }
    assert ws[..|ws|] == ws;
  }

  /** `toCursor`'s treatment of `map_`: a select map becomes the cursor's
      projection; any other map is a SqlParseError. */
  function LowerMap(m: Option<QueryMap>): (r: Result<Option<RowMap>>)
    ensures m.None? ==> r == Ok(None)
    ensures m.Some? && m.value.kind == SelectMap ==> r == Ok(Some(SelectFields(m.value.fields)))
    ensures m.Some? && m.value.kind != SelectMap ==> r == Err(SqlParseError)
  {
    match m
    case None => Ok(None)
    case Some(QueryMap(kind, fields)) =>
      if kind == SelectMap then Ok(Some(SelectFields(fields))) else Err(SqlParseError)
  }

  /** `toCursor`'s treatment of `reduce_`: sum, min, max and average need a
      string field, count takes its field along, and any other aggregate is a
      SqlParseError. */
  function LowerReduce(a: Option<Aggregate>): (r: Result<Option<Reducer>>)
    ensures a.None? ==> r == Ok(None)
    ensures a.Some? ==>
      (r.Ok? <==> a.value.kind == Count ||
                  (a.value.field.Some? && a.value.kind in {Sum, Min, Max, Average}))
    ensures r.Err? ==> r.error == SqlParseError
    ensures a.Some? && r.Ok? ==> r.value.Some? && ReducerMatches(a.value, r.value.value)
  {
    match a
    case None => Ok(None)
    case Some(Aggregate(kind, field)) =>
      if kind == Count then Ok(Some(CountReducer(field)))
      else if kind == Sum then (if field.Some? then Ok(Some(SumReducer(field.value))) else Err(SqlParseError))
      else if kind == Min then (if field.Some? then Ok(Some(MinReducer(field.value))) else Err(SqlParseError))
      else if kind == Max then (if field.Some? then Ok(Some(MaxReducer(field.value))) else Err(SqlParseError))
      else if kind == Average then (if field.Some? then Ok(Some(AverageReducer(field.value))) else Err(SqlParseError))
      else Err(SqlParseError)
  }

  /** The reducer is the closure the aggregate's type names, over its field. */
  predicate ReducerMatches(a: Aggregate, red: Reducer) {
    match red
    case CountReducer(f) => a.kind == Count && a.field == f
    case SumReducer(f) => a.kind == Sum && a.field == Some(f)
    case MinReducer(f) => a.kind == Min && a.field == Some(f)
    case MaxReducer(f) => a.kind == Max && a.field == Some(f)
    case AverageReducer(f) => a.kind == Average && a.field == Some(f)
  }

  /** Every reduce the builder accepts compiles to a cursor reduction,
      except an expression, which `toCursor` rejects. */
  lemma AcceptedReduceLowers(how: MethodArg, fields: FieldsArg)
    requires ReduceMethod(how, fields).Ok?
    ensures LowerReduce(Some(ReduceMethod(how, fields).value)).Err? <==> how.Expression?
  {
  }

  /** Every map the builder records compiles to a projection, except an
      expression map, which `toCursor` rejects. */
  lemma RecordedMapLowers(how: MethodArg, fields: FieldsArg)
    requires MapMethod(how, fields).installed.Some?
    ensures LowerMap(MapMethod(how, fields).installed).Err? <==> how.Expression?
  {
  }
}
