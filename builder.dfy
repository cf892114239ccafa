/** The argument rules of the builder calls `reduce` and `map`: which
    method names and field arguments they accept and what they record. */
module Builder {
  import opened Outcomes
  import opened QueryHelpers

  /** ydn.db.Query.AggregateType. */
  datatype AggregateType = Count | Sum | Average | Max | Min | SelectAggregate | Concat | ExpressionAggregate

  /** The recorded `reduce_`. */
  datatype Aggregate = Aggregate(kind: AggregateType, field: Option<string>)

  /** ydn.db.Query.MapType. */
  datatype MapType = SelectMap | ExpressionMap

  /** The recorded `map_`. */
  datatype QueryMap = QueryMap(kind: MapType, fields: Fields)

  /** The method argument: a ydn.math.Expression, a string, or anything else. */
  datatype MethodArg = Expression | Name(name: string) | NotAMethod

  /** The fields argument: undefined, a string, an array of strings, or
      anything else. */
  datatype FieldsArg = NoFields | FieldName(name: string) | FieldNames(names: seq<string>) | OtherFields

  /** `String.prototype.toLowerCase` on ASCII letters. */
  function LowerChar(c: char): char {
    if 'A' <= c <= 'Z' then (c as int + 32) as char else c
  }

  function Lower(s: string): (r: string)
    ensures |r| == |s|
    ensures forall k :: 0 <= k < |s| ==> r[k] == LowerChar(s[k])
  {
    seq(|s|, k requires 0 <= k < |s| => LowerChar(s[k]))
  }

  /** Reduce methods that need a string field. */
  predicate NeedsField(m: string) { m == "avg" || m == "min" || m == "max" || m == "sum" }

  /** The aggregate type a reduce method name records. */
  function KindOf(m: string): AggregateType
    requires NeedsField(m) || m == "count"
  {
    if m == "avg" then Average
    else if m == "min" then Min
    else if m == "max" then Max
    else if m == "sum" then Sum
    else Count
  }

  /** The aggregates `reduce` can record. */
  predicate Installable(a: Aggregate) {
    match a.kind
    case Sum | Average | Max | Min => a.field.Some?
    case Count => true
    case ExpressionAggregate => a.field.None?
    case _ => false
  }

  /** `reduce(method, fields)` on a query with no reduce yet: an expression
      records the EXPRESSION aggregate with no field, the expression itself
      being dropped; a method name, compared case-insensitively, must be
      avg, min, max or sum with a string field, or count with a string field
      or none. Everything else is an ArgumentException. */
  function ReduceMethod(how: MethodArg, fields: FieldsArg): (r: Result<Aggregate>)
    ensures how.NotAMethod? ==> r == Err(ArgumentError)
    ensures how.Expression? ==> r == Ok(Aggregate(ExpressionAggregate, None))
    ensures how.Name? ==>
      (r.Ok? <==> (NeedsField(Lower(how.name)) && fields.FieldName?) ||
                  (Lower(how.name) == "count" && (fields.FieldName? || fields.NoFields?)))
    ensures how.Name? && r.Ok? ==>
      r.value.kind == KindOf(Lower(how.name)) &&
      r.value.field == (if fields.FieldName? then Some(fields.name) else None)
    ensures r.Err? ==> r.error == ArgumentError
    ensures r.Ok? ==> Installable(r.value)
  {
    match how
    case Expression => Ok(Aggregate(ExpressionAggregate, None))
    case NotAMethod => Err(ArgumentError)
    case Name(name) =>
      var m := Lower(name);
      if NeedsField(m) then
        if fields.FieldName? then Ok(Aggregate(KindOf(m), Some(fields.name))) else Err(ArgumentError)
      else if m == "count" then
        if fields.FieldName? then Ok(Aggregate(Count, Some(fields.name)))
        else if fields.NoFields? then Ok(Aggregate(Count, None))
        else Err(ArgumentError)
      else Err(ArgumentError)
  }

  /** `fields` is a string or an array. */
  predicate IsFieldSelection(fields: FieldsArg) { fields.FieldName? || fields.FieldNames? }

  function AsFields(fields: FieldsArg): Fields
    requires IsFieldSelection(fields)
  {
    if fields.FieldName? then OneField(fields.name) else FieldList(fields.names)
  }

  /** What `map(method, fields)` does to a query with no map yet: the map
      it records, if any, and whether it then returns or throws. */
  datatype MapEffect = MapEffect(installed: Option<QueryMap>, outcome: Outcome)

  /** `map(method, fields)` on a query with no map yet. Only `select`
      (case-insensitive) with a string or an array succeeds. An expression
      with a string or an array records an expression map and then still
      throws, because its method name stays empty. */
  function MapMethod(how: MethodArg, fields: FieldsArg): (r: MapEffect)
    ensures r.outcome.Done? <==> how.Name? && Lower(how.name) == "select" && IsFieldSelection(fields)
    ensures r.outcome.Fail? ==> r.outcome.error == ArgumentError
    ensures r.installed.Some? <==>
      IsFieldSelection(fields) && (how.Expression? || (how.Name? && Lower(how.name) == "select"))
    ensures r.installed.Some? ==>
      r.installed.value.fields == AsFields(fields) &&
      (r.installed.value.kind == ExpressionMap <==> how.Expression?)
  {
    match how
    case Expression =>
      if IsFieldSelection(fields) then MapEffect(Some(QueryMap(ExpressionMap, AsFields(fields))), Fail(ArgumentError))
      else MapEffect(None, Fail(ArgumentError))
    case NotAMethod => MapEffect(None, Fail(ArgumentError))
    case Name(name) =>
      if Lower(name) == "select" && IsFieldSelection(fields) then
        MapEffect(Some(QueryMap(SelectMap, AsFields(fields))), Done)
      else MapEffect(None, Fail(ArgumentError))
  }
}
