/** The text of the statement `toSqlCursor` generates: the SELECT part, the
    WHERE clause with its parameters, ORDER BY and LIMIT/OFFSET. */
module SqlText {
  import opened Outcomes
  import opened Directions
  import opened Wheres
  import opened QueryHelpers
  import opened Builder
  import opened Cursors

  /** What `Where.toWhereClause` yields: SQL text and its bound parameters. */
  datatype Clause = Clause(sql: string, params: seq<Value>)

  /** The functions the statement generator calls but this model does not
      define: `goog.string.quote`, `Where.toWhereClause`, the name of SQLite's
      row-id column, and JavaScript's number-to-string conversion. */
  datatype Collaborators = Collaborators(
    quote: string -> string,
    whereClause: Where -> Clause,
    rowIdColumn: string,
    numberText: real -> string)

  predicate StartsWith(s: string, p: string) { |p| <= |s| && s[..|p|] == p }

  predicate EndsWith(s: string, p: string) { |p| <= |s| && s[|s| - |p|..] == p }

  /** `Array.prototype.join`. */
  function Join(sep: string, parts: seq<string>): (r: string)
    ensures |parts| == 1 ==> r == parts[0]
  {
    if |parts| == 0 then ""
    else if |parts| == 1 then parts[0]
    else Join(sep, parts[..|parts| - 1]) + sep + parts[|parts| - 1]
  }

  function QuoteAll(quote: string -> string, names: seq<string>): (r: seq<string>)
    ensures |r| == |names|
    ensures forall k :: 0 <= k < |names| ==> r[k] == quote(names[k])
  {
    seq(|names|, k requires 0 <= k < |names| => quote(names[k]))
  }

  /** The selected fields as an array: a single name is wrapped. */
  function FieldNames(fields: Fields): seq<string> {
    match fields
    case OneField(name) => [name]
    case FieldList(names) => names
  }

  /** The SELECT text a map contributes: a select map lists its quoted
      fields; an expression map is a SqlParseError. */
  function MapSelectText(m: QueryMap, quote: string -> string): (r: Result<string>)
    ensures r.Ok? <==> m.kind == SelectMap
    ensures r.Err? ==> r.error == SqlParseError
    ensures r.Ok? ==> StartsWith(r.value, "SELECT (") && EndsWith(r.value, ")")
  {
    if m.kind == SelectMap then Ok("SELECT (" + Join(", ", QuoteAll(quote, FieldNames(m.fields))) + ")")
    else Err(SqlParseError)
  }

  /** The aggregates the statement generator can express. */
  predicate SqlAggregate(kind: AggregateType) { kind == Count || kind == Sum || kind == Average }

  function AggregateName(kind: AggregateType): string
    requires SqlAggregate(kind)
  {
    if kind == Count then "COUNT" else if kind == Sum then "SUM" else "AVG"
  }

  /** The SELECT text a reduce contributes: COUNT, SUM or AVG over the quoted
      field, or over `*` without one, DISTINCT when the direction is unique;
      any other aggregate is a SqlParseError. */
  function ReduceSelectText(a: Aggregate, distinct: bool, quote: string -> string): (r: Result<string>)
    ensures r.Ok? <==> SqlAggregate(a.kind)
    ensures r.Err? ==> r.error == SqlParseError
    ensures r.Ok? ==>
      var head := "SELECT " + AggregateName(a.kind) + " (" + (if distinct then "DISTINCT " else "");
      StartsWith(r.value, head) &&
      (a.field.Some? ==> EndsWith(r.value, quote(a.field.value) + ")")) &&
      (a.field.None? ==> EndsWith(r.value, "*)"))
  {
    if SqlAggregate(a.kind) then
      Ok("SELECT " + AggregateName(a.kind) + " (" + (if distinct then "DISTINCT " else "") +
         (if a.field.Some? then quote(a.field.value) else "*") + ")")
    else Err(SqlParseError)
  }

  /** The SELECT part of the statement and what it installs on the cursor. */
  datatype SelectPlan = SelectPlan(text: string, rowMap: Option<RowMap>, parseRowIdentity: bool, finalizeTakeFirst: bool)

  /** The SELECT part: the map's text followed by the reduce's, or
      `SELECT *` when there is neither. A reduce replaces the map's
      projection by take-first and adds the take-first finalizer. */
  function SelectPart(m: Option<QueryMap>, a: Option<Aggregate>, distinct: bool, quote: string -> string): (r: Result<SelectPlan>)
    ensures r.Ok? <==> (m.None? || m.value.kind == SelectMap) && (a.None? || SqlAggregate(a.value.kind))
    ensures r.Err? ==> r.error == SqlParseError
    ensures r.Ok? && m.None? && a.None? ==>
      r.value == SelectPlan("SELECT *" + (if distinct then " DISTINCT" else ""), None, false, false)
    ensures r.Ok? ==> StartsWith(r.value.text, "SELECT ")
    ensures r.Ok? ==> (r.value.parseRowIdentity <==> m.Some? || a.Some?)
    ensures r.Ok? ==> (r.value.finalizeTakeFirst <==> a.Some?)
    ensures r.Ok? && a.Some? ==> r.value.rowMap == Some(TakeFirst)
    ensures r.Ok? && a.None? && m.Some? ==> r.value.rowMap == Some(SelectFields(m.value.fields))
    // with a map or a reduce, the map's text is followed by the reduce's
    ensures r.Ok? && (m.Some? || a.Some?) ==>
      r.value.text == (if m.Some? then MapSelectText(m.value, quote).value else "") +
                      (if a.Some? then ReduceSelectText(a.value, distinct, quote).value else "")
  {
    var mapText := if m.Some? then MapSelectText(m.value, quote) else Ok("");
    if mapText.Err? then Err(mapText.error)
    else
      var reduceText := if a.Some? then ReduceSelectText(a.value, distinct, quote) else Ok("");
      if reduceText.Err? then Err(reduceText.error)
      else
        var text := mapText.value + reduceText.value;
        if |text| == 0 then Ok(SelectPlan("SELECT *" + (if distinct then " DISTINCT" else ""), None, false, false))
        else
          var rowMap := if a.Some? then Some(TakeFirst) else Some(SelectFields(m.value.fields));
          Ok(SelectPlan(text, rowMap, true, a.Some?))
  }

  /** The SQL texts of the given ranges' clauses, in order. */
  function ClauseTexts(ws: seq<Where>, clauseOf: Where -> Clause): (r: seq<string>)
    ensures |r| == |ws|
    ensures forall k :: 0 <= k < |ws| ==> r[k] == clauseOf(ws[k]).sql
  {
    seq(|ws|, k requires 0 <= k < |ws| => clauseOf(ws[k]).sql)
  }

  /** The parameters of the given ranges' clauses, concatenated in order. */
  function ClauseParams(ws: seq<Where>, clauseOf: Where -> Clause): seq<Value> {
    if |ws| == 0 then [] else ClauseParams(ws[..|ws| - 1], clauseOf) + clauseOf(ws[|ws| - 1]).params
  }

  /** The WHERE clause: the clauses of the ranges on indexed fields, joined
      by AND, or nothing when no range is on an indexed field. */
  function WhereText(ws: seq<Where>, indexes: set<string>, clauseOf: Where -> Clause): (r: string)
    ensures r == "" <==> Indexed(ws, indexes) == []
    ensures r != "" ==> StartsWith(r, "WHERE ")
  {
    var parts := ClauseTexts(Indexed(ws, indexes), clauseOf);
    if parts == [] then "" else "WHERE " + Join(" AND ", parts)
  }

  /** One more range on an indexed field extends the WHERE clause by its
      own clause, after `WHERE ` or ` AND `. */
  lemma WhereTextStep(ws: seq<Where>, w: Where, indexes: set<string>, clauseOf: Where -> Clause)
    requires w.field in indexes
    ensures WhereText(ws + [w], indexes, clauseOf) ==
      (if WhereText(ws, indexes, clauseOf) == "" then "WHERE " else WhereText(ws, indexes, clauseOf) + " AND ")
      + clauseOf(w).sql
  {
    assert (ws + [w])[..|ws|] == ws;
    var before := Indexed(ws, indexes);
    assert Indexed(ws + [w], indexes) == before + [w];
    var parts := ClauseTexts(before, clauseOf);
    assert ClauseTexts(before + [w], clauseOf) == parts + [clauseOf(w).sql];
    if parts != [] {
      assert (parts + [clauseOf(w).sql])[..|parts|] == parts;
    }
  }

  /** How one more range changes the parts the WHERE loop builds. */
  lemma WheresStep(ws: seq<Where>, w: Where, indexes: set<string>, clauseOf: Where -> Clause)
    ensures w.field in indexes ==>
      Indexed(ws + [w], indexes) == Indexed(ws, indexes) + [w] &&
      NonIndexed(ws + [w], indexes) == NonIndexed(ws, indexes) &&
      ClauseParams(Indexed(ws + [w], indexes), clauseOf) ==
        ClauseParams(Indexed(ws, indexes), clauseOf) + clauseOf(w).params
    ensures w.field !in indexes ==>
      Indexed(ws + [w], indexes) == Indexed(ws, indexes) &&
      NonIndexed(ws + [w], indexes) == NonIndexed(ws, indexes) + [w]
  {
    assert (ws + [w])[..|ws|] == ws;
    var before := Indexed(ws, indexes);
    assert (before + [w])[..|before|] == before;
  }

  /** The WHERE loop of `toSqlCursor`: ranges on indexed fields become the
      WHERE clause and contribute their parameters; the others become
      filters, in their order. */
  method CompileWheres(ws: seq<Where>, indexes: set<string>, clauseOf: Where -> Clause)
    returns (text: string, params: seq<Value>, filters: seq<Where>)
    ensures text == WhereText(ws, indexes, clauseOf)
    ensures params == ClauseParams(Indexed(ws, indexes), clauseOf)
    ensures filters == NonIndexed(ws, indexes)
  {
    text, params, filters := "", [], [];
    for i := 0 to |ws|
      invariant text == WhereText(ws[..i], indexes, clauseOf)
      invariant params == ClauseParams(Indexed(ws[..i], indexes), clauseOf)
      invariant filters == NonIndexed(ws[..i], indexes)
    {
      var w := ws[i];
      assert ws[..i + 1] == ws[..i] + [w];
      WheresStep(ws[..i], w, indexes, clauseOf);
      if w.field in indexes {
        WhereTextStep(ws[..i], w, indexes, clauseOf);
        if |text| > 0 {
          text := text + " AND ";
        } else {
          text := text + "WHERE ";
        }
        var clause := clauseOf(w);
        text := text + clause.sql;
        if |clause.params| > 0 {
          params := params + clause.params;
        }
      } else {
        filters := filters + [w];
      }
    }
    assert ws[..|ws|] == ws;
  }

  /** The field the statement orders by: the query's index, else the
      store's key path, both quoted, else SQLite's row-id column. */
  function OrderField(index: Option<string>, keyPath: Option<string>, env: Collaborators): (r: string)
    ensures index.Some? ==> r == env.quote(index.value)
    ensures index.None? && keyPath.Some? ==> r == env.quote(keyPath.value)
    ensures index.None? && keyPath.None? ==> r == env.rowIdColumn
  {
    if index.Some? then env.quote(index.value)
    else if keyPath.Some? then env.quote(keyPath.value)
    else env.rowIdColumn
  }

  /** The ORDER BY clause: descending exactly when the direction is backward. */
  function OrderClause(field: string, direction: Option<Direction>): (r: string)
    ensures StartsWith(r, "ORDER BY " + field)
    ensures EndsWith(r, " DESC") <==> IsBackward(direction)
    ensures EndsWith(r, " ASC") <==> !IsBackward(direction)
  {
    var r := "ORDER BY " + field + (if IsBackward(direction) then " DESC" else " ASC");
    assert r[..|"ORDER BY " + field|] == "ORDER BY " + field;
    if IsBackward(direction) then
      assert r[|r| - 4..] != " ASC" by { assert r[|r| - 4] == 'D'; }
      r
    else
      assert r[|r| - 5..] != " DESC" by { assert r[|r| - 1] == 'C'; assert r[|r| - 4] == ' '; }
      r
  }

  /** The LIMIT/OFFSET suffix: empty exactly when neither is set. */
  function RangeText(limit: Option<real>, offset: Option<real>, numberText: real -> string): (r: string)
    ensures r == "" <==> limit.None? && offset.None?
    ensures limit.Some? ==> StartsWith(r, " LIMIT " + numberText(limit.value))
    ensures offset.Some? ==> EndsWith(r, " OFFSET " + numberText(offset.value))
    ensures limit.None? && offset.Some? ==> r == " OFFSET " + numberText(offset.value)
  {
    var l := if limit.Some? then " LIMIT " + numberText(limit.value) else "";
    var o := if offset.Some? then " OFFSET " + numberText(offset.value) else "";
    assert (l + o)[..|l|] == l;
    assert (l + o)[|l + o| - |o|..] == o;
    l + o
  }

  /** The statement: its five parts separated by single spaces, as joining
      them with a space would give. */
  function Statement(select: string, from: string, where: string, order: string, range: string): (r: string)
    ensures r == Join(" ", [select, from, where, order, range])
  {
    assert [select, from][..1] == [select];
    assert Join(" ", [select, from]) == select + " " + from;
    assert [select, from, where][..2] == [select, from];
    assert Join(" ", [select, from, where]) == select + " " + from + " " + where;
    assert [select, from, where, order][..3] == [select, from, where];
    assert Join(" ", [select, from, where, order]) == select + " " + from + " " + where + " " + order;
    assert [select, from, where, order, range][..4] == [select, from, where, order];
    select + " " + from + " " + where + " " + order + " " + range
  }
}
