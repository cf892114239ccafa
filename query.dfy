/** ydn.db.Query: a query builder whose calls record a store, ranges,
    direction, index, map, reduce, limit and offset, and which compiles
    either to a cursor for IndexedDB or to a SQL statement for WebSQL. */
module Queries {
  import opened Outcomes
  import opened Directions
  import opened Wheres
  import opened QueryHelpers
  import opened Builder
  import opened Cursors
  import opened SqlText

  class Query {
    /** The statement the query was made from; it is kept, never parsed. */
    var sql: string
    /** The private `sql_` statement; nothing but its declaration gives it
        a value, so it stays empty. */
    var sqlPrivate: string
    var storeName: string
    /** The ranges, in the order `where` added them. */
    var wheres: seq<Where>
    /** `reduce_`. */
    var reduction: Option<Aggregate>
    /** `map_`. */
    var mapping: Option<QueryMap>
    var direction: Option<Direction>
    var index: Option<string>
    /** `limit_` and `offset_`; NaN (not set) is None. */
    var limit: Option<real>
    var offset: Option<real>

    /** No field carries two ranges, and a recorded reduce is one `reduce`
        can record. */
    predicate Valid()
      reads this
    {
      DistinctFields(wheres) && (reduction.Some? ==> Installable(reduction.value))
    }

    /** `new ydn.db.Query(sql)`: an empty query. */
    constructor(statement: Option<string>)
      ensures Valid()
      ensures sql == (if statement.Some? then statement.value else "") && sqlPrivate == ""
      ensures storeName == "" && wheres == [] && reduction == None && mapping == None
      ensures direction == None && index == None && limit == None && offset == None
    {
      sql := if statement.Some? then statement.value else "";
      sqlPrivate := "";
      storeName := "";
      wheres := [];
      reduction := None;
      mapping := None;
      direction := None;
      index := None;
      limit := None;
      offset := None;
    }

    method From(name: string)
      modifies this`storeName
      ensures storeName == name
    {
      storeName := name;
    }

    /** `unique(value)`: sets uniqueness and keeps a forward direction
        forward; an unset or backward direction becomes backward. */
    method Unique(value: bool)
      modifies this`direction
      ensures direction == Some(WithUnique(old(direction), value))
      ensures IsUnique(direction) == value
      ensures IsForward(direction) == IsForward(old(direction))
    {
      direction := Some(WithUnique(direction, value));
    }

    /** `reverse(value)`: sets the scan order and keeps uniqueness. */
    method Reverse(value: bool)
      modifies this`direction
      ensures direction == Some(WithReverse(old(direction), value))
      ensures IsBackward(direction) == value
      ensures IsUnique(direction) == IsUnique(old(direction))
    {
      direction := Some(WithReverse(direction, value));
    }

    method Order(name: string)
      modifies this`index
      ensures index == Some(name)
    {
      index := Some(name);
    }

    /** `where(field, op, value, op2, value2)`: a second range on a field,
        or a second operator that is not relational, is an
        ArgumentException and adds nothing; otherwise the range is
        appended. */
    method Where(field: string, op: string, value: Option<Value>, op2: Option<string>, value2: Option<Value>)
      returns (r: Outcome)
      requires Valid()
      modifies this`wheres
      ensures Valid()
      ensures var made := MakeWhere(field, op, value, op2, value2);
        if HasField(old(wheres), field) || made.Err? then r == Fail(ArgumentError) && wheres == old(wheres)
        else r == Done && wheres == old(wheres) + [made.value]
    {
      if HasField(wheres, field) {
        return Fail(ArgumentError);
      }
      var made := MakeWhere(field, op, value, op2, value2);
      if made.Err? {
        return Fail(made.error);
      }
      AppendKeepsDistinct(wheres, made.value);
      wheres := wheres + [made.value];
      r := Done;
    }

    /** `reduce(method, fields)`: a second reduce is an ArgumentException;
        otherwise the argument rules decide. */
    method Reduce(how: MethodArg, fields: FieldsArg) returns (r: Outcome)
      requires Valid()
      modifies this`reduction
      ensures Valid()
      ensures old(reduction).Some? ==> r == Fail(ArgumentError) && reduction == old(reduction)
      ensures old(reduction).None? ==>
        var made := ReduceMethod(how, fields);
        if made.Ok? then r == Done && reduction == Some(made.value)
        else r == Fail(ArgumentError) && reduction == None
    {
      if reduction.Some? {
        return Fail(ArgumentError);
      }
      var made := ReduceMethod(how, fields);
      if made.Err? {
        return Fail(made.error);
      }
      reduction := Some(made.value);
      r := Done;
    }

    /** `map(method, fields)`: a second map is a ConstraintError; otherwise
        the argument rules decide, and an expression map is recorded even
        though the call throws. */
    method Map(how: MethodArg, fields: FieldsArg) returns (r: Outcome)
      modifies this`mapping
      ensures old(mapping).Some? ==> r == Fail(ConstraintError) && mapping == old(mapping)
      ensures old(mapping).None? ==> r == MapMethod(how, fields).outcome && mapping == MapMethod(how, fields).installed
    {
      if mapping.Some? {
        return Fail(ConstraintError);
      }
      var effect := MapMethod(how, fields);
      mapping := effect.installed;
      r := effect.outcome;
    }

    /** `limit(value)`: only a number above zero is accepted. */
    method Limit(value: Num) returns (r: Outcome)
      modifies this`limit
      ensures r.Done? <==> value.Real? && value.r > 0.0
      ensures r.Done? ==> limit == Some(value.r)
      ensures r.Fail? ==> r.error == ArgumentError && limit == old(limit)
    {
      if value.Real? && value.r > 0.0 {
        limit := Some(value.r);
        r := Done;
      } else {
        r := Fail(ArgumentError);
      }
    }

    /** `offset(value)`: only a number of at least zero is accepted. */
    method Offset(value: Num) returns (r: Outcome)
      modifies this`offset
      ensures r.Done? <==> value.Real? && value.r >= 0.0
      ensures r.Done? ==> offset == Some(value.r)
      ensures r.Fail? ==> r.error == ArgumentError && offset == old(offset)
    {
      if value.Real? && value.r >= 0.0 {
        offset := Some(value.r);
        r := Done;
      } else {
        r := Fail(ArgumentError);
      }
    }

    /** The store is named and in the schema. */
    predicate HasStore(schema: Schema)
      reads this
    {
      |storeName| > 0 && storeName in schema
    }

    /** Compiling to a cursor promotes a range: the store exists, no index
        is set, and some range is on one of the store's indexes. */
    predicate Sniffs(schema: Schema)
      reads this
    {
      HasStore(schema) && index.None? && FirstIndexed(wheres, schema[storeName].indexes).Some?
    }

    /** `toCursor(schema)`: the cursor for IndexedDB. Without an explicit
        index, the first range on an indexed field is taken out of the
        query and becomes the key range, its field the index, and an unset
        direction becomes NEXT. The remaining ranges become filters, in
        order; the map and reduce become the row projection and reduction. */
    method ToCursor(schema: Schema) returns (r: Result<Cursor>)
      requires Valid()
      modifies this`wheres
      ensures Valid()
      ensures !HasStore(schema) ==> r == Err(InvalidOperation) && wheres == old(wheres)
      ensures HasStore(schema) ==> (r.Err? <==> LowerMap(mapping).Err? || LowerReduce(reduction).Err?)
      ensures HasStore(schema) && r.Err? ==> r.error == SqlParseError
      // the range sniffing, whose effect on the query stays even when the
      // map or the reduce then fails
      ensures old(Sniffs(schema)) ==>
        var k := FirstIndexed(old(wheres), schema[storeName].indexes).value;
        wheres == old(wheres)[..k] + old(wheres)[k + 1..]
      ensures !old(Sniffs(schema)) ==> wheres == old(wheres)
      ensures r.Ok? ==>
        r.value.storeName == storeName && r.value.filters == wheres &&
        r.value.rowMap == LowerMap(mapping).value && r.value.reducer == LowerReduce(reduction).value &&
        !r.value.parseRowIdentity && !r.value.finalizeTakeFirst && r.value.params == []
      ensures r.Ok? && old(Sniffs(schema)) ==>
        var k := FirstIndexed(old(wheres), schema[storeName].indexes).value;
        r.value.keyRange == Some(old(wheres)[k]) && r.value.index == Some(old(wheres)[k].field) &&
        r.value.direction == (if direction.Some? then direction else Some(Next))
      ensures r.Ok? && !old(Sniffs(schema)) ==>
        r.value.index == index && r.value.keyRange == None && r.value.direction == direction
      // no range is lost: each is the key range or a filter
      ensures r.Ok? ==>
        multiset(old(wheres)) ==
          multiset(r.value.filters) + (if r.value.keyRange.Some? then multiset{r.value.keyRange.value} else multiset{})
    {
      if |storeName| == 0 {
        return Err(InvalidOperation);
      }
      if storeName !in schema {
        return Err(InvalidOperation);
      }
      var store := schema[storeName];
      var keyRange: Option<Where> := None;
      var chosen := index;
      var dir := direction;
      if index.None? {
        var rest;
        rest, keyRange := SniffIndex(wheres, store.indexes);
        if keyRange.Some? {
          chosen := Some(keyRange.value.field);
          dir := if dir.Some? then dir else Some(Next);
          wheres := rest;
        }
      }
      r := BuildCursor(dir, chosen, keyRange);
    }

    /** The second half of `toCursor`: the cursor over the given direction,
        index and key range, with every remaining range as a filter, in
        order, and the map and reduce lowered. */
    method BuildCursor(dir: Option<Direction>, chosen: Option<string>, keyRange: Option<Where>)
      returns (r: Result<Cursor>)
      ensures r.Err? <==> LowerMap(mapping).Err? || LowerReduce(reduction).Err?
      ensures r.Err? ==> r.error == SqlParseError
      ensures r.Ok? ==>
        r.value == Cursor(storeName, dir, chosen, keyRange, wheres, LowerMap(mapping).value,
                          LowerReduce(reduction).value, false, false, "", [])
    {
      var cursor := NewCursor(storeName, dir, chosen, keyRange);
      cursor := ProcessFilters(cursor, wheres);
      var rowMap := LowerMap(mapping);
      if rowMap.Err? {
        return Err(rowMap.error);
      }
      var reducer := LowerReduce(reduction);
      if reducer.Err? {
        return Err(reducer.error);
      }
      r := Ok(cursor.(rowMap := rowMap.value, reducer := reducer.value));
    }

    /** `toSqlCursor(schema)`: the cursor for WebSQL, carrying the
        statement `SELECT … FROM "store" WHERE … ORDER BY … LIMIT … OFFSET …`.
        Ranges on indexed fields become WHERE clauses with their
        parameters; the others become filters. */
    method ToSqlCursor(schema: Schema, env: Collaborators) returns (r: Result<Cursor>)
      ensures |sqlPrivate| > 0 ==> r == Err(NotImplemented)
      ensures sqlPrivate == "" && !HasStore(schema) ==> r == Err(InvalidOperation)
      ensures sqlPrivate == "" && HasStore(schema) ==>
        var plan := SelectPart(mapping, reduction, IsUnique(direction), env.quote);
        (r.Err? <==> plan.Err?) && (r.Err? ==> r.error == SqlParseError)
      ensures r.Ok? ==>
        var store := schema[storeName];
        var plan := SelectPart(mapping, reduction, IsUnique(direction), env.quote).value;
        r.value.storeName == storeName && r.value.direction == None &&
        r.value.index == None && r.value.keyRange == None &&
        r.value.filters == NonIndexed(wheres, store.indexes) &&
        r.value.params == ClauseParams(Indexed(wheres, store.indexes), env.whereClause) &&
        r.value.rowMap == plan.rowMap && r.value.reducer == None &&
        r.value.parseRowIdentity == plan.parseRowIdentity &&
        r.value.finalizeTakeFirst == plan.finalizeTakeFirst &&
        r.value.sql == Statement(plan.text, "FROM " + env.quote(storeName),
          WhereText(wheres, store.indexes, env.whereClause),
          OrderClause(OrderField(index, store.keyPath, env), direction),
          RangeText(limit, offset, env.numberText))
    {
      if |sqlPrivate| > 0 {
        return Err(NotImplemented);
      }
      if |storeName| == 0 {
        return Err(InvalidOperation);
      }
      if storeName !in schema {
        return Err(InvalidOperation);
      }
      var store := schema[storeName];
      var cursor := NewCursor(storeName, None, None, None);
      var from := "FROM " + env.quote(storeName);
      var plan := SelectPart(mapping, reduction, IsUnique(direction), env.quote);
      if plan.Err? {
        return Err(plan.error);
      }
      var whereText, params, filters := CompileWheres(wheres, store.indexes, env.whereClause);
      var order := OrderClause(OrderField(index, store.keyPath, env), direction);
      var range := RangeText(limit, offset, env.numberText);
      cursor := cursor.(filters := filters, params := params, rowMap := plan.value.rowMap,
                        parseRowIdentity := plan.value.parseRowIdentity,
                        finalizeTakeFirst := plan.value.finalizeTakeFirst,
                        sql := Statement(plan.value.text, from, whereText, order, range));
      r := Ok(cursor);
    }
  }
}
