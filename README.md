# ydn-db query compiler and transaction façade, in Dafny

This project models two parts of the ydn-db JavaScript database library and
proves properties of them.

**`ydn.db.Query`** (js/ydn/db/base/query.js) is a query builder. Its calls
record the following on the query object:

- a store (`from`);
- ranges over fields (`where`);
- a scan direction (`unique`, `reverse`) and an index (`order`);
- one projection (`map`) and one aggregate (`reduce`);
- a limit and an offset.

A query compiles to one of two cursors:

- `toCursor` gives an IndexedDB cursor. When no index is set, it "sniffs" an
  index: the first range on an indexed field is taken out of the query and
  becomes the key range. The remaining ranges become residual filters, in
  order. The map and the reduce become the cursor's projection and reducer
  closures.
- `toSqlCursor` gives a WebSQL statement,
  `SELECT … FROM "store" WHERE … ORDER BY … LIMIT … OFFSET …`. Ranges on
  indexed fields become WHERE clauses with bound parameters. The other
  ranges become filters.

The static reducer closures (count, sum, min, max, average), the `select`
projection and the take-first helpers are modelled too.

**`ydn.db.tr.Storage`** (js/ydn/db/tr/storage.js) is the transactional façade.
`newTxQueue` makes one of four thread kinds from a policy and a serial flag.
Each thread's number is drawn from the `ptx_no` counter. `branch` makes an
operator over a new thread. `run` checks its arguments and mode, then
schedules a transaction on a fresh parallel ALL thread. Its completion
callback turns the transaction's outcome into a result or an error.

Files, one module each:

- `outcomes.dfy`: Option, Result and the exception kinds.
- `directions.dfy`: cursor directions.
- `wheres.dfy`: ranges, `where`'s operator rules, index sniffing, and the
  split between indexed and residual ranges.
- `helpers.dfy`: the reducer closures with the aggregates they compute,
  `mapSelect`, `finalizeTakeFirst` and `parseRowTakeFirst`.
- `builder.dfy`: the argument rules of `reduce` and `map`.
- `cursors.dfy`: the cursor record and the lowering of map and reduce.
- `sqltext.dfy`: the parts of the SQL statement.
- `query.dfy`: the `Query` class.
- `storage.dfy`: the `Storage` class and thread creation.

JavaScript semantics are written out where they matter:

- `undefined` and `NaN` are distinct from numbers (`Num`).
- Falsy values are handled explicitly.
- `limit_`/`offset_` equal to NaN means "not set" (None).
- An exception is an `Err`/`Fail` value naming its class.

Functions the core calls but whose code is not part of this model are
parameters of the `Collaborators` record: `goog.string.quote`,
`ydn.db.Where.toWhereClause`, `ydn.db.base.SQLITE_SPECIAL_COLUNM_NAME`, and
number-to-string conversion.

The model follows the code, including these behaviours:

- When an index is set explicitly, `toCursor` does not make a range on that
  field the key range. The cursor gets no key range, and every range becomes
  a filter (query.js:677-698).
- `toSqlCursor` refuses a textual query by testing the private field `sql_`.
  Only its prototype declaration gives `sql_` a value (`''`), and the
  constructor stores the statement in `sql`. So the NotImplemented branch is
  never taken for a constructed query, and the statement is ignored. The
  model keeps the field (`sqlPrivate`) and the branch (query.js:188, 781-783).
- When a query has both a map and a reduce, `toSqlCursor` concatenates both
  SELECT texts. The reduce's take-first projection replaces the map's
  projection (query.js:801-863).
- Without map or reduce, a unique direction gives `SELECT * DISTINCT`, with
  DISTINCT after the star (query.js:865-867).
- `reduce` with an expression records an aggregate with no field.
  `toCursor` rejects any aggregate other than the five reducers. So an
  expression reduce is recorded without error but fails to compile
  (query.js:503-511, 736-738).
- `map` with an expression and a valid field argument records an expression
  map. It then still throws, because the method name stays empty
  (query.js:586-617).

## Model

| member | source | states |
|---|---|---|
| Directions.WithUnique | js/ydn/db/base/query.js:218-228 | the new direction is unique exactly when asked; it is forward exactly when the old direction was NEXT or NEXT_UNIQUE, so an unset direction becomes a PREV variant |
| Directions.WithReverse | js/ydn/db/base/query.js:237-247 | the new direction is backward exactly when asked and keeps the old direction's uniqueness |
| Directions.ReverseUniqueCommute | js/ydn/db/base/query.js:218-247 | applying `reverse` and `unique` in either order gives the same direction |
| Wheres.MakeWhere | js/ydn/db/base/query.js:278-298 | a defined second operator that is not relational is an ArgumentException; otherwise `<`/`<=` set the upper bound (open iff `<`), `>`/`>=` the lower (open iff `>`), `=`/`==` both, an unknown first operator nothing, and the second operator overrides the side it names; `None` as second operator is `undefined` only, and a `null` one is a `Some` that is no relational operator, rejected as the source rejects it |
| Wheres.UpperBoundOnly | js/ydn/db/base/query.js:279-281 | one upper-bound operator yields exactly an upper bound, open iff `<`, and no lower bound |
| Wheres.AppendKeepsDistinct | js/ydn/db/base/query.js:270-301 | appending a range on a field no range has yet keeps every field constrained at most once |
| Wheres.RemoveKeepsDistinct | js/ydn/db/base/query.js:687 | splicing one range out keeps the fields distinct |
| Wheres.RemoveOne | js/ydn/db/base/query.js:687 | the spliced-out range and the rest together are the original ranges, as a multiset |
| Wheres.FindIndexedWhere | js/ydn/db/base/query.js:677-691 | the sniffing loop finds the first range on an indexed field, or reports that none is |
| Wheres.FirstIndexed | js/ydn/db/base/query.js:677-691 | the position sniffing picks: the first range on an indexed field, or none exactly when no range is on one |
| Wheres.SniffIndex | js/ydn/db/base/query.js:677-691 | the picked range is spliced out and becomes the key range, the others keep their order; without one nothing changes; no range is lost (multiset) and fields stay distinct |
| Wheres.FirstIndexedUnique | js/ydn/db/base/query.js:677-691 | sniffing can pick only one position |
| Wheres.Indexed | js/ydn/db/base/query.js:869-885 | the ranges on indexed fields, in order, never more than were given (what they hold is SidesAreSorted and IndexedPartition) |
| Wheres.NonIndexed | js/ydn/db/base/query.js:869-885 | the ranges on fields without an index, in order, never more than were given (what they hold is SidesAreSorted and IndexedPartition) |
| Wheres.SidesAreSorted | js/ydn/db/base/query.js:869-885 | the WHERE-clause side holds only ranges on indexed fields, the filter side only ranges on fields without an index |
| Wheres.IndexedPartition | js/ydn/db/base/query.js:869-885 | every range goes to exactly one side: the two sides together are the ranges, as a multiset |
| Wheres.NonIndexedAppend | js/ydn/db/base/query.js:869-885 | the residual filters of two lists of ranges are the residual filters of each, in order |
| Wheres.SniffKeepsResiduals | js/ydn/db/base/query.js:677-698 | removing the sniffed range leaves the ranges on non-indexed fields exactly as they were, so both compilers filter those fields the same way |
| QueryHelpers.CountStep | js/ydn/db/base/query.js:377-384 | the count closure returns one more than the previous value, a falsy previous value counting as zero |
| QueryHelpers.SumStep | js/ydn/db/base/query.js:412-419 | the sum closure adds the row's field to the previous total, starting from 0 when it is undefined; it is a number exactly when the previous value is undefined or a number and the row has the field, and NaN otherwise |
| QueryHelpers.MinStep | js/ydn/db/base/query.js:427-435 | the min closure returns the row's field when the previous value is not a number (undefined at the first call, or NaN), undefined when the row lacks the field, and otherwise the smaller of the two |
| QueryHelpers.MaxStep | js/ydn/db/base/query.js:443-451 | the max closure returns the row's field when the previous value is not a number (undefined at the first call, or NaN), undefined when the row lacks the field, and otherwise the larger of the two |
| QueryHelpers.AverageStep | js/ydn/db/base/query.js:481-488 | the average closure yields a number exactly when the previous value is undefined or a number and the row has the field, and NaN otherwise |
| QueryHelpers.ReduceRows | js/ydn/db/base/query.js:377-488 | the fold the executing cursor applies to a reducer closure: from undefined, each row in order with its zero-based ordinal; over no rows the result is undefined, and a count over any rows is a number |
| QueryHelpers.SumMissingFieldIsNaN | js/ydn/db/base/query.js:412-419 | a row without the field makes the whole sum NaN, since a NaN total is never restarted at 0 |
| QueryHelpers.CountCountsRows | js/ydn/db/base/query.js:377-384 | folding the count closure over n ≥ 1 rows gives n, whatever the field (over no rows the fold stays undefined) |
| QueryHelpers.SumIsFieldSum | js/ydn/db/base/query.js:412-419 | folding the sum closure over non-empty rows that all have the field gives the sum of the field over the rows |
| QueryHelpers.MinIsMinimum | js/ydn/db/base/query.js:427-435 | folding the min closure over non-empty rows that all have the field gives a value of some row that is at most every row's value |
| QueryHelpers.MaxIsMaximum | js/ydn/db/base/query.js:443-451 | folding the max closure over non-empty rows that all have the field gives a value of some row that is at least every row's value |
| QueryHelpers.MeanStep | js/ydn/db/base/query.js:481-488 | one step of the online mean turns the mean of i values into the mean of i + 1 |
| QueryHelpers.AverageOfOne | js/ydn/db/base/query.js:481-488 | the average closure over one row gives that row's value |
| QueryHelpers.AverageIsMean | js/ydn/db/base/query.js:481-488 | folding the average closure over non-empty rows that all have the field gives the field's sum divided by the number of rows |
| QueryHelpers.MapSelect | js/ydn/db/base/query.js:629-641 | one field name projects that field's value; a list gives an object with exactly the listed names, each holding the record's value or undefined |
| QueryHelpers.FinalizeTakeFirst | js/ydn/db/base/query.js:948-954 | the first element of a non-empty array, otherwise undefined |
| QueryHelpers.ParseRowTakeFirst | js/ydn/db/base/query.js:933-940 | the value of the first own property in enumeration order, undefined exactly when there is none |
| Builder.Lower | js/ydn/db/base/query.js:513 | lower-casing keeps the length and maps each character to its lower case |
| Builder.ReduceMethod | js/ydn/db/base/query.js:503-568 | an expression records the EXPRESSION aggregate with no field (the expression itself is dropped); a name other than a string is an ArgumentException; avg/min/max/sum (case-insensitive) need a string field; count takes a string field or none; every other case is an ArgumentException; whatever is recorded is installable |
| Builder.MapMethod | js/ydn/db/base/query.js:586-617 | the call succeeds exactly for `select` (case-insensitive) with a string or an array; a map is recorded exactly when the fields are a string or an array and the method is `select` or an expression; any failure is an ArgumentException |
| Cursors.NewCursor | js/ydn/db/base/query.js:693 | a new cursor carries the given store, direction, index and key range (`toSqlCursor` at query.js:793 gives only the store), and has no filters, projection, reducer, SQL or parameters yet |
| Cursors.ProcessFilters | js/ydn/db/base/query.js:696-698 | the cursor's filters become its old filters followed by the given ranges, in order |
| Cursors.LowerMap | js/ydn/db/base/query.js:700-706 | a select map becomes the cursor's projection of the same fields; any other map is a SqlParseError |
| Cursors.LowerReduce | js/ydn/db/base/query.js:708-738 | count always compiles; sum, min, max and average compile exactly when they have a field; the reducer matches the aggregate's type and field; anything else is a SqlParseError |
| Cursors.AcceptedReduceLowers | js/ydn/db/base/query.js:708-738 | every aggregate `reduce` accepts compiles, except an expression |
| Cursors.RecordedMapLowers | js/ydn/db/base/query.js:700-706 | every map `map` records compiles, except an expression map |
| SqlText.MapSelectText | js/ydn/db/base/query.js:801-816 | a select map gives `SELECT (` … `)`; any other map is a SqlParseError |
| SqlText.ReduceSelectText | js/ydn/db/base/query.js:817-863 | COUNT, SUM and AVG give `SELECT <name> (`, then `DISTINCT ` when unique, then the quoted field or `*`, then `)`; any other aggregate is a SqlParseError |
| SqlText.SelectPart | js/ydn/db/base/query.js:796-867 | fails exactly on an expression map or an aggregate other than COUNT/SUM/AVG; with neither map nor reduce it is `SELECT *`, with ` DISTINCT` when unique; a reduce installs take-first and its finalizer, a map alone its projection; with a map or a reduce the text is the map's SELECT text followed by the reduce's |
| SqlText.WhereText | js/ydn/db/base/query.js:869-885 | the WHERE text is empty exactly when no range is on an indexed field, and starts with `WHERE ` otherwise |
| SqlText.WhereTextStep | js/ydn/db/base/query.js:871-878 | one more indexed range adds its clause after `WHERE ` when the text was empty, otherwise after ` AND ` |
| SqlText.WheresStep | js/ydn/db/base/query.js:869-885 | one more range adds itself and its parameters to the indexed side, or itself to the filters |
| SqlText.CompileWheres | js/ydn/db/base/query.js:869-885 | the loop builds the WHERE text, the concatenated parameters of the indexed ranges and the filters of the non-indexed ranges, in order |
| SqlText.OrderField | js/ydn/db/base/query.js:887-889 | the quoted index, else the store's quoted key path, else the row-id column |
| SqlText.OrderClause | js/ydn/db/base/query.js:891-897 | `ORDER BY <field>`, ending in ` DESC` exactly when the direction is backward and in ` ASC` otherwise |
| SqlText.RangeText | js/ydn/db/base/query.js:899-906 | empty exactly when neither limit nor offset is set; otherwise it starts with ` LIMIT n` when a limit is set and ends with ` OFFSET n` when an offset is set |
| SqlText.Statement | js/ydn/db/base/query.js:908 | the statement is its five parts joined by single spaces, as `Array.prototype.join` with a space would give |
| Queries.Query.constructor | js/ydn/db/base/query.js:37-57 | a new query keeps the statement, has no store, ranges, map, reduce, direction, index, limit or offset, and is valid |
| Queries.Query.From | js/ydn/db/base/query.js:206-209 | sets the store name |
| Queries.Query.Unique | js/ydn/db/base/query.js:218-228 | sets uniqueness and keeps the direction forward exactly when it was forward |
| Queries.Query.Reverse | js/ydn/db/base/query.js:237-247 | sets the scan order and keeps uniqueness |
| Queries.Query.Order | js/ydn/db/base/query.js:254-256 | sets the index |
| Queries.Query.Where | js/ydn/db/base/query.js:268-305 | a second range on a field, or a bad second operator, is an ArgumentException and changes nothing; otherwise exactly the new range is appended; fields stay distinct |
| Queries.Query.Reduce | js/ydn/db/base/query.js:497-571 | a second reduce is an ArgumentException and changes nothing; otherwise the argument rules decide what is recorded and whether it throws |
| Queries.Query.Map | js/ydn/db/base/query.js:580-618 | a second map is a ConstraintError and changes nothing; otherwise the argument rules decide what is recorded and whether it throws |
| Queries.Query.Limit | js/ydn/db/base/query.js:750-756 | accepts exactly numbers above zero; anything else is an ArgumentException and keeps the old limit |
| Queries.Query.Offset | js/ydn/db/base/query.js:764-770 | accepts exactly numbers of at least zero; anything else is an ArgumentException and keeps the old offset |
| Queries.Query.ToCursor | js/ydn/db/base/query.js:660-742 | a missing store is an InvalidOperation; without an index, the range FirstIndexed picks leaves the query and becomes key range and index, and an unset direction becomes NEXT; with an index or no indexed range, nothing is spliced and there is no key range; the other ranges become filters, in order; no range is lost; map and reduce failures are SqlParseErrors, and the splice happens even then |
| Queries.Query.BuildCursor | js/ydn/db/base/query.js:693-738 | the cursor over the given direction, index and key range, with the query's ranges as filters in order and the lowered map and reduce; it fails with a SqlParseError exactly when either lowering fails |
| Queries.Query.ToSqlCursor | js/ydn/db/base/query.js:779-910 | a non-empty `sql_` is NotImplemented (never the case for a constructed query, whose statement goes to `sql`) and a missing store an InvalidOperation; otherwise the statement is the SELECT part, the quoted store, the WHERE text, ORDER BY and LIMIT/OFFSET; the parameters are the indexed ranges' parameters and the filters the non-indexed ranges |
| Transactions.NewThread | js/ydn/db/tr/storage.js:149-179 | an unknown policy is an ArgumentException; ATOMIC gives an atomic thread, MULTI/REPEAT/ALL/SINGLE a queued one; the thread is serial exactly when asked and carries the given number, policy, scope, mode and limit |
| Transactions.BranchMode | js/ydn/db/tr/storage.js:115-120 | the standard read-only and read-write modes map to the internal ones; anything else gives no mode |
| Transactions.RunMode | js/ydn/db/tr/storage.js:205-214 | absent means read-only; read-write maps to read-write; only a mode that is neither absent nor standard is an ArgumentException |
| Transactions.ModesAgree | js/ydn/db/tr/storage.js:115-120 | for a given mode, `run` accepts exactly the modes `branch` maps, and maps them the same way |
| Transactions.OnComplete | js/ydn/db/tr/storage.js:221-228 | success exactly when the event is COMPLETE; success reports the value of the thread's `getTxNo()`, failure the event, flagged as an error |
| Transactions.MainPolicy | js/ydn/db/tr/storage.js:47-57 | serial SINGLE unless the options give `isSerial` or a policy |
| Transactions.Storage.Empty | js/ydn/db/tr/storage.js:45 | a new storage's counter starts at 0 |
| Transactions.Storage.NewTxQueue | js/ydn/db/tr/storage.js:149-179 | a new thread gets the current counter value, never given out before, and the counter goes up by one; a rejected policy changes nothing |
| Transactions.Storage.Open | js/ydn/db/tr/storage.js:42-76 | an unknown policy makes construction throw; otherwise the main thread gets number 0, the ATOMIC parallel sync thread number 1 only when hooks are on, and the operator holds both |
| Transactions.Storage.Branch | js/ydn/db/tr/storage.js:112-125 | a new operator over a fresh thread with the mapped mode and the sync thread; an unknown policy changes nothing |
| Transactions.Storage.Run | js/ydn/db/tr/storage.js:193-239 | more than three arguments is an ArgumentException before any change; a bad mode throws after one increment; otherwise a parallel ALL thread numbered old counter + 1, with at most one transaction, runs over the given or all store names, and the counter ends two higher |

## Left out

- `parseSql` (query.js:130-181) is never called. It uses regular expressions and a comma-splitting helper that is not part of this model.
- `toJSON`, `toString` and `getStoreName` are debug output and a plain getter.
- The builder methods return `this` for chaining. The model's methods return nothing or an outcome.
- The query constructor throws on a non-string argument. The model's constructor takes an optional string, so that check has nothing to catch.
- Queries.Query.Limit: a JavaScript value that is not a number is represented by `Undefined`. Only "is a number above zero" is modelled.
- Queries.Query.Offset: the same representation as Limit, with "at least zero".
- Builder.Lower: lower-cases ASCII letters only. `String.prototype.toLowerCase` also maps other Unicode letters.
- The reducer closures work on rows mapping fields to reals. Non-numeric field values, string concatenation by `+`, and IEEE-754 rounding are not modelled; the mean is proved over the reals.
- QueryHelpers.AverageStep: its contract states only when the result is a number. The value it computes is tied to the mean by MeanStep and AverageIsMean.
- QueryHelpers.ReduceRows: the executing cursor that calls a reducer closure is not part of this model. The fold assumes it starts from undefined and passes each row in order with its zero-based ordinal, which is how the closures' `(prev, curr, i)` parameters are read; every fold lemma rests on that assumption.
- QueryHelpers.ParseRowTakeFirst: the row's `for…in` enumeration order is a parameter (a sequence of properties), not JavaScript's own property order.
- `ydn.db.Cursor` internals are not part of this model. The cursor is a record of what the compiler sets on it. `processWhereAsFilter` is modelled as appending to the filter list. `parseRowIdentity` is a flag.
- A range whose operator is unknown gets undefined bounds, and a missing open flag is undefined; both are None.
- Storage: the inherited `ydn.db.con.Storage` constructor (connection and schema) is not part of this model. Only the schema's store names are kept.
- Storage: the thread classes (Serial, Parallel, AtomicSerial, AtomicParallel), `processTx`, `request`, `DbOperator`, the logger and the call of `run`'s transaction function are asynchronous plumbing not part of this model. `run` returns a record of the thread, store names, mode and operator it scheduled, and the completion callback is the pure function OnComplete.
- Storage: `newOperator` is modelled as building the operator record.
- Transactions.Storage.Run: the argument count is a parameter, since JavaScript's `arguments.length` has no Dafny counterpart.
- js/ydn/db/tx_storage.js (deferred-based convenience wrappers) and test/index/algo_test.js (join-solver integration tests) are not part of this model.
