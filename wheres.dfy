/** Key-range constraints (ydn.db.Where) as built by `Query.where`, and the
    index-sniffing and residual-filter rules that both compilers apply to
    the ordered list of them. */
module Wheres {
  import opened Outcomes

  /** A key value compared against an index. */
  datatype Value = Number(n: real) | Text(s: string)

  /** One field constraint. A bound or an open flag that the builder left
      undefined is None. */
  datatype Where = Where(field: string, lower: Option<Value>, upper: Option<Value>,
                         lowerOpen: Option<bool>, upperOpen: Option<bool>)

  predicate IsUpperOp(op: string) { op == "<" || op == "<=" }
  predicate IsLowerOp(op: string) { op == ">" || op == ">=" }
  predicate IsEqualOp(op: string) { op == "=" || op == "==" }

  /** The range `where(field, op, value, op2, value2)` pushes. The first
      operator sets its side (an unknown first operator sets nothing); a
      defined second operator must be a relational one and overrides the
      side it names. `op2 == None` is `undefined` only: `null` is defined
      for `goog.isDef`, so a `null` second operator is passed as `Some` of
      a text that is no relational operator, and is rejected like one. */
  function MakeWhere(field: string, op: string, value: Option<Value>,
                     op2: Option<string>, value2: Option<Value>): (r: Result<Where>)
    ensures r.Err? <==> op2.Some? && !IsUpperOp(op2.value) && !IsLowerOp(op2.value)
    ensures r.Err? ==> r.error == ArgumentError
    ensures r.Ok? ==> r.value.field == field
    // the second operator decides the side it names
    ensures r.Ok? && op2.Some? && IsUpperOp(op2.value) ==>
      r.value.upper == value2 && r.value.upperOpen == Some(op2.value == "<")
    ensures r.Ok? && op2.Some? && IsLowerOp(op2.value) ==>
      r.value.lower == value2 && r.value.lowerOpen == Some(op2.value == ">")
    // the other side is as the first operator left it
    ensures r.Ok? && !(op2.Some? && IsUpperOp(op2.value)) ==>
      r.value.upper == (if IsUpperOp(op) || IsEqualOp(op) then value else None) &&
      r.value.upperOpen == (if IsUpperOp(op) then Some(op == "<") else None)
    ensures r.Ok? && !(op2.Some? && IsLowerOp(op2.value)) ==>
      r.value.lower == (if IsLowerOp(op) || IsEqualOp(op) then value else None) &&
      r.value.lowerOpen == (if IsLowerOp(op) then Some(op == ">") else None)
  {
    var (lower, upper, lowerOpen, upperOpen) :=
      if op == "<" || op == "<=" then (None, value, None, Some(op == "<"))
      else if op == ">" || op == ">=" then (value, None, Some(op == ">"), None)
      else if op == "=" || op == "==" then (value, value, None, None)
      else (None, None, None, None);
    match op2
    case None => Ok(Where(field, lower, upper, lowerOpen, upperOpen))
    case Some(o) =>
      if o == "<" || o == "<=" then Ok(Where(field, lower, value2, lowerOpen, Some(o == "<")))
      else if o == ">" || o == ">=" then Ok(Where(field, value2, upper, Some(o == ">"), upperOpen))
      else Err(ArgumentError)
  }

  /** `where` with one upper-bound operator: only the upper side is set. */
  lemma UpperBoundOnly(field: string, op: string, v: Option<Value>)
    requires IsUpperOp(op)
    ensures MakeWhere(field, op, v, None, None) == Ok(Where(field, None, v, None, Some(op == "<")))
  {
  }

  /** Some range in the list constrains `field`. */
  predicate HasField(ws: seq<Where>, field: string) {
    exists i :: 0 <= i < |ws| && ws[i].field == field
  }

  /** No field is constrained twice. */
  predicate DistinctFields(ws: seq<Where>) {
    forall i, j :: 0 <= i < j < |ws| ==> ws[i].field != ws[j].field
  }

  /** Appending a range on a fresh field keeps the fields distinct. */
  lemma {:induction false} AppendKeepsDistinct(ws: seq<Where>, w: Where)
    requires DistinctFields(ws) && !HasField(ws, w.field)
    ensures DistinctFields(ws + [w])
  {
    forall i, j | 0 <= i < j < |ws + [w]|
      ensures (ws + [w])[i].field != (ws + [w])[j].field
    {
      if j == |ws| {
        assert (ws + [w])[i] == ws[i];
      }
    }
  }

  /** Removing one range keeps the fields distinct. */
  lemma RemoveKeepsDistinct(ws: seq<Where>, k: nat)
    requires DistinctFields(ws) && k < |ws|
    ensures DistinctFields(ws[..k] + ws[k+1..])
  {
    var rest := ws[..k] + ws[k+1..];
    forall i, j | 0 <= i < j < |rest| ensures rest[i].field != rest[j].field {
      var i' := if i < k then i else i + 1;
      var j' := if j < k then j else j + 1;
      assert rest[i] == ws[i'] && rest[j] == ws[j'];
    }
  }

  /** `i` is the position index sniffing picks: the first range whose field
      is an index of the store. */
  predicate FirstIndexedAt(ws: seq<Where>, indexes: set<string>, i: nat) {
    i < |ws| && ws[i].field in indexes &&
    forall j :: 0 <= j < i ==> ws[j].field !in indexes
  }

  /** Taking one range out leaves the others, as a multiset. */
  lemma RemoveOne(ws: seq<Where>, k: nat)
    requires k < |ws|
    ensures multiset(ws) == multiset(ws[..k] + ws[k + 1..]) + multiset{ws[k]}
  {
    assert ws == ws[..k] + [ws[k]] + ws[k + 1..];
  }

  /** Sniffing picks one position at most. */
  lemma FirstIndexedUnique(ws: seq<Where>, indexes: set<string>, i: nat, k: nat)
    requires FirstIndexedAt(ws, indexes, i) && FirstIndexedAt(ws, indexes, k)
    ensures i == k
  {
  }

  /** No range is on an indexed field. */
  predicate NoneIndexed(ws: seq<Where>, indexes: set<string>) {
    forall j :: 0 <= j < |ws| ==> ws[j].field !in indexes
  }

  /** The position index sniffing picks, if any. */
  function FirstIndexed(ws: seq<Where>, indexes: set<string>): (r: Option<nat>)
    ensures r.Some? ==> FirstIndexedAt(ws, indexes, r.value)
    ensures r.None? ==> NoneIndexed(ws, indexes)
  {
    if ws == [] then None
    else if ws[0].field in indexes then Some(0)
    else
      match FirstIndexed(ws[1..], indexes)
      case None => None
      case Some(j) => Some(j + 1)
  }

  /** Index sniffing on the ranges: the picked range is spliced out and
      returned as the key range; without one the ranges stay as they are. */
  method SniffIndex(ws: seq<Where>, indexes: set<string>) returns (rest: seq<Where>, keyRange: Option<Where>)
    ensures FirstIndexed(ws, indexes).None? ==> rest == ws && keyRange == None
    ensures FirstIndexed(ws, indexes).Some? ==>
      var k := FirstIndexed(ws, indexes).value;
      rest == ws[..k] + ws[k + 1..] && keyRange == Some(ws[k])
    ensures multiset(ws) == multiset(rest) + (if keyRange.Some? then multiset{keyRange.value} else multiset{})
    ensures DistinctFields(ws) ==> DistinctFields(rest)
  {
    var found, i := FindIndexedWhere(ws, indexes);
    if found {
      FirstIndexedUnique(ws, indexes, i, FirstIndexed(ws, indexes).value);
      RemoveOne(ws, i);
      if DistinctFields(ws) {
        RemoveKeepsDistinct(ws, i);
      }
      rest, keyRange := ws[..i] + ws[i + 1..], Some(ws[i]);
    } else {
      rest, keyRange := ws, None;
    }
  }

  /** The sniffing loop of `toCursor`: scan the ranges in order and stop at
      the first one on an indexed field. */
  method FindIndexedWhere(ws: seq<Where>, indexes: set<string>) returns (found: bool, i: nat)
    ensures found ==> FirstIndexedAt(ws, indexes, i)
    ensures !found ==> NoneIndexed(ws, indexes)
  {
    i := 0;
    while i < |ws|
      invariant i <= |ws|
      invariant forall j :: 0 <= j < i ==> ws[j].field !in indexes
    {
      if ws[i].field in indexes {
        return true, i;
      }
      i := i + 1;
    }
    found := false;
  }

  /** The ranges on indexed fields, in order: those `toSqlCursor` turns into
      WHERE clauses. */
  function Indexed(ws: seq<Where>, indexes: set<string>): (r: seq<Where>)
    ensures |r| <= |ws|
    decreases |ws|
  {
    if ws == [] then []
    else
      var last := ws[|ws| - 1];
      Indexed(ws[..|ws| - 1], indexes) + (if last.field in indexes then [last] else [])
  }

  /** The ranges on fields without an index, in order: those both compilers
      evaluate as residual filters. */
  function NonIndexed(ws: seq<Where>, indexes: set<string>): (r: seq<Where>)
    ensures |r| <= |ws|
    decreases |ws|
  {
    if ws == [] then []
    else
      var last := ws[|ws| - 1];
      NonIndexed(ws[..|ws| - 1], indexes) + (if last.field in indexes then [] else [last])
  }

  /** The two sides hold what their names say: ranges on indexed fields,
      and ranges on fields without an index. */
  lemma {:induction false} SidesAreSorted(ws: seq<Where>, indexes: set<string>)
    ensures forall k :: 0 <= k < |Indexed(ws, indexes)| ==> Indexed(ws, indexes)[k].field in indexes
    ensures forall k :: 0 <= k < |NonIndexed(ws, indexes)| ==> NonIndexed(ws, indexes)[k].field !in indexes
    decreases |ws|
  {
    if ws != [] {
      SidesAreSorted(ws[..|ws| - 1], indexes);
    }
  }

  /** Every range goes to exactly one side: a WHERE clause or a filter. */
  lemma {:induction false} IndexedPartition(ws: seq<Where>, indexes: set<string>)
    ensures multiset(Indexed(ws, indexes)) + multiset(NonIndexed(ws, indexes)) == multiset(ws)
    decreases |ws|
  {
    if ws != [] {
      var init := ws[..|ws| - 1];
      IndexedPartition(init, indexes);
      assert ws == init + [ws[|ws| - 1]];
    }
  }

  /** Residual filtering distributes over concatenation. */
  lemma {:induction false} NonIndexedAppend(a: seq<Where>, b: seq<Where>, indexes: set<string>)
    ensures NonIndexed(a + b, indexes) == NonIndexed(a, indexes) + NonIndexed(b, indexes)
    decreases |b|
  {
    if b == [] {
      assert a + b == a;
    } else {
      var b' := b[..|b| - 1];
      var last := b[|b| - 1];
      NonIndexedAppend(a, b', indexes);
      assert (a + b)[..|a + b| - 1] == a + b';
      assert (a + b)[|a + b| - 1] == last;
      var tail := if last.field in indexes then [] else [last];
      calc {
        NonIndexed(a + b, indexes);
        NonIndexed(a + b', indexes) + tail;
        NonIndexed(a, indexes) + NonIndexed(b', indexes) + tail;
        NonIndexed(a, indexes) + NonIndexed(b, indexes);
      }
    }
  }

  /** Removing the range that index sniffing promoted leaves the residual
      filters on non-indexed fields exactly as they were: the cursor plan
      and the statement plan filter those fields identically. */
  lemma SniffKeepsResiduals(ws: seq<Where>, indexes: set<string>, k: nat)
    requires k < |ws| && ws[k].field in indexes
    ensures NonIndexed(ws[..k] + ws[k+1..], indexes) == NonIndexed(ws, indexes)
  {
    var pre, mid, post := ws[..k], [ws[k]], ws[k+1..];
    assert NonIndexed(mid, indexes) == [] by {
      assert mid[..0] == [];
    }
    NonIndexedAppend(pre, mid, indexes);
    NonIndexedAppend(pre + mid, post, indexes);
    NonIndexedAppend(pre, post, indexes);
    assert pre + mid + post == ws;
  }
}
