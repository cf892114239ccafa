/** Cursor directions (ydn.db.Cursor.Direction) and the two builder calls
    `unique` and `reverse` that move between them. */
module Directions {
  import opened Outcomes

  datatype Direction = Next | NextUnique | Prev | PrevUnique

  /** The direction skips records with the same key. */
  predicate IsUnique(d: Option<Direction>) {
    d == Some(NextUnique) || d == Some(PrevUnique)
  }

  /** The direction yields keys in increasing order. */
  predicate IsForward(d: Option<Direction>) {
    d == Some(Next) || d == Some(NextUnique)
  }

  /** The direction yields keys in decreasing order. */
  predicate IsBackward(d: Option<Direction>) {
    d == Some(Prev) || d == Some(PrevUnique)
  }

  /** `Query.unique(value)`: stays forward only when the current direction is
      NEXT or NEXT_UNIQUE; from any other direction, unset included, the
      result is one of the PREV variants. */
  function WithUnique(d: Option<Direction>, value: bool): (r: Direction)
    ensures IsUnique(Some(r)) == value
    ensures IsForward(Some(r)) == IsForward(d)
    ensures IsBackward(Some(r)) == !IsForward(d)
  {
    if d == Some(Next) || d == Some(NextUnique) then
      (if value then NextUnique else Next)
    else
      (if value then PrevUnique else Prev)
  }

  /** `Query.reverse(value)`: keeps the unique property of the current
      direction and chooses backward exactly when `value` holds. */
  function WithReverse(d: Option<Direction>, value: bool): (r: Direction)
    ensures IsBackward(Some(r)) == value
    ensures IsForward(Some(r)) == !value
    ensures IsUnique(Some(r)) == IsUnique(d)
  {
    if d == Some(NextUnique) || d == Some(PrevUnique) then
      (if value then PrevUnique else NextUnique)
    else
      (if value then Prev else Next)
  }

  /** `reverse(b)` and `unique(u)` commute: whichever is called last, the
      direction is backward iff `b` and unique iff `u`, whatever it was. */
  lemma ReverseUniqueCommute(d: Option<Direction>, b: bool, u: bool)
    ensures WithUnique(Some(WithReverse(d, b)), u) == WithReverse(Some(WithUnique(d, u)), b)
    ensures IsBackward(Some(WithUnique(Some(WithReverse(d, b)), u))) == b
    ensures IsUnique(Some(WithUnique(Some(WithReverse(d, b)), u))) == u
  {
  }
}
