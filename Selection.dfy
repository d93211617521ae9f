/**
 * The metrics table's cursor: either no selection or a row index, kept within
 * the number of root metrics of the newest sample.
 */
module Selection {

  datatype Option<T> = None | Some(value: T) {
    /** The held value, or `default` when there is none. */
    function UnwrapOr(default: T): T {
      match this
      case Some(v) => v
      case None => default
    }
  }

  /** `n - 1`, or nothing when it would go below zero (unsigned `checked_sub(1)`). */
  function CheckedPred(n: nat): (r: Option<nat>)
    ensures r.None? <==> n == 0
    ensures r.Some? ==> r.value + 1 == n
  {
    if n == 0 then None else Some(n - 1)
  }

  function Min(a: nat, b: nat): (m: nat)
    ensures m <= a && m <= b && (m == a || m == b)
  {
    if a <= b then a else b
  }

  /** The cursor is absent exactly when the table is empty, and otherwise points at a row. */
  predicate InRange(cursor: Option<nat>, rows: nat) {
    (cursor.None? <==> rows == 0) && (cursor.Some? ==> cursor.value < rows)
  }

  /**
   * Re-validates a cursor against a table of `rows` rows: no selection for an
   * empty table, otherwise the previous row (row 0 when there was none)
   * capped at the last row.
   */
  function Clamp(prev: Option<nat>, rows: nat): (r: Option<nat>)
    ensures InRange(r, rows)
    ensures prev.Some? && prev.value < rows ==> r == prev
    ensures prev.Some? && rows <= prev.value && rows > 0 ==> r == Some(rows - 1)
    ensures prev.None? && rows > 0 ==> r == Some(0)
  {
    match CheckedPred(rows)
    case Some(max) => Some(Min(prev.UnwrapOr(0), max))
    case None => None
  }

  /** A cursor that is already in range is left as it is, so clamping twice changes nothing. */
  lemma ClampIdempotent(prev: Option<nat>, rows: nat)
    ensures InRange(prev, rows) ==> Clamp(prev, rows) == prev
    ensures Clamp(Clamp(prev, rows), rows) == Clamp(prev, rows)
  {
  }

  /** Row 4 selected, the new sample has 2 root metrics: the cursor moves to row 1. */
  lemma ShrinkScenario()
    ensures Clamp(Some(4), 2) == Some(1)
  {
  }
}
