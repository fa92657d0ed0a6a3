/**
  The two SELECTs of app/routers/payments.py followed by `one_or_none()`:
  by `idempotency_key` (line 30) and by `mollie_id` (lines 107, 143).
*/
module Queries {
  import opened Wrappers
  import opened Records

  /** A WHERE clause; a NULL column never equals the searched string. */
  datatype Criterion = ByKey(key: string) | ByMollieId(mollieId: string)

  predicate Matches(c: Criterion, p: Payment) {
    match c
    case ByKey(k) => p.idempotencyKey == Some(k)
    case ByMollieId(m) => p.mollieId == Some(m)
  }

  /** The positions of the matching rows, in table order. */
  function Select(rows: seq<Payment>, c: Criterion): (ix: seq<nat>)
    ensures forall k :: 0 <= k < |ix| ==> ix[k] < |rows| && Matches(c, rows[ix[k]])
    ensures forall k, l :: 0 <= k < l < |ix| ==> ix[k] < ix[l]
    ensures forall i :: 0 <= i < |rows| && Matches(c, rows[i]) ==> i in ix
  {
    if rows == [] then []
    else
      var n := |rows| - 1;
      var before := Select(rows[..n], c);
      if Matches(c, rows[n]) then before + [n] else before
  }

  /** What `one_or_none()` gives: no row, the one row, or it raises. */
  datatype Lookup = NoRow | OneRow(index: nat) | ManyRows

  function OneOrNone(ix: seq<nat>): Lookup {
    if |ix| == 0 then NoRow else if |ix| == 1 then OneRow(ix[0]) else ManyRows
  }

  /** `select(Payment).where(c)` then `one_or_none()`. */
  function Find(rows: seq<Payment>, c: Criterion): (r: Lookup)
    ensures r.NoRow? <==> forall i :: 0 <= i < |rows| ==> !Matches(c, rows[i])
    ensures r.OneRow? ==> r.index < |rows| && Matches(c, rows[r.index])
                          && forall j :: 0 <= j < |rows| && j != r.index ==> !Matches(c, rows[j])
    ensures r.ManyRows? <==> exists i, j :: 0 <= i < j < |rows| && Matches(c, rows[i]) && Matches(c, rows[j])
  {
    var ix := Select(rows, c);
    if |ix| >= 2 then
      assert Matches(c, rows[ix[0]]) && Matches(c, rows[ix[1]]);
      ManyRows
    else
      OneOrNone(ix)
  }
}
