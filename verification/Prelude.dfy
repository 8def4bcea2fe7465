/** Options, and the few table operations the SQL statements of the store come down to. */
module Prelude {

  datatype Option<+T> = None | Some(value: T)

  /** The supplied value when there is one, otherwise the current one. */
  function Choose<T>(supplied: Option<T>, current: Option<T>): Option<T> {
    if supplied.Some? then supplied else current
  }

  /** `a or b` on optional strings: None and "" are both falsy. */
  function OrElse(a: Option<string>, b: Option<string>): Option<string> {
    if Truthy(a) then a else b
  }

  predicate Truthy(a: Option<string>) {
    a.Some? && a.value != ""
  }

  /** UPDATE rows SET f WHERE p. */
  function UpdateWhere<T>(rows: seq<T>, p: T -> bool, f: T -> T): (out: seq<T>)
    ensures |out| == |rows|
    ensures forall i :: 0 <= i < |rows| ==> out[i] == if p(rows[i]) then f(rows[i]) else rows[i]
  {
    seq(|rows|, i requires 0 <= i < |rows| => if p(rows[i]) then f(rows[i]) else rows[i])
  }

  /** The row ids selected by p, oldest first. */
  function Where<T>(rows: seq<T>, p: T -> bool): (ids: seq<nat>)
    ensures forall i :: i in ids <==> 0 <= i < |rows| && p(rows[i])
    ensures forall a :: 0 <= a < |ids| ==> ids[a] < |rows| && p(rows[ids[a]])
    ensures forall a, b :: 0 <= a < b < |ids| ==> ids[a] < ids[b]
  {
    if rows == [] then []
    else
      var n := |rows| - 1;
      var before := Where(rows[..n], p);
      assert forall i :: 0 <= i < n ==> rows[..n][i] == rows[i];
      assert forall a :: 0 <= a < |before| ==> before[a] in before;
      if p(rows[n]) then before + [n] else before
  }

  /** The row ids selected by p, newest first. */
  function WhereDesc<T>(rows: seq<T>, p: T -> bool): (ids: seq<nat>)
    ensures forall i :: i in ids <==> 0 <= i < |rows| && p(rows[i])
    ensures forall a :: 0 <= a < |ids| ==> ids[a] < |rows| && p(rows[ids[a]])
  {
    if rows == [] then []
    else
      var n := |rows| - 1;
      var before := WhereDesc(rows[..n], p);
      assert forall i :: 0 <= i < n ==> rows[..n][i] == rows[i];
      if p(rows[n]) then [n] + before else before
  }

  /** ORDER BY created_at DESC LIMIT 1: the newest row selected by p. */
  function Newest<T>(rows: seq<T>, p: T -> bool): (id: Option<nat>)
    ensures id.Some? ==> id.value < |rows| && p(rows[id.value])
    ensures id.Some? ==> forall j :: id.value < j < |rows| ==> !p(rows[j])
    ensures id.None? ==> forall j :: 0 <= j < |rows| ==> !p(rows[j])
  {
    if rows == [] then None
    else
      var n := |rows| - 1;
      if p(rows[n]) then Some(n) else Newest(rows[..n], p)
  }
}
