/** Values shared by every calculator page. */
module Common {

  /** A value that may be missing: an empty input field, a key without an entry,
      or a handler that produced no result. */
  datatype Option<T> = None | Some(value: T)

  /** JavaScript's `x || 0` on a parsed number: a missing value (NaN) becomes 0. */
  function OrZero(x: Option<real>): (r: real)
    ensures x.None? ==> r == 0.0
    ensures x.Some? ==> r == x.value
  {
    match x
    case None => 0.0
    case Some(v) => v
  }

  /** Math.abs on exact reals. */
  function Abs(x: real): (r: real)
    ensures r >= 0.0
    ensures r == x || r == -x
  {
    if x < 0.0 then -x else x
  }

  /** Math.abs on integers. */
  function IntAbs(x: int): (r: nat)
    ensures r == x || r == -x
  {
    if x < 0 then -x else x
  }

  lemma ScaleBelow(r: real, m: real)
    requires 0.0 <= r < 1.0 && m > 0.0
    ensures 0.0 <= r * m < m
  {
  }

  /** Math.floor(r * n) for a Math.random() draw r in [0, 1): an index below n. */
  function DrawIndex(r: real, n: nat): (k: nat)
    requires 0.0 <= r < 1.0 && n > 0
    ensures k < n
  {
    ScaleBelow(r, n as real);
    var x := r * (n as real);
    assert x.Floor as real <= x < n as real;
    x.Floor
  }
}
