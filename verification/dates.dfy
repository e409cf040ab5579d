/** Instants are integers counting milliseconds, as `Date.getTime()` does. */
module Dates {

  /** `1000 * 60 * 60 * 24`, the length of a day in milliseconds. */
  const DayMs: int := 86400000

  /** `Math.ceil(a / b)` for a positive divisor: the least `r` with
      `a <= r * b`. */
  function CeilDiv(a: int, b: int): (r: int)
    requires b > 0
    ensures (r - 1) * b < a <= r * b
  {
    var q := (-a) / b;
    assert -a == q * b + (-a) % b;
    -q
  }

  function Abs(x: int): nat { if x < 0 then -x else x }

  /** A ceiling quotient is never below zero for a non-negative dividend, and
      it is zero exactly for a zero dividend. */
  lemma CeilDivNonNegative(a: int, b: int)
    requires b > 0 && a >= 0
    ensures CeilDiv(a, b) >= 0
    ensures CeilDiv(a, b) == 0 <==> a == 0
  {
    var r := CeilDiv(a, b);
    assert r < 0 ==> r * b < 0;
    assert r >= 1 ==> (r - 1) * b >= 0;
  }

  /** The ceiling quotient is the only `r` with `(r - 1) * b < a <= r * b`. */
  lemma CeilDivUnique(a: int, b: int, r: int)
    requires b > 0 && (r - 1) * b < a <= r * b
    ensures CeilDiv(a, b) == r
  {
    var q := CeilDiv(a, b);
    assert q > r ==> (q - 1) * b >= r * b;
    assert q < r ==> q * b <= (r - 1) * b;
  }

  /** A whole number of days divides exactly. */
  lemma CeilDivExact(k: int, b: int)
    requires b > 0
    ensures CeilDiv(k * b, b) == k
  {
    var r := CeilDiv(k * b, b);
    assert r > k ==> (r - 1) * b >= k * b;
    assert r < k ==> r * b < k * b;
  }
}
