/** JavaScript number behaviour the services and routes rely on, on integers: `NaN`,
    `Math.round` of a quotient and `Math.ceil` of a quotient. */
module JsMath {

  /** A JavaScript number as the services and routes produce it: an integer or `NaN`. */
  datatype Number = Num(n: int) | NaN

  /** Multiplying by a non-negative number keeps the order. */
  lemma MulMono(a: int, b: int, c: int)
    requires c >= 0
    ensures a <= b ==> a * c <= b * c
  {
    var k := b - a;
    assert b * c == a * c + k * c;
  }

  /** `Math.round(total / count)`: the integer nearest the quotient, a half
      rounded up (towards +infinity, as `Math.round` does for negatives too). */
  function RoundDiv(total: int, count: int): (r: int)
    requires count > 0
    ensures 2 * r * count <= 2 * total + count < 2 * r * count + 2 * count
  {
    var q := (2 * total + count) / (2 * count);
    assert 2 * total + count == q * (2 * count) + (2 * total + count) % (2 * count);
    q
  }

  /** The rounded quotient of an exact multiple is the exact quotient. */
  lemma RoundDivExact(q: int, count: int)
    requires count > 0
    ensures RoundDiv(q * count, count) == q
  {
    RoundDivBetween(q * count, count, q, q);
  }

  /** A mean of values between `lo` and `hi` rounds to a value between them. */
  lemma RoundDivBetween(total: int, count: int, lo: int, hi: int)
    requires count > 0
    requires lo * count <= total <= hi * count
    ensures lo <= RoundDiv(total, count) <= hi
  {
    var r := RoundDiv(total, count);
    // were r < lo: 2 * (r + 1) * count <= 2 * lo * count <= 2 * total < 2 * r * count + count
    MulMono(r + 1, lo, count);
    // were r > hi: 2 * (hi + 1) * count <= 2 * r * count <= 2 * total + count <= 2 * hi * count + count
    MulMono(hi + 1, r, count);
  }

  /** `Math.ceil(total / count)` for a non-zero divisor of either sign. */
  function CeilDiv(total: int, count: int): (r: int)
    requires count != 0
    ensures count > 0 ==> (r - 1) * count < total <= r * count
    ensures count < 0 ==> r * count <= total < (r - 1) * count
  {
    if count > 0 then -((-total) / count) else -(total / (-count))
  }
}
