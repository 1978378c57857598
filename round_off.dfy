/** `zeroed`: amounts strictly inside the band (-10^-3, 10^-3) snap to zero. */
module RoundOff {

  const PRECISION_ZERO: nat := 3

  function Power10(n: nat): (r: real)
    ensures r >= 1.0
  {
    if n == 0 then 1.0 else 10.0 * Power10(n - 1)
  }

  /** The half-width of the band, 1 / 10^PRECISION_ZERO. */
  function MaxFloat(): (m: real)
    ensures m == 1.0 / 1000.0
  {
    1.0 / Power10(PRECISION_ZERO)
  }

  function Zeroed(amount: real): (r: real)
    ensures -1.0 / 1000.0 < amount < 1.0 / 1000.0 ==> r == 0.0
    ensures amount <= -1.0 / 1000.0 || 1.0 / 1000.0 <= amount ==> r == amount
    ensures r == 0.0 || r == amount
  {
    var maxFloat := MaxFloat();
    var minFloat := -1.0 * maxFloat;
    if minFloat < amount < maxFloat then 0.0 else amount
  }

  lemma ZeroedIdempotent(x: real)
    ensures Zeroed(Zeroed(x)) == Zeroed(x)
  {
  }

  lemma ZeroedOdd(x: real)
    ensures Zeroed(-x) == -Zeroed(x)
  {
  }
}
