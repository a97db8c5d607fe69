/** Exact money. Amounts are exact rationals, and the one rounding the ledger
    performs is modelled in full. */
module Money {

  type Decimal = real

  function Abs(x: real): real {
    if x < 0.0 then -x else x
  }

  /** Rounding to the nearest integer, a tie going to the even neighbour. */
  function RoundHalfEven(x: real): (n: int)
    ensures Abs(x - n as real) <= 0.5
    ensures Abs(x - n as real) == 0.5 ==> n % 2 == 0
  {
    var f := x.Floor;
    var rest := x - f as real;
    if rest < 0.5 then f
    else if rest > 0.5 then f + 1
    else if f % 2 == 0 then f
    else f + 1
  }

  /** The two guarantees of RoundHalfEven leave no choice: any integer that is
      nearest with ties to even is the one it returns. */
  lemma RoundHalfEvenUnique(x: real, n: int)
    requires Abs(x - n as real) <= 0.5
    requires Abs(x - n as real) == 0.5 ==> n % 2 == 0
    ensures n == RoundHalfEven(x)
  {
    var m := RoundHalfEven(x);
    assert Abs(n as real - m as real) <= 1.0;
    assert n == m || n == m + 1 || m == n + 1;
  }

  /** The broker-posted cash effect of one fill: qty * price at cent precision. */
  function CashNotional(qty: Decimal, price: Decimal): (n: Decimal)
    ensures Abs(n - qty * price) <= 0.005
  {
    RoundHalfEven(qty * price * 100.0) as real / 100.0
  }

  /** An amount already in whole cents passes through unchanged. */
  lemma CashNotionalOfWholeCents(qty: Decimal, price: Decimal, cents: int)
    requires qty * price * 100.0 == cents as real
    ensures CashNotional(qty, price) == qty * price
  {
    RoundHalfEvenUnique(cents as real, cents);
  }
}
