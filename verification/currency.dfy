/**
 The UAH -> USD conversion applied by the expense store:
 `round(amount_uah / exchange_rate, 2)`.

 Amounts are exact reals; Python's `round(x, 2)` is modelled as rounding
 the exact quotient to the nearest cent, ties to the even cent.
 */
module Currency {

  /** The whole number of cents nearest to `x`, ties going to the even one. */
  function RoundCents(x: real): (c: int)
    ensures -0.5 <= c as real - x * 100.0 <= 0.5
    ensures c as real - x * 100.0 == 0.5 || c as real - x * 100.0 == -0.5 ==> c % 2 == 0
  {
    var y := x * 100.0;
    var f := y.Floor;
    var frac := y - f as real;
    if frac < 0.5 then f
    else if frac > 0.5 then f + 1
    else if f % 2 == 0 then f
    else f + 1
  }

  /** An amount that already is a whole number of cents is left as it is. */
  lemma RoundCentsExact(c: int)
    ensures RoundCents(c as real / 100.0) == c
  {
  }

  /** The USD amount stored for `amountUah` at exchange rate `rate`. */
  function ToUsd(amountUah: real, rate: real): (usd: real)
    requires rate != 0.0
    ensures (usd * 100.0).Floor as real == usd * 100.0
    ensures -0.005 <= usd - amountUah / rate <= 0.005
    ensures usd - amountUah / rate == 0.005 || usd - amountUah / rate == -0.005 ==> (usd * 100.0).Floor % 2 == 0
  {
    RoundCents(amountUah / rate) as real / 100.0
  }

  /** When the quotient is a whole number of cents, the conversion is exact. */
  lemma ToUsdExact(amountUah: real, rate: real, cents: int)
    requires rate != 0.0
    requires amountUah / rate == cents as real / 100.0
    ensures ToUsd(amountUah, rate) == amountUah / rate
  {
  }
}
