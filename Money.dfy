/** Amounts of money are integers counted in cents. A percentage of an amount
    in cents is an amount in hundredths of a cent, which is brought back to
    cents by rounding to the nearest cent, ties away from zero (the behaviour
    of `toFixed(2)` on an exact decimal value). */
module Money {

  /** The integer nearest to x / 100; a tie goes away from zero. */
  function HundredthsToCents(x: int): (r: int)
    ensures x >= 0 ==> 100 * r - 50 <= x < 100 * r + 50
    ensures x < 0 ==> 100 * r - 50 < x <= 100 * r + 50
  {
    if x >= 0 then (x + 50) / 100 else -((-x + 50) / 100)
  }

  /** Rounding to cents never reverses the order of two amounts. */
  lemma HundredthsToCentsMonotone(x: int, y: int)
    requires x <= y
    ensures HundredthsToCents(x) <= HundredthsToCents(y)
  {
  }

  /** `pct` percent of `amount` cents, to the nearest cent. */
  function PercentOf(amount: int, pct: int): (r: int)
    ensures amount >= 0 && pct >= 0 ==> r >= 0
    ensures amount >= 0 && 0 <= pct <= 100 ==> r <= amount
    ensures amount == 0 ==> r == 0
  {
    HundredthsToCents(amount * pct)
  }
}
