/** The tax charged when a player's countdown runs out: 8% of the point
    balance, rounded up, debited only when positive. */
module Tax {

  /** What chargeTax does to the player: a debit of `amount` points with a
      "tax deducted" message, or the "no points to tax" message alone. */
  datatype TaxOutcome = Debited(amount: int) | NoPoints

  /** `(int) Math.ceil(points * 0.08)`, taken as the exact ceiling of
      8 * points / 100. */
  function TaxAmount(points: int): (tax: int)
    ensures 100 * (tax - 1) < 8 * points <= 100 * tax
    ensures tax > 0 <==> points > 0
    ensures 0 <= points ==> 0 <= tax <= points
  {
    -((-8 * points) / 100)
  }

  /** chargeTax: debit the tax when it is positive, otherwise only tell the
      player that there was nothing to tax. */
  function ChargeTax(points: int): (r: TaxOutcome)
    ensures r.Debited? <==> points > 0
    ensures r.Debited? ==> r.amount == TaxAmount(points) && 0 < r.amount <= points
  {
    var tax := TaxAmount(points);
    if tax > 0 then Debited(tax) else NoPoints
  }

  /** The balances the tax rule is usually illustrated with. */
  lemma TaxExamples()
    ensures ChargeTax(0) == NoPoints
    ensures ChargeTax(1) == Debited(1)
    ensures ChargeTax(100) == Debited(8)
    ensures ChargeTax(12) == Debited(1) && ChargeTax(13) == Debited(2)
  {
  }
}
