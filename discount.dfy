/** The threshold discount rule: a percentage discount that applies only
    from 20 percent upwards. */
module Discount {

  /** The price after the discount, or the price unchanged below 20 percent. */
  function CalculateDiscount(price: real, discountPercent: real): (finalPrice: real)
    ensures discountPercent < 20.0 ==> finalPrice == price
    ensures discountPercent >= 20.0 ==> finalPrice == price * (1.0 - discountPercent / 100.0)
  {
    if discountPercent >= 20.0 then
      var discountAmount := (discountPercent / 100.0) * price;
      price - discountAmount
    else
      price
  }

  /** The threshold is inclusive: exactly 20 percent takes a fifth off. */
  lemma ThresholdIsInclusive(price: real)
    ensures CalculateDiscount(price, 20.0) == 0.8 * price
    ensures forall pct :: pct < 20.0 ==> CalculateDiscount(price, pct) == price
  {
  }

  /** A full discount makes the item free. */
  lemma FullDiscountIsFree(price: real)
    ensures CalculateDiscount(price, 100.0) == 0.0
  {
  }

  /** For a non-negative price and a discount between 20 and 100 percent the
      result lies between zero and the original price, and a larger discount
      never gives a higher price. */
  lemma DiscountWithinBounds(price: real, pct: real, larger: real)
    requires price >= 0.0 && 20.0 <= pct <= larger <= 100.0
    ensures 0.0 <= CalculateDiscount(price, pct) <= price
    ensures CalculateDiscount(price, larger) <= CalculateDiscount(price, pct)
  {
    var keep := 1.0 - pct / 100.0;
    assert 0.0 <= keep <= 0.8;
    assert 0.0 <= price * keep <= price * 1.0;
    assert (1.0 - larger / 100.0) <= keep;
    assert price * (1.0 - larger / 100.0) <= price * keep;
  }
}
