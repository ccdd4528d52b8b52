/**
 * The storefront's shipping rule, shared by the cart summary and checkout.
 * Amounts are integer cents: the threshold of 50 dollars is 5000 and the
 * flat fee of 5 dollars is 500.
 */
module Pricing {
  import opened Wrappers

  /** Subtotal (in cents) at or above which shipping is free. */
  const FreeShippingThreshold: int := 5000

  /** Flat shipping fee (in cents) below the threshold. */
  const ShippingFee: int := 500

  /** `cartTotal >= 50 ? 0 : 5`: free from the threshold on (inclusive), otherwise the flat fee. */
  function ShippingCost(subtotal: int): (fee: int)
    ensures fee == 0 <==> subtotal >= FreeShippingThreshold
    ensures fee == ShippingFee <==> subtotal < FreeShippingThreshold
  {
    if subtotal >= FreeShippingThreshold then 0 else ShippingFee
  }

  /** How a summary shows the shipping cost: the word "Free", or the fee in cents. */
  datatype ShippingLabel = Free | Fee(cents: int)

  /** `cartTotal + shippingCost`: what an order costs, given the cart's subtotal. */
  function OrderTotal(subtotal: int): (total: int)
    ensures total - subtotal == ShippingCost(subtotal)
    ensures total == subtotal || total == subtotal + ShippingFee
    ensures total >= subtotal
  {
    subtotal + ShippingCost(subtotal)
  }

  /**
   * The "add $X more for free shipping" hint: present exactly below the
   * threshold, and then the amount that brings the subtotal to it.
   */
  function AmountToFreeShipping(subtotal: int): (more: Option<int>)
    ensures more.Some? <==> subtotal < FreeShippingThreshold
    ensures more.Some? ==> more.value > 0 && subtotal + more.value == FreeShippingThreshold
  {
    if subtotal < FreeShippingThreshold then Some(FreeShippingThreshold - subtotal) else None
  }

  /** Following the hint exactly lands on free shipping: the order then costs its subtotal. */
  lemma HintReachesFreeShipping(subtotal: int)
    requires subtotal < FreeShippingThreshold
    ensures AmountToFreeShipping(subtotal).Some?
    ensures var goal := subtotal + AmountToFreeShipping(subtotal).value;
            ShippingCost(goal) == 0 && OrderTotal(goal) == FreeShippingThreshold
  {
  }

  /**
   * The total is not monotone in the subtotal: just below the threshold an
   * order costs more than one at the threshold.
   */
  lemma TotalDropsAtThreshold()
    ensures OrderTotal(FreeShippingThreshold - 1) > OrderTotal(FreeShippingThreshold)
  {
  }
}
