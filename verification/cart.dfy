/**
 * The cart page: which view it shows, the order summary (the same shipping
 * rule as checkout), the free-shipping hint, and the per-line controls.
 * Every change to the cart goes through the cart hook, which is not part of
 * this model; the page only decides which quantity the +/- buttons request.
 */
module CartPage {
  import opened Wrappers
  import opened Pricing
  import opened CartLines

  /** A call to the hook's `updateQuantity(lineId, quantity)`. */
  datatype QuantityUpdate = QuantityUpdate(lineId: string, quantity: int)

  /** The "-" button: requests one less, and is disabled (`None`) at a quantity of 1 or less. */
  function DecrementRequest(line: CartLine): (r: Option<QuantityUpdate>)
    ensures r.Some? <==> line.quantity > 1
    ensures r.Some? ==> r.value.lineId == line.id && r.value.quantity + 1 == line.quantity
    ensures r.Some? ==> r.value.quantity >= 1
  {
    if line.quantity <= 1 then None else Some(QuantityUpdate(line.id, line.quantity - 1))
  }

  /** The "+" button: requests one more, and is disabled (`None`) once the quantity reaches stock. */
  function IncrementRequest(line: CartLine): (r: Option<QuantityUpdate>)
    ensures r.Some? <==> line.quantity < line.product.stock
    ensures r.Some? ==> r.value.lineId == line.id && r.value.quantity == line.quantity + 1
    ensures r.Some? ==> r.value.quantity <= line.product.stock
  {
    if line.quantity >= line.product.stock then None else Some(QuantityUpdate(line.id, line.quantity + 1))
  }

  /** The "Only N left in stock" notice, shown below ten units. */
  function LowStockNotice(line: CartLine): (r: Option<int>)
    ensures r.Some? <==> line.product.stock < 10
    ensures r.Some? ==> r.value == line.product.stock
  {
    if line.product.stock < 10 then Some(line.product.stock) else None
  }

  /** One rendered line: its amount and its controls. */
  datatype LineView = LineView(line: CartLine, amount: int, decrement: Option<QuantityUpdate>,
                               increment: Option<QuantityUpdate>, lowStock: Option<int>)

  datatype CartView =
    | SignInPrompt
    | LoadingCart
    | EmptyCart
    | CartList(lines: seq<LineView>, subtotal: int, shipping: ShippingLabel, total: int,
               freeShippingHint: Option<int>)

  function RenderLines(items: seq<CartLine>): (r: seq<LineView>)
    ensures |r| == |items|
    ensures forall i :: 0 <= i < |items| ==>
              && r[i].line == items[i]
              && r[i].amount == items[i].product.price * items[i].quantity
              && r[i].decrement == DecrementRequest(items[i])
              && r[i].increment == IncrementRequest(items[i])
              && r[i].lowStock == LowStockNotice(items[i])
  {
    if items == [] then []
    else [LineView(items[0], LineTotal(items[0]), DecrementRequest(items[0]), IncrementRequest(items[0]),
                   LowStockNotice(items[0]))]
         + RenderLines(items[1..])
  }

  /**
   * The page: the sign-in prompt first, then the loading notice, then the
   * empty-cart notice, and only then the list with its summary.
   */
  function RenderCart(user: Option<User>, loading: bool, items: seq<CartLine>, cartTotal: int): (v: CartView)
    ensures v == SignInPrompt <==> user.None?
    ensures v == LoadingCart <==> user.Some? && loading
    ensures v == EmptyCart <==> user.Some? && !loading && items == []
    ensures v.CartList? <==> user.Some? && !loading && items != []
    ensures v.CartList? ==> v.lines == RenderLines(items)
  {
    if user.None? then SignInPrompt
    else if loading then LoadingCart
    else if items == [] then EmptyCart
    else
      CartList(RenderLines(items), cartTotal,
               if cartTotal >= FreeShippingThreshold then Free else Fee(ShippingFee),
               cartTotal + ShippingCost(cartTotal),
               AmountToFreeShipping(cartTotal))
  }

  /**
   * The summary: "Free" exactly from the threshold on, else the flat fee;
   * the total is the order total checkout charges; the hint appears exactly
   * below the threshold and names the positive amount that reaches it.
   */
  lemma SummaryRules(user: Option<User>, loading: bool, items: seq<CartLine>, cartTotal: int)
    requires RenderCart(user, loading, items, cartTotal).CartList?
    ensures var v := RenderCart(user, loading, items, cartTotal);
            && v.subtotal == cartTotal
            && (v.shipping == Free <==> cartTotal >= FreeShippingThreshold)
            && (v.shipping != Free ==> v.shipping == Fee(ShippingFee))
            && v.total == OrderTotal(cartTotal)
            && (v.freeShippingHint.Some? <==> cartTotal < FreeShippingThreshold)
            && (v.freeShippingHint.Some? ==>
                  v.freeShippingHint.value > 0 && cartTotal + v.freeShippingHint.value == FreeShippingThreshold)
  {
  }

  /**
   * Whatever the cart holds, no enabled button on the page requests a
   * quantity below 1 or above the line's stock.
   */
  lemma RequestsStayInBounds(user: Option<User>, loading: bool, items: seq<CartLine>, cartTotal: int)
    ensures var v := RenderCart(user, loading, items, cartTotal);
            v.CartList? ==>
              forall i :: 0 <= i < |v.lines| ==>
                && (v.lines[i].decrement.Some? ==> 1 <= v.lines[i].decrement.value.quantity)
                && (v.lines[i].increment.Some? ==>
                      v.lines[i].increment.value.quantity <= v.lines[i].line.product.stock)
  {
  }

  /**
   * A line whose quantity is already within [1, stock] keeps it within
   * [1, stock] whichever enabled button is pressed.
   */
  lemma ButtonsKeepQuantityInRange(line: CartLine)
    requires 1 <= line.quantity <= line.product.stock
    ensures DecrementRequest(line).Some? ==>
              1 <= DecrementRequest(line).value.quantity <= line.product.stock
    ensures IncrementRequest(line).Some? ==>
              1 <= IncrementRequest(line).value.quantity <= line.product.stock
  {
  }
}
