/**
 * The shape of the signed-in user and of one cart line as the cart hook
 * hands them to the pages: a cart row joined with its product's live name,
 * price and stock. How the hook loads, merges or clamps lines is not part
 * of this model.
 */
module CartLines {

  /** The signed-in user, as far as the pages use it. */
  datatype User = User(id: string)

  /** The product columns joined onto a cart row (`item.products`); price in cents. */
  datatype CartProduct = CartProduct(id: string, name: string, price: int, stock: int, imageUrl: string)

  /** One cart row: its own id, the product it refers to, the quantity and the joined product. */
  datatype CartLine = CartLine(id: string, productId: string, quantity: int, product: CartProduct)

  /** A line's amount as the pages show it, `price × quantity`. */
  function LineTotal(line: CartLine): (amount: int)
    ensures line.product.price >= 0 && line.quantity >= 0 ==> amount >= 0
    ensures line.product.price >= 0 && line.quantity >= 1 ==> amount >= line.product.price
  {
    line.product.price * line.quantity
  }

  /** Sum of the line amounts at the products' current prices. */
  function LinesSubtotal(lines: seq<CartLine>): int {
    if lines == [] then 0 else LineTotal(lines[0]) + LinesSubtotal(lines[1..])
  }
}
