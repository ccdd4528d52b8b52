/**
 * Checkout: the shipping-address rules, the render-time redirects and
 * summary, and the submit handler that turns the cart into an order.
 *
 * The backend is an abstract `Store` holding the orders table, the
 * order-items table and the user's cart. Each write the handler awaits
 * takes an explicit success input, so every partial-write outcome can be
 * stated. The id the backend gives a new order is an input as well.
 */
module Checkout {
  import opened Wrappers
  import opened Pricing
  import opened CartLines

  // ---------------------------------------------------------------------
  // Shipping address and its schema
  // ---------------------------------------------------------------------

  datatype Address = Address(fullName: string, address: string, city: string, zipCode: string, phone: string)

  /** An empty form, as the page starts. */
  const EmptyAddress := Address("", "", "", "", "")

  /** The schema's fields, in the order the schema declares them. */
  datatype Field = FullName | Street | City | ZipCode | Phone

  /** The key under which a field appears in the form and in the error map. */
  function Key(f: Field): (k: string)
    ensures k != ""
  {
    match f
    case FullName => "fullName"
    case Street => "address"
    case City => "city"
    case ZipCode => "zipCode"
    case Phone => "phone"
  }

  /** The schema's minimum length for each field. */
  function MinLength(f: Field): (n: nat)
    ensures 2 <= n <= 10
  {
    match f
    case FullName => 2
    case Street => 5
    case City => 2
    case ZipCode => 3
    case Phone => 10
  }

  /** The message the schema attaches to a too-short field. */
  function Message(f: Field): (msg: string)
    ensures |msg| > 12 && msg[|msg| - 12..] == " is required"
  {
    match f
    case FullName => "Full name is required"
    case Street => "Address is required"
    case City => "City is required"
    case ZipCode => "ZIP code is required"
    case Phone => "Phone number is required"
  }

  function Value(a: Address, f: Field): string {
    match f
    case FullName => a.fullName
    case Street => a.address
    case City => a.city
    case ZipCode => a.zipCode
    case Phone => a.phone
  }

  /**
   * A string's length as JavaScript's `.length` counts it, in UTF-16 code
   * units: a character outside the Basic Multilingual Plane takes a
   * surrogate pair and counts twice.
   */
  function Utf16Length(s: string): (n: nat)
    ensures |s| <= n <= 2 * |s|
  {
    if s == [] then 0
    else (if s[0] as int < 0x1_0000 then 1 else 2) + Utf16Length(s[1..])
  }

  /** The UTF-16 length is the number of characters exactly when every character lies in the Basic Multilingual Plane. */
  lemma {:induction false} Utf16LengthBmp(s: string)
    ensures Utf16Length(s) == |s| <==> forall i :: 0 <= i < |s| ==> s[i] as int < 0x1_0000
    decreases |s|
  {
    if s != [] {
      Utf16LengthBmp(s[1..]);
      assert forall i :: 1 <= i < |s| ==> s[i] == s[1..][i - 1];
    }
  }

  /**
   * A one-character full name outside the Basic Multilingual Plane meets the
   * two-character minimum, as `.length` sees it, although it is a single
   * character.
   */
  lemma AstralNameMeetsMinimum()
    ensures |"\U{2000B}"| == 1
    ensures Utf16Length("\U{2000B}") == MinLength(FullName)
    ensures !TooShort(Address("\U{2000B}", "Main St", "Oslo", "123", "0123456789"), FullName)
  {
    assert "\U{2000B}"[1..] == [];
  }

  /** The schema's `min` check fails: the value has fewer code units than the field's minimum. */
  predicate TooShort(a: Address, f: Field) {
    Utf16Length(Value(a, f)) < MinLength(f)
  }

  /** The schema accepts an address when no field is too short. */
  predicate AddressValid(a: Address) {
    forall f: Field :: !TooShort(a, f)
  }

  /** One validation issue: the path of the offending value and its message. */
  datatype Issue = Issue(path: seq<string>, message: string)

  /** The issues for one field: one issue keyed by the field, or none. */
  function FieldIssues(a: Address, f: Field): (r: seq<Issue>)
    ensures |r| <= 1
    ensures r != [] <==> TooShort(a, f)
    ensures r != [] ==> r[0] == Issue([Key(f)], Message(f))
  {
    if TooShort(a, f) then [Issue([Key(f)], Message(f))] else []
  }

  /** All issues the schema reports, every field checked, in declaration order. */
  function AddressIssues(a: Address): (r: seq<Issue>)
    ensures r == [] <==> AddressValid(a)
  {
    FieldIssues(a, FullName) + FieldIssues(a, Street) + FieldIssues(a, City)
    + FieldIssues(a, ZipCode) + FieldIssues(a, Phone)
  }

  /** An issue whose first path element is a non-empty (truthy) key. */
  predicate Keyed(issue: Issue) {
    |issue.path| > 0 && issue.path[0] != ""
  }

  /**
   * The error map built from a list of issues, one assignment per keyed
   * issue in order, so that a later issue for the same key wins.
   */
  function ErrorMap(issues: seq<Issue>): (m: map<string, string>)
    ensures |m| <= |issues|
    decreases |issues|
  {
    if issues == [] then map[]
    else
      var m := ErrorMap(issues[..|issues| - 1]);
      var last := issues[|issues| - 1];
      if Keyed(last) then m[last.path[0] := last.message] else m
  }

  /** Building the map over two runs of issues is overlaying the second run's map on the first's. */
  lemma {:induction false} ErrorMapAppend(xs: seq<Issue>, ys: seq<Issue>)
    ensures ErrorMap(xs + ys) == ErrorMap(xs) + ErrorMap(ys)
    decreases |ys|
  {
    if ys == [] {
      assert xs + ys == xs;
    } else {
      var init := ys[..|ys| - 1];
      assert (xs + ys)[..|xs + ys| - 1] == xs + init;
      assert (xs + ys)[|xs + ys| - 1] == ys[|ys| - 1];
      ErrorMapAppend(xs, init);
    }
  }

  /**
   * The error map's keys are exactly the first path elements of the keyed
   * issues: every keyed issue leaves its key, and no other key appears.
   */
  lemma {:induction false} ErrorMapKeys(issues: seq<Issue>)
    ensures forall i :: 0 <= i < |issues| && Keyed(issues[i]) ==> issues[i].path[0] in ErrorMap(issues)
    ensures forall k :: k in ErrorMap(issues) ==>
              exists i :: 0 <= i < |issues| && Keyed(issues[i]) && issues[i].path[0] == k
    decreases |issues|
  {
    if issues != [] {
      var init := issues[..|issues| - 1];
      var last := |issues| - 1;
      ErrorMapKeys(init);
      forall i | 0 <= i < |issues| && Keyed(issues[i]) ensures issues[i].path[0] in ErrorMap(issues) {
        if i < last {
          assert issues[i] == init[i];
        }
      }
      forall k | k in ErrorMap(issues)
        ensures exists i :: 0 <= i < |issues| && Keyed(issues[i]) && issues[i].path[0] == k
      {
        if !(Keyed(issues[last]) && issues[last].path[0] == k) {
          assert k in ErrorMap(init);
          var j :| 0 <= j < |init| && Keyed(init[j]) && init[j].path[0] == k;
          assert issues[j] == init[j];
        }
      }
    }
  }

  /** The error a single field contributes: its message under its key, or nothing. */
  function FieldError(a: Address, f: Field): map<string, string> {
    if TooShort(a, f) then map[Key(f) := Message(f)] else map[]
  }

  lemma FieldErrorMap(a: Address, f: Field)
    ensures ErrorMap(FieldIssues(a, f)) == FieldError(a, f)
  {
    if TooShort(a, f) {
      var issues := FieldIssues(a, f);
      assert issues[..0] == [];
    }
  }

  /** The address's error map is the overlay of the five fields' errors. */
  lemma AddressErrorsOverlay(a: Address)
    ensures ErrorMap(AddressIssues(a))
            == FieldError(a, FullName) + FieldError(a, Street) + FieldError(a, City)
               + FieldError(a, ZipCode) + FieldError(a, Phone)
  {
    var i1, i2, i3, i4, i5 := FieldIssues(a, FullName), FieldIssues(a, Street), FieldIssues(a, City),
                              FieldIssues(a, ZipCode), FieldIssues(a, Phone);
    ErrorMapAppend(i1 + i2 + i3 + i4, i5);
    ErrorMapAppend(i1 + i2 + i3, i4);
    ErrorMapAppend(i1 + i2, i3);
    ErrorMapAppend(i1, i2);
    FieldErrorMap(a, FullName);
    FieldErrorMap(a, Street);
    FieldErrorMap(a, City);
    FieldErrorMap(a, ZipCode);
    FieldErrorMap(a, Phone);
  }

  /** Field keys are distinct: their first letters already differ. */
  lemma KeyInjective(f: Field, g: Field)
    ensures Key(f) == Key(g) ==> f == g
  {
    if Key(f) == Key(g) {
      assert Key(f)[0] == Key(g)[0];
    }
  }

  /** The error map at one field's key. */
  lemma AddressErrorAt(a: Address, f: Field)
    ensures var m := ErrorMap(AddressIssues(a));
            && (Key(f) in m <==> TooShort(a, f))
            && (Key(f) in m ==> m[Key(f)] == Message(f))
  {
    AddressErrorsOverlay(a);
    var k := Key(f);
    var e1, e2, e3, e4, e5 := FieldError(a, FullName), FieldError(a, Street), FieldError(a, City),
                              FieldError(a, ZipCode), FieldError(a, Phone);
    KeyInjective(f, FullName);
    KeyInjective(f, Street);
    KeyInjective(f, City);
    KeyInjective(f, ZipCode);
    KeyInjective(f, Phone);
    assert k in e1 <==> f == FullName && TooShort(a, f);
    assert k in e2 <==> f == Street && TooShort(a, f);
    assert k in e3 <==> f == City && TooShort(a, f);
    assert k in e4 <==> f == ZipCode && TooShort(a, f);
    assert k in e5 <==> f == Phone && TooShort(a, f);
    var m := e1 + e2 + e3 + e4 + e5;
    assert k in m <==> k in e1 || k in e2 || k in e3 || k in e4 || k in e5;
    if k in m {
      match f
      case FullName => assert m[k] == e1[k];
      case Street => assert m[k] == e2[k];
      case City => assert m[k] == e3[k];
      case ZipCode => assert m[k] == e4[k];
      case Phone => assert m[k] == e5[k];
    }
  }

  /** Every key of the error map is some field's key. */
  lemma AddressErrorKeys(a: Address)
    ensures forall k :: k in ErrorMap(AddressIssues(a)) ==> exists f: Field :: Key(f) == k
  {
    AddressErrorsOverlay(a);
    forall k | k in ErrorMap(AddressIssues(a)) ensures exists f: Field :: Key(f) == k {
      if k in FieldError(a, FullName) {
        assert Key(FullName) == k;
      } else if k in FieldError(a, Street) {
        assert Key(Street) == k;
      } else if k in FieldError(a, City) {
        assert Key(City) == k;
      } else if k in FieldError(a, ZipCode) {
        assert Key(ZipCode) == k;
      } else {
        assert k in FieldError(a, Phone);
        assert Key(Phone) == k;
      }
    }
  }

  /**
   * The field errors the page shows for an address: exactly one error per
   * too-short field, keyed by that field's name and carrying its message,
   * and no other key.
   */
  lemma AddressErrors(a: Address)
    ensures var m := ErrorMap(AddressIssues(a));
            && (forall f: Field :: Key(f) in m <==> TooShort(a, f))
            && (forall f: Field :: Key(f) in m ==> m[Key(f)] == Message(f))
            && (forall k :: k in m ==> exists f: Field :: Key(f) == k)
            && (m == map[] <==> AddressValid(a))
  {
    forall f: Field {
      AddressErrorAt(a, f);
    }
    AddressErrorKeys(a);
  }

  /** The `forEach` over the issues that fills `fieldErrors` in place. */
  method CollectFieldErrors(issues: seq<Issue>) returns (fieldErrors: map<string, string>)
    ensures fieldErrors == ErrorMap(issues)
  {
    fieldErrors := map[];
    var i := 0;
    while i < |issues|
      invariant 0 <= i <= |issues|
      invariant fieldErrors == ErrorMap(issues[..i])
    {
      var issue := issues[i];
      assert issues[..i + 1][..i] == issues[..i];
      if |issue.path| > 0 && issue.path[0] != "" {
        fieldErrors := fieldErrors[issue.path[0] := issue.message];
      }
      i := i + 1;
    }
    assert issues[..i] == issues;
  }

  // ---------------------------------------------------------------------
  // Orders and order items
  // ---------------------------------------------------------------------

  /** The payment method the form starts with: cash on delivery. */
  const DefaultPaymentMethod := "cod"

  /** The status every new order is created with. */
  const PendingStatus := "pending"

  datatype Order = Order(id: string, userId: string, totalAmount: int, shippingAddress: Address,
                         paymentMethod: string, status: string)

  datatype OrderItem = OrderItem(orderId: string, productId: string, quantity: int, price: int)

  /** The order row the handler inserts (with the id the backend assigns). */
  function NewOrder(id: string, user: User, cartTotal: int, address: Address, paymentMethod: string): (o: Order)
    ensures o.id == id
    ensures o.userId == user.id && o.shippingAddress == address && o.paymentMethod == paymentMethod
    ensures o.status == PendingStatus
    ensures o.totalAmount - cartTotal == ShippingCost(cartTotal)
  {
    Order(id, user.id, OrderTotal(cartTotal), address, paymentMethod, PendingStatus)
  }

  /** The `cartItems.map`: one item per cart line, the line's price captured now. */
  function OrderItemsFor(orderId: string, lines: seq<CartLine>): (items: seq<OrderItem>)
    ensures |items| == |lines|
    ensures forall i :: 0 <= i < |lines| ==>
              && items[i].orderId == orderId
              && items[i].productId == lines[i].productId
              && items[i].quantity == lines[i].quantity
              && items[i].price == lines[i].product.price
  {
    if lines == [] then []
    else [OrderItem(orderId, lines[0].productId, lines[0].quantity, lines[0].product.price)]
         + OrderItemsFor(orderId, lines[1..])
  }

  /** Sum of `price × quantity` over order items. */
  function ItemsSubtotal(items: seq<OrderItem>): int {
    if items == [] then 0 else items[0].price * items[0].quantity + ItemsSubtotal(items[1..])
  }

  /**
   * The items of an order are worth what the cart was worth at submission:
   * their captured prices give back the cart's subtotal at live prices.
   */
  lemma {:induction false} ItemsMatchCart(orderId: string, lines: seq<CartLine>)
    ensures ItemsSubtotal(OrderItemsFor(orderId, lines)) == LinesSubtotal(lines)
  {
    if lines != [] {
      ItemsMatchCart(orderId, lines[1..]);
    }
  }

  /**
   * When the hook's total is the cart's live subtotal, the order's total is
   * its items' worth plus the shipping fee.
   */
  lemma OrderTotalCoversItems(id: string, user: User, cartTotal: int, address: Address, pm: string,
                              lines: seq<CartLine>)
    requires cartTotal == LinesSubtotal(lines)
    ensures NewOrder(id, user, cartTotal, address, pm).totalAmount
            == ItemsSubtotal(OrderItemsFor(id, lines)) + ShippingCost(cartTotal)
  {
    ItemsMatchCart(id, lines);
  }

  // ---------------------------------------------------------------------
  // The backend
  // ---------------------------------------------------------------------

  /** The tables the checkout writes and the user's cart as the cart hook holds it. */
  class Store {
    var orders: seq<Order>
    var orderItems: seq<OrderItem>
    var cartItems: seq<CartLine>

    constructor(orders: seq<Order>, orderItems: seq<OrderItem>, cartItems: seq<CartLine>)
      ensures this.orders == orders && this.orderItems == orderItems && this.cartItems == cartItems
    {
      this.orders := orders;
      this.orderItems := orderItems;
      this.cartItems := cartItems;
    }

    /** Inserts one order row; `ok` says whether the backend accepted it. */
    method InsertOrder(order: Order, ok: bool)
      modifies this`orders
      ensures orders == if ok then old(orders) + [order] else old(orders)
    {
      if ok {
        orders := orders + [order];
      }
    }

    /** Inserts all items in one request, all or none. */
    method InsertOrderItems(items: seq<OrderItem>, ok: bool)
      modifies this`orderItems
      ensures orderItems == if ok then old(orderItems) + items else old(orderItems)
    {
      if ok {
        orderItems := orderItems + items;
      }
    }

    /** The cart hook's `clearCart`, taken as all or nothing. */
    method ClearCart(ok: bool)
      modifies this`cartItems
      ensures cartItems == if ok then [] else old(cartItems)
    {
      if ok {
        cartItems := [];
      }
    }
  }

  /** What the backend answers to the three writes of one submission. */
  datatype Replies = Replies(orderInsertOk: bool, newOrderId: string, itemsInsertOk: bool, clearCartOk: bool)

  /**
   * How a submission ends. `Placed` stands for the success toast and the
   * navigation to the dashboard; every other outcome leaves the user on the
   * form with inline errors (`InvalidAddress`) or an error toast.
   */
  datatype SubmitOutcome =
    | InvalidAddress
    | NotSignedIn
    | CartEmpty
    | OrderInsertFailed
    | ItemsInsertFailed
    | CartClearFailed
    | Placed(orderId: string)

  /** All three checks pass, in their order: address, signed-in user, non-empty cart. */
  predicate ReadyToOrder(a: Address, user: Option<User>, cart: seq<CartLine>) {
    AddressValid(a) && user.Some? && |cart| > 0
  }

  // ---------------------------------------------------------------------
  // The page
  // ---------------------------------------------------------------------

  /** One row of the order summary: product name, quantity and line amount. */
  datatype SummaryLine = SummaryLine(name: string, quantity: int, amount: int)

  /** What the page renders before any form interaction: a redirect or the summary. */
  datatype CheckoutView =
    | RedirectTo(path: string)
    | Summary(lines: seq<SummaryLine>, subtotal: int, shipping: ShippingLabel, total: int)

  function SummaryLines(lines: seq<CartLine>): (r: seq<SummaryLine>)
    ensures |r| == |lines|
    ensures forall i :: 0 <= i < |lines| ==>
              r[i] == SummaryLine(lines[i].product.name, lines[i].quantity, lines[i].product.price * lines[i].quantity)
  {
    if lines == [] then [] else [SummaryLine(lines[0].product.name, lines[0].quantity, LineTotal(lines[0]))]
                                + SummaryLines(lines[1..])
  }

  /** The render: to sign-in without a user, back to the cart when it is empty, else the summary. */
  function RenderCheckout(user: Option<User>, cart: seq<CartLine>, cartTotal: int): (v: CheckoutView)
    ensures user.None? ==> v == RedirectTo("/auth")
    ensures user.Some? && cart == [] ==> v == RedirectTo("/cart")
    ensures v.Summary? <==> user.Some? && cart != []
    ensures v.Summary? ==> && v.subtotal == cartTotal && v.lines == SummaryLines(cart)
                           && v.total == OrderTotal(cartTotal)
                           && (v.shipping == Free <==> cartTotal >= FreeShippingThreshold)
                           && (v.shipping != Free ==> v.shipping == Fee(ShippingFee))
  {
    if user.None? then RedirectTo("/auth")
    else if cart == [] then RedirectTo("/cart")
    else
      var fee := ShippingCost(cartTotal);
      Summary(SummaryLines(cart), cartTotal, if fee == 0 then Free else Fee(fee), cartTotal + fee)
  }

  /** The summary shows the very total a submission puts on the order. */
  lemma SummaryShowsOrderTotal(id: string, user: User, cart: seq<CartLine>, cartTotal: int, a: Address, pm: string)
    requires cart != []
    ensures RenderCheckout(Some(user), cart, cartTotal).total == NewOrder(id, user, cartTotal, a, pm).totalAmount
  {
  }

  class CheckoutPage {
    const store: Store
    var address: Address
    var paymentMethod: string
    var errors: map<string, string>
    var loading: bool

    constructor(store: Store)
      ensures this.store == store
      ensures address == EmptyAddress && paymentMethod == DefaultPaymentMethod
      ensures errors == map[] && !loading
    {
      this.store := store;
      address := EmptyAddress;
      paymentMethod := DefaultPaymentMethod;
      errors := map[];
      loading := false;
    }

    /**
     * The submit handler. Checks run in order (address, user, cart); then
     * the order is inserted, then its items, then the cart is cleared, each
     * step only after the previous one succeeded, with no compensation.
     */
    method HandleSubmit(user: Option<User>, cartTotal: int, replies: Replies) returns (outcome: SubmitOutcome)
      modifies this, store
      ensures !loading
      ensures address == old(address) && paymentMethod == old(paymentMethod)
      // which outcome
      ensures outcome == InvalidAddress <==> !AddressValid(address)
      ensures outcome == NotSignedIn <==> AddressValid(address) && user.None?
      ensures outcome == CartEmpty <==> AddressValid(address) && user.Some? && old(store.cartItems) == []
      ensures outcome == OrderInsertFailed <==>
                ReadyToOrder(address, user, old(store.cartItems)) && !replies.orderInsertOk
      ensures outcome == ItemsInsertFailed <==>
                ReadyToOrder(address, user, old(store.cartItems)) && replies.orderInsertOk && !replies.itemsInsertOk
      ensures outcome == CartClearFailed <==>
                ReadyToOrder(address, user, old(store.cartItems)) && replies.orderInsertOk
                && replies.itemsInsertOk && !replies.clearCartOk
      ensures outcome.Placed? <==>
                ReadyToOrder(address, user, old(store.cartItems)) && replies.orderInsertOk
                && replies.itemsInsertOk && replies.clearCartOk
      ensures outcome.Placed? ==> outcome.orderId == replies.newOrderId
      // inline field errors only for an invalid address
      ensures errors == if outcome == InvalidAddress then ErrorMap(AddressIssues(address)) else map[]
      // the writes
      ensures store.orders == old(store.orders) +
                if ReadyToOrder(address, user, old(store.cartItems)) && replies.orderInsertOk
                then [NewOrder(replies.newOrderId, user.value, cartTotal, address, paymentMethod)]
                else []
      ensures store.orderItems == old(store.orderItems) +
                if ReadyToOrder(address, user, old(store.cartItems)) && replies.orderInsertOk && replies.itemsInsertOk
                then OrderItemsFor(replies.newOrderId, old(store.cartItems))
                else []
      ensures store.cartItems == if outcome.Placed? then [] else old(store.cartItems)
    {
      errors := map[];
      var issues := AddressIssues(address);
      if issues != [] {
        var fieldErrors := CollectFieldErrors(issues);
        errors := fieldErrors;
        loading := false;
        return InvalidAddress;
      }
      if user.None? {
        loading := false;
        return NotSignedIn;
      }
      var cart := store.cartItems;
      if |cart| == 0 {
        loading := false;
        return CartEmpty;
      }

      loading := true;
      var order := NewOrder(replies.newOrderId, user.value, cartTotal, address, paymentMethod);
      store.InsertOrder(order, replies.orderInsertOk);
      if !replies.orderInsertOk {
        loading := false;
        return OrderInsertFailed;
      }

      var items := OrderItemsFor(order.id, cart);
      store.InsertOrderItems(items, replies.itemsInsertOk);
      if !replies.itemsInsertOk {
        loading := false;
        return ItemsInsertFailed;
      }

      store.ClearCart(replies.clearCartOk);
      if !replies.clearCartOk {
        loading := false;
        return CartClearFailed;
      }

      loading := false;
      outcome := Placed(order.id);
    }
  }
}
