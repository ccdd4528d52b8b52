/**
 * The product page: the loaded product, the selected image, the quantity
 * stepper clamped to [1, stock], the add-to-cart request, and the image
 * list (main image first, then the extra images, empty entries dropped).
 */
module ProductDetail {
  import opened Wrappers

  /** A product row as the page loads it; price in cents, image entries possibly null. */
  datatype Product = Product(id: string, name: string, price: int, imageUrl: Option<string>,
                             images: Option<seq<Option<string>>>, stock: int, isFeatured: bool)

  // ---------------------------------------------------------------------
  // Images
  // ---------------------------------------------------------------------

  /** `filter(Boolean)` on an image entry: null and the empty string are dropped. */
  predicate Present(entry: Option<string>) {
    entry.Some? && entry.value != ""
  }

  /** The entries that survive `filter(Boolean)`, in their order. */
  function Compact(entries: seq<Option<string>>): (r: seq<string>)
    ensures |r| <= |entries|
    ensures forall i :: 0 <= i < |r| ==> r[i] != ""
    ensures forall x :: x in r <==> x != "" && Some(x) in entries
  {
    if entries == [] then []
    else if Present(entries[0]) then [entries[0].value] + Compact(entries[1..])
    else Compact(entries[1..])
  }

  /** Filtering a concatenation is concatenating the filtered parts: the order is kept. */
  lemma {:induction false} CompactAppend(xs: seq<Option<string>>, ys: seq<Option<string>>)
    ensures Compact(xs + ys) == Compact(xs) + Compact(ys)
  {
    if xs == [] {
      assert xs + ys == ys;
    } else {
      assert (xs + ys)[0] == xs[0];
      assert (xs + ys)[1..] == xs[1..] + ys;
      CompactAppend(xs[1..], ys);
    }
  }

  /** `[product.image_url, ...(product.images || [])].filter(Boolean)`. */
  function AllImages(p: Product): (r: seq<string>)
    ensures forall i :: 0 <= i < |r| ==> r[i] != ""
    ensures forall x :: x in r <==> x != "" && (p.imageUrl == Some(x) || Some(x) in p.images.GetOr([]))
  {
    Compact([p.imageUrl] + p.images.GetOr([]))
  }

  /**
   * The image list is the main image (when it is present) followed by the
   * extra images, with the null and empty ones left out, in their order.
   */
  lemma AllImagesOrder(p: Product)
    ensures AllImages(p) == (if Present(p.imageUrl) then [p.imageUrl.value] else []) + Compact(p.images.GetOr([]))
    ensures |AllImages(p)| <= 1 + |p.images.GetOr([])|
  {
    CompactAppend([p.imageUrl], p.images.GetOr([]));
    assert Compact([p.imageUrl]) == if Present(p.imageUrl) then [p.imageUrl.value] else [];
  }

  /**
   * Thumbnails are shown for more than one image: with a main image, from
   * one surviving extra image on; without one, from two.
   */
  function ShowThumbnails(p: Product): (r: bool)
    ensures r <==> |Compact(p.images.GetOr([]))| >= (if Present(p.imageUrl) then 1 else 2)
  {
    AllImagesOrder(p);
    |AllImages(p)| > 1
  }

  /** Without extra images there are never thumbnails. */
  lemma NoExtraImagesNoThumbnails(p: Product)
    requires p.images.None? || p.images == Some([])
    ensures !ShowThumbnails(p)
  {
    AllImagesOrder(p);
  }

  // ---------------------------------------------------------------------
  // Availability and the quantity stepper
  // ---------------------------------------------------------------------

  datatype Availability = InStock(available: int) | OutOfStock

  function AvailabilityOf(p: Product): (a: Availability)
    ensures a.InStock? <==> p.stock > 0
    ensures a.InStock? ==> a.available == p.stock
  {
    if p.stock > 0 then InStock(p.stock) else OutOfStock
  }

  /** The stepper and the add-to-cart button exist only for a product in stock. */
  function ShowsControls(p: Product): (r: bool)
    ensures r <==> AvailabilityOf(p).InStock?
  {
    p.stock > 0
  }

  /** `Math.max(1, quantity - 1)`. */
  function StepDown(q: int): (r: int)
    ensures r >= 1
    ensures q > 1 ==> r == q - 1
    ensures q <= 1 ==> r == 1
  {
    if q - 1 > 1 then q - 1 else 1
  }

  /** `Math.min(stock, quantity + 1)`. */
  function StepUp(q: int, stock: int): (r: int)
    ensures r <= stock
    ensures q < stock ==> r == q + 1
    ensures q >= stock ==> r == stock
  {
    if stock < q + 1 then stock else q + 1
  }

  datatype Step = Down | Up

  /** The quantity after a run of button presses. */
  function ApplySteps(q: int, stock: int, steps: seq<Step>): int
    decreases |steps|
  {
    if steps == [] then q
    else ApplySteps(if steps[0] == Down then StepDown(q) else StepUp(q, stock), stock, steps[1..])
  }

  /** A quantity within [1, stock] stays within [1, stock] after any run of presses. */
  lemma {:induction false} StepsStayInRange(q: int, stock: int, steps: seq<Step>)
    requires 1 <= q <= stock
    ensures 1 <= ApplySteps(q, stock, steps) <= stock
    decreases |steps|
  {
    if steps != [] {
      var next := if steps[0] == Down then StepDown(q) else StepUp(q, stock);
      StepsStayInRange(next, stock, steps[1..]);
    }
  }

  /** The starting quantity, 1, lies in range for every product that shows the stepper. */
  lemma InitialQuantityInRange(p: Product, steps: seq<Step>)
    requires ShowsControls(p)
    ensures 1 <= ApplySteps(1, p.stock, steps) <= p.stock
  {
    StepsStayInRange(1, p.stock, steps);
  }

  /** A call to the cart hook's `addToCart(productId, quantity)`. */
  datatype AddToCartCall = AddToCartCall(productId: string, quantity: int)

  // ---------------------------------------------------------------------
  // The page
  // ---------------------------------------------------------------------

  datatype ProductView =
    | Skeleton
    | NotFound
    | Details(product: Product, images: seq<string>, thumbnails: bool, availability: Availability,
              controls: bool)

  class ProductDetailPage {
    var product: Option<Product>
    var loading: bool
    var quantity: int
    var selectedImage: Option<string>

    /** The page's initial state: nothing loaded yet, loading, quantity 1. */
    constructor()
      ensures product == None && loading && quantity == 1 && selectedImage == None
    {
      product := None;
      loading := true;
      quantity := 1;
      selectedImage := None;
    }

    /**
     * The fetch of the product by slug: on success the product and its main
     * image are taken; on an error both stay as they were. Loading ends
     * either way. The quantity is not reset.
     */
    method FetchProduct(response: Option<Product>)
      modifies this
      ensures !loading
      ensures quantity == old(quantity)
      ensures response.Some? ==> product == response && selectedImage == response.value.imageUrl
      ensures response.None? ==> product == old(product) && selectedImage == old(selectedImage)
    {
      if response.Some? {
        product := response;
        selectedImage := response.value.imageUrl;
      }
      loading := false;
    }

    /** The quantity lies within [1, stock] of the loaded product. */
    predicate QuantityInRange()
      reads this
    {
      product.Some? && 1 <= quantity <= product.value.stock
    }

    /** The "-" button, which exists only for a product in stock and is enabled above 1. */
    method Decrement()
      requires product.Some? && ShowsControls(product.value)
      requires quantity > 1
      modifies this`quantity
      ensures quantity == StepDown(old(quantity))
      ensures quantity == old(quantity) - 1 && quantity >= 1
      ensures old(QuantityInRange()) ==> QuantityInRange()
    {
      quantity := if quantity - 1 > 1 then quantity - 1 else 1;
    }

    /** The "+" button, which exists only for a product in stock and is enabled below the stock. */
    method Increment()
      requires product.Some? && ShowsControls(product.value)
      requires quantity < product.value.stock
      modifies this`quantity
      ensures quantity == StepUp(old(quantity), product.value.stock)
      ensures quantity == old(quantity) + 1 && quantity <= product.value.stock
      ensures old(QuantityInRange()) ==> QuantityInRange()
    {
      var stock := product.value.stock;
      quantity := if stock < quantity + 1 then stock else quantity + 1;
    }

    /** A thumbnail click. */
    method SelectImage(image: string)
      modifies this`selectedImage
      ensures selectedImage == Some(image)
    {
      selectedImage := Some(image);
    }

    /** `handleAddToCart`: the loaded product's id with the current quantity, or nothing without a product. */
    function AddToCartRequest(): (call: Option<AddToCartCall>)
      reads this
      ensures call.Some? <==> product.Some?
      ensures call.Some? ==> call.value.productId == product.value.id && call.value.quantity == quantity
    {
      if product.Some? then Some(AddToCartCall(product.value.id, quantity)) else None
    }

    /** The render: a skeleton while loading, "not found" without a product, else the details. */
    function Render(): (v: ProductView)
      reads this
      ensures v == Skeleton <==> loading
      ensures v == NotFound <==> !loading && product.None?
      ensures v.Details? ==> && v.product == product.value
                             && v.images == AllImages(product.value)
                             && (v.thumbnails <==> |v.images| > 1)
                             && v.availability == AvailabilityOf(product.value)
                             && (v.availability.InStock? <==> product.value.stock > 0)
                             && (v.controls <==> product.value.stock > 0)
    {
      if loading then Skeleton
      else if product.None? then NotFound
      else
        var p := product.value;
        Details(p, AllImages(p), ShowThumbnails(p), AvailabilityOf(p), ShowsControls(p))
    }
  }
}
