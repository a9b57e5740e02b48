/**
 * The shop's entities as they are stored: one datatype per table row, the
 * failures the services raise, and the sums the cart keeps.
 *
 * Prices are whole numbers of the smallest currency unit, so every total is
 * exact. Timestamps are not kept, except a product's `createdAt`, which is an
 * opaque number the services carry but never change.
 */
module Model {

  type UserId = int

  /** A product's primary key. The services receive it as a number and look it up by its decimal text. */
  type ProductKey = string

  datatype Option<T> = None | Some(value: T)

  datatype Result<T> = Ok(value: T) | Err(error: Error)

  /** A (name, value) pair of a product's specification list. */
  datatype Specification = Specification(name: string, value: string)

  datatype Product = Product(
    id: ProductKey,
    name: string,
    description: string,
    fullDescription: string,
    price: int,
    discount: int,
    image: string,
    images: seq<string>,
    category: string,
    brand: string,
    rating: int,
    reviews: int,
    stock: int,
    createdAt: int,
    sellerId: int,
    specifications: seq<Specification>)

  /**
   * A line of a cart. `recordedPrice` is the product's price when the line was
   * added; the stored row has no such column, see `CartService.IssueFor`.
   */
  datatype CartItem = CartItem(id: int, productId: ProductKey, quantity: int, recordedPrice: int)

  datatype Cart = Cart(id: int, userId: UserId, items: seq<CartItem>, totalItems: int, subtotal: int)

  /** A line of an order: the product's seller, price, image and name as they were at checkout. */
  datatype OrderLine = OrderLine(productId: int, sellerId: int, quantity: int, price: int, image: string, name: string)

  datatype Order = Order(
    id: int,
    userId: UserId,
    shippingAddress: string,
    paymentMethod: string,
    status: string,
    totalPrice: int,
    lines: seq<OrderLine>)

  datatype WishlistItem = WishlistItem(id: int, userId: UserId, productId: ProductKey)

  /** The runtime exceptions the services throw, each with its exact message. */
  datatype Error =
    | ProductNotFound
    | InsufficientStock
    | ProductAlreadyInCart
    | InvalidQuantity
    | CartItemNotFound
    | InsufficientStockFor(productName: string)
    | OrderNotFound
    | InvalidTransition(from: string, to: string)
    | ProductNotFoundWithId(key: ProductKey)
    | AlreadyInWishlist
    | ReferencedProduct
  {
    function Message(): string {
      match this
      case ProductNotFound => "Product not found"
      case InsufficientStock => "Insufficient stock"
      // "Product already in cart. Use update quantity instead.", in pieces the substring tests can see
      case ProductAlreadyInCart => "Product " + "already in cart" + ". Use update " + "quantity instead."
      case InvalidQuantity => "Invalid quantity"
      case CartItemNotFound => "Cart item not found"
      case InsufficientStockFor(n) => "Insufficient stock for product: " + n
      case OrderNotFound => "Order not found"
      case InvalidTransition(f, t) => "Invalid status transition from " + f + " to " + t
      case ProductNotFoundWithId(k) => "Product not found with id: " + k
      case AlreadyInWishlist => "Product already in wishlist"
      // raised by the store, not by the services: a foreign key still points at the row
      case ReferencedProduct => "could not execute statement"
    }
  }

  /** Every line of `items` names a product of `products`. */
  ghost predicate LinesResolve(items: seq<CartItem>, products: map<ProductKey, Product>) {
    forall i :: 0 <= i < |items| ==> items[i].productId in products
  }

  /** Σ quantity over the lines. */
  function TotalItems(items: seq<CartItem>): int
    decreases |items|
  {
    if items == [] then 0
    else TotalItems(items[..|items| - 1]) + items[|items| - 1].quantity
  }

  /** Σ (current price × quantity) over the lines. */
  function Subtotal(items: seq<CartItem>, products: map<ProductKey, Product>): int
    requires LinesResolve(items, products)
    decreases |items|
  {
    if items == [] then 0
    else
      var last := items[|items| - 1];
      Subtotal(items[..|items| - 1], products) + products[last.productId].price * last.quantity
  }

  /** Both cart totals agree with a full re-scan of the lines at the given prices. */
  ghost predicate TotalsMatch(c: Cart, products: map<ProductKey, Product>) {
    LinesResolve(c.items, products)
    && c.totalItems == TotalItems(c.items)
    && c.subtotal == Subtotal(c.items, products)
  }

  /** The sums distribute over concatenation. */
  lemma {:induction false} SumsAppend(a: seq<CartItem>, b: seq<CartItem>, products: map<ProductKey, Product>)
    requires LinesResolve(a, products) && LinesResolve(b, products)
    ensures LinesResolve(a + b, products)
    ensures TotalItems(a + b) == TotalItems(a) + TotalItems(b)
    ensures Subtotal(a + b, products) == Subtotal(a, products) + Subtotal(b, products)
    decreases |b|
  {
    if b == [] {
      assert a + b == a;
    } else {
      var b' := b[..|b| - 1];
      assert (a + b)[..|a + b| - 1] == a + b';
      SumsAppend(a, b', products);
    }
  }
}
