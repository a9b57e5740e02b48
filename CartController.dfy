/**
 * The cart endpoints' error mapping and the reply to "clear cart".
 *
 * A failed cart operation's message is classified by substring tests, in a
 * fixed order, into an HTTP status and an error code.
 */
module CartController {
  import opened Model
  import opened Strings
  import opened Store
  import CartService

  /** The error body (`success`, `error`, `error_code`) and the HTTP status. */
  datatype ErrorResponse = ErrorResponse(status: int, success: bool, error: string, errorCode: Option<string>)

  /**
   * `handleCartError`: the first substring that occurs, in the order "not
   * found", "stock", "Invalid quantity", "already in cart", decides the reply;
   * a message with none of them is an internal error.
   */
  function HandleCartError(message: string): (r: ErrorResponse)
    ensures !r.success
    ensures r.status in {400, 404, 500}
    ensures r.status == 404 <==> Contains(message, "not found")
    ensures Contains(message, "not found") ==>
      r.errorCode == Some(if Contains(message, "Product") then "PRODUCT_NOT_FOUND" else "CART_ITEM_NOT_FOUND")
    ensures !Contains(message, "not found") && Contains(message, "stock") ==>
      r.status == 400 && r.errorCode == Some("INSUFFICIENT_STOCK")
    ensures !Contains(message, "not found") && !Contains(message, "stock") && Contains(message, "Invalid quantity") ==>
      r.status == 400 && r.errorCode == Some("INVALID_QUANTITY")
    ensures (!Contains(message, "not found") && !Contains(message, "stock") && !Contains(message, "Invalid quantity")
             && Contains(message, "already in cart")) ==>
      r.status == 400 && r.errorCode == Some("PRODUCT_ALREADY_IN_CART")
    ensures r.status == 500 <==>
      (!Contains(message, "not found") && !Contains(message, "stock")
       && !Contains(message, "Invalid quantity") && !Contains(message, "already in cart"))
    ensures r.status == 500 <==> r.errorCode.None?
    ensures r.error == if r.status == 500 then "Internal server error: " + message else message
  {
    if Contains(message, "not found") then
      ErrorResponse(404, false, message,
        Some(if Contains(message, "Product") then "PRODUCT_NOT_FOUND" else "CART_ITEM_NOT_FOUND"))
    else if Contains(message, "stock") then
      ErrorResponse(400, false, message, Some("INSUFFICIENT_STOCK"))
    else if Contains(message, "Invalid quantity") then
      ErrorResponse(400, false, message, Some("INVALID_QUANTITY"))
    else if Contains(message, "already in cart") then
      ErrorResponse(400, false, message, Some("PRODUCT_ALREADY_IN_CART"))
    else
      ErrorResponse(500, false, "Internal server error: " + message, None)
  }

  /** The code each failure of the cart operations is meant to get. */
  function ExpectedCode(e: Error): Option<string> {
    match e
    case ProductNotFound => Some("PRODUCT_NOT_FOUND")
    case CartItemNotFound => Some("CART_ITEM_NOT_FOUND")
    case InsufficientStock => Some("INSUFFICIENT_STOCK")
    case InvalidQuantity => Some("INVALID_QUANTITY")
    case ProductAlreadyInCart => Some("PRODUCT_ALREADY_IN_CART")
    case _ => None
  }

  /** The failures the cart operations raise. */
  predicate IsCartFailure(e: Error) {
    e in {ProductNotFound, CartItemNotFound, InsufficientStock, InvalidQuantity, ProductAlreadyInCart}
  }

  /** "Product not found": 404, PRODUCT_NOT_FOUND. */
  lemma ProductNotFoundClassified()
    ensures HandleCartError(ProductNotFound.Message()) == ErrorResponse(404, false, "Product not found", Some("PRODUCT_NOT_FOUND"))
  {
    assert OccursAt("Product not found", "not found", 8);
    assert OccursAt("Product not found", "Product", 0);
  }

  /** "Cart item not found": 404, CART_ITEM_NOT_FOUND. */
  lemma CartItemNotFoundClassified()
    ensures HandleCartError(CartItemNotFound.Message()) == ErrorResponse(404, false, "Cart item not found", Some("CART_ITEM_NOT_FOUND"))
  {
    assert OccursAt("Cart item not found", "not found", 10);
    MissingCharNotContained("Cart item not found", "Product", 'P');
  }

  /** "Insufficient stock": 400, INSUFFICIENT_STOCK. */
  lemma InsufficientStockClassified()
    ensures HandleCartError(InsufficientStock.Message()) == ErrorResponse(400, false, "Insufficient stock", Some("INSUFFICIENT_STOCK"))
  {
    MissingCharNotContained("Insufficient stock", "not found", 'd');
    assert OccursAt("Insufficient stock", "stock", 13);
  }

  /** "Invalid quantity": 400, INVALID_QUANTITY. */
  lemma InvalidQuantityClassified()
    ensures HandleCartError(InvalidQuantity.Message()) == ErrorResponse(400, false, "Invalid quantity", Some("INVALID_QUANTITY"))
  {
    MissingCharNotContained("Invalid quantity", "not found", 'o');
    MissingCharNotContained("Invalid quantity", "stock", 'o');
    assert OccursAt("Invalid quantity", "Invalid quantity", 0);
  }

  /** The duplicate-line message holds no `f`, no `k` and no `I`. */
  lemma AlreadyInCartMessageLacks(c: char)
    requires c == 'f' || c == 'k' || c == 'I'
    ensures c !in ProductAlreadyInCart.Message()
  {
    assert c !in "Product ";
    assert c !in "already in cart";
    assert c !in ". Use update ";
    assert c !in "quantity instead.";
  }

  /** Which of the classifier's substrings the duplicate-line message holds. */
  lemma AlreadyInCartMessageShape()
    ensures var m := ProductAlreadyInCart.Message();
      && !Contains(m, "not found") && !Contains(m, "stock") && !Contains(m, "Invalid quantity")
      && Contains(m, "already in cart")
  {
    var m := ProductAlreadyInCart.Message();
    AlreadyInCartMessageLacks('f');
    AlreadyInCartMessageLacks('k');
    AlreadyInCartMessageLacks('I');
    MissingCharNotContained(m, "not found", 'f');
    MissingCharNotContained(m, "stock", 'k');
    MissingCharNotContained(m, "Invalid quantity", 'I');
    var a, b, rest := "Product ", "already in cart", ". Use update " + "quantity instead.";
    assert m == a + b + rest;
    assert m[|a|..|a| + |b|] == b;
    assert OccursAt(m, b, |a|);
  }

  /** The duplicate-line message: 400, PRODUCT_ALREADY_IN_CART. */
  lemma AlreadyInCartClassified()
    ensures var m := ProductAlreadyInCart.Message();
      HandleCartError(m) == ErrorResponse(400, false, m, Some("PRODUCT_ALREADY_IN_CART"))
  {
    AlreadyInCartMessageShape();
  }

  /**
   * Each of the five messages the cart operations raise reaches its own code,
   * with status 404 for the two "not found" ones and 400 for the rest.
   */
  lemma CartFailuresClassified(e: Error)
    requires IsCartFailure(e)
    ensures HandleCartError(e.Message()).errorCode == ExpectedCode(e)
    ensures HandleCartError(e.Message()).status == if e in {ProductNotFound, CartItemNotFound} then 404 else 400
    ensures HandleCartError(e.Message()).error == e.Message()
  {
    match e {
      case ProductNotFound => ProductNotFoundClassified();
      case CartItemNotFound => CartItemNotFoundClassified();
      case InsufficientStock => InsufficientStockClassified();
      case InvalidQuantity => InvalidQuantityClassified();
      case ProductAlreadyInCart => AlreadyInCartClassified();
    }
  }

  /** Distinct cart failures never share a code. */
  lemma CartCodesDistinct(e1: Error, e2: Error)
    requires IsCartFailure(e1) && IsCartFailure(e2) && e1 != e2
    ensures HandleCartError(e1.Message()).errorCode != HandleCartError(e2.Message()).errorCode
  {
    CartFailuresClassified(e1);
    CartFailuresClassified(e2);
  }

  /** The count and message of the reply to "clear cart". */
  datatype ClearReply = ClearReply(clearedItemsCount: int, message: string)

  function ReplyFor(count: int): ClearReply {
    ClearReply(count, if count > 0 then "Cart cleared successfully" else "Cart was already empty")
  }

  /** The reply as the endpoint builds it: the count is read from the cart `clearCart` returned. */
  function ClearReplyAsWritten(returned: Cart): ClearReply {
    ReplyFor(returned.totalItems)
  }

  /** Whatever the cart held, the reply built that way reports nothing cleared. */
  lemma ClearReplyAlwaysEmpty(t: Tables, u: UserId)
    ensures var returned := CartService.CartOf(t, u).(items := [], totalItems := 0, subtotal := 0);
      ClearReplyAsWritten(returned) == ClearReply(0, "Cart was already empty")
  {
  }

  /**
   * The endpoint with the count read before the cart is cleared: the reply
   * counts the units that were in the cart and says "cleared" exactly when
   * there were some.
   */
  method ClearCartEndpoint(db: Database, u: UserId) returns (reply: ClearReply)
    requires db.Valid()
    modifies db
    ensures db.Valid()
    ensures db.State() == CartService.Cleared(old(db.State()), u)
    ensures var before := CartService.CartOf(old(db.State()), u);
      && reply.clearedItemsCount == TotalItems(before.items)
      && (reply.message == "Cart cleared successfully" <==> TotalItems(before.items) > 0)
      && u in db.State().carts && db.State().carts[u].items == []
  {
    var t := db.State();
    var before := CartService.CartOf(t, u);
    assert u in t.carts ==> CartValid(t.carts[u], u, t);
    var count := before.totalItems;
    var _ := CartService.ClearCart(db, u);
    reply := ReplyFor(count);
  }
}
