/**
 * The persistence layer as an in-memory store: one table per entity, keyed
 * the way the repositories look rows up, plus the counters that stand for the
 * store's generated identifiers.
 */
module Store {
  import opened Model

  /** A snapshot of every table, so that a contract can say "this changed and nothing else". */
  datatype Tables = Tables(
    products: map<ProductKey, Product>,
    carts: map<UserId, Cart>,
    orders: map<int, Order>,
    wishlist: seq<WishlistItem>,
    nextCartId: int,
    nextItemId: int,
    nextOrderId: int,
    nextWishlistId: int)

  /** Every product row is stored under its own id. */
  ghost predicate ProductsKeyed(products: map<ProductKey, Product>) {
    forall k :: k in products ==> products[k].id == k
  }

  ghost predicate DistinctLineIds(items: seq<CartItem>) {
    forall i, j :: 0 <= i < j < |items| ==> items[i].id != items[j].id
  }

  /** At most one line per product in a cart. */
  ghost predicate OneLinePerProduct(items: seq<CartItem>) {
    forall i, j :: 0 <= i < j < |items| ==> items[i].productId != items[j].productId
  }

  /**
   * What holds of the cart of user `u`: it is that user's, its line ids are
   * distinct and already issued, its lines name stored products (the line's
   * product column is a non-null foreign key), it has at most one line per
   * product, and its item count agrees with its lines. The subtotal is not
   * part of it: it is computed at the prices of the last cart change, and a
   * later price change leaves it stale.
   */
  ghost predicate CartValid(c: Cart, u: UserId, t: Tables) {
    && c.userId == u
    && c.id < t.nextCartId
    && DistinctLineIds(c.items)
    && (forall i :: 0 <= i < |c.items| ==> c.items[i].id < t.nextItemId)
    && LinesResolve(c.items, t.products)
    && OneLinePerProduct(c.items)
    && c.totalItems == TotalItems(c.items)
  }

  /** At most one wishlist row per (user, product) pair. */
  ghost predicate UniquePairs(rows: seq<WishlistItem>) {
    forall i, j :: 0 <= i < j < |rows| ==>
      rows[i].userId != rows[j].userId || rows[i].productId != rows[j].productId
  }

  ghost predicate TablesValid(t: Tables) {
    && ProductsKeyed(t.products)
    && (forall u :: u in t.carts ==> CartValid(t.carts[u], u, t))
    && (forall o :: o in t.orders ==> t.orders[o].id == o && o < t.nextOrderId)
    && UniquePairs(t.wishlist)
    && (forall i :: 0 <= i < |t.wishlist| ==>
          t.wishlist[i].productId in t.products && t.wishlist[i].id < t.nextWishlistId)
  }

  /**
   * Storing a cart that is valid against the grown counters keeps the tables
   * valid: the other carts only see counters that grew.
   */
  lemma StoreCartKeepsValid(t: Tables, u: UserId, c: Cart, nextCartId: int, nextItemId: int)
    requires TablesValid(t)
    requires nextCartId >= t.nextCartId && nextItemId >= t.nextItemId
    requires CartValid(c, u, t.(nextCartId := nextCartId, nextItemId := nextItemId))
    ensures TablesValid(t.(carts := t.carts[u := c], nextCartId := nextCartId, nextItemId := nextItemId))
  {
    var t' := t.(carts := t.carts[u := c], nextCartId := nextCartId, nextItemId := nextItemId);
    forall v | v in t'.carts
      ensures CartValid(t'.carts[v], v, t')
    {
      if v != u {
        assert CartValid(t.carts[v], v, t);
      }
    }
  }

  class Database {
    var products: map<ProductKey, Product>
    var carts: map<UserId, Cart>
    var orders: map<int, Order>
    var wishlist: seq<WishlistItem>
    var nextCartId: int
    var nextItemId: int
    var nextOrderId: int
    var nextWishlistId: int

    function State(): Tables
      reads this
    {
      Tables(products, carts, orders, wishlist, nextCartId, nextItemId, nextOrderId, nextWishlistId)
    }

    ghost predicate Valid()
      reads this
    {
      TablesValid(State())
    }

    constructor ()
      ensures Valid()
      ensures State() == Tables(map[], map[], map[], [], 0, 0, 0, 0)
    {
      products, carts, orders, wishlist := map[], map[], map[], [];
      nextCartId, nextItemId, nextOrderId, nextWishlistId := 0, 0, 0, 0;
    }
  }
}
