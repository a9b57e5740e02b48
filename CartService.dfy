/**
 * The cart operations of the shop: get-or-create, add, update, remove and
 * clear a line, the full re-scan of the totals after each change, and the
 * read-only check of a cart against the current products.
 *
 * Each operation that changes the store runs in one transaction: a failure
 * rolls every change back (the cart it may have created included), so the
 * methods compute the new cart first and write it only on success.
 */
module CartService {
  import opened Model
  import opened Strings
  import opened Store

  /** The user's cart, or the empty cart `createNewCart` would store next. */
  function CartOf(t: Tables, u: UserId): Cart {
    if u in t.carts then t.carts[u] else Cart(t.nextCartId, u, [], 0, 0)
  }

  /** The tables once the user's cart exists. */
  function WithCart(t: Tables, u: UserId): (r: Tables)
    ensures r.carts == t.carts[u := CartOf(t, u)]
    ensures r.nextCartId == if u in t.carts then t.nextCartId else t.nextCartId + 1
    ensures r == t.(carts := r.carts, nextCartId := r.nextCartId)
  {
    if u in t.carts then t
    else t.(carts := t.carts[u := CartOf(t, u)], nextCartId := t.nextCartId + 1)
  }

  /** `cartItemRepository.findByIdAndCartId`: where the line with this id is, or -1. */
  function LineIndex(items: seq<CartItem>, id: int): (k: int)
    ensures -1 <= k < |items|
    ensures k >= 0 ==> items[k].id == id
    ensures k == -1 <==> forall i :: 0 <= i < |items| ==> items[i].id != id
    decreases |items|
  {
    if items == [] then -1
    else if items[0].id == id then 0
    else
      var k := LineIndex(items[1..], id);
      if k == -1 then -1 else k + 1
  }

  /** The intended duplicate test: the cart already has a line for this product. */
  predicate HasLineFor(items: seq<CartItem>, key: ProductKey) {
    exists i :: 0 <= i < |items| && items[i].productId == key
  }

  /**
   * The duplicate test as written compares the line's product id, a Java
   * `String`, with the requested id, a `Long`; `String.equals` is false for
   * every argument that is not a `String`, so no line ever matches.
   */
  predicate SameProductAsWritten(line: CartItem, productId: int) {
    false
  }

  predicate DuplicateCheckAsWritten(items: seq<CartItem>, productId: int) {
    exists i :: 0 <= i < |items| && SameProductAsWritten(items[i], productId)
  }

  /**
   * As written, the duplicate test lets a second line for a product through:
   * the cart then holds two lines for the same product.
   */
  lemma AsWrittenAcceptsSecondLine(items: seq<CartItem>, productId: int, line: CartItem)
    requires HasLineFor(items, Decimal(productId)) && line.productId == Decimal(productId)
    ensures !DuplicateCheckAsWritten(items, productId)
    ensures !OneLinePerProduct(items + [line])
  {
    var i :| 0 <= i < |items| && items[i].productId == Decimal(productId);
    assert (items + [line])[i].productId == (items + [line])[|items|].productId;
  }

  /** Adding a line for a product the cart has no line for keeps one line per product. */
  lemma AddKeepsOneLinePerProduct(items: seq<CartItem>, line: CartItem)
    requires OneLinePerProduct(items) && !HasLineFor(items, line.productId)
    ensures OneLinePerProduct(items + [line])
  {
    forall i, j | 0 <= i < j < |items + [line]|
      ensures (items + [line])[i].productId != (items + [line])[j].productId
    {
      if j == |items| {
        assert (items + [line])[i] == items[i];
      }
    }
  }

  /** `updateCartTotals`: the loop that re-scans every line. */
  method ComputeTotals(items: seq<CartItem>, products: map<ProductKey, Product>) returns (totalItems: int, subtotal: int)
    requires LinesResolve(items, products)
    ensures totalItems == TotalItems(items)
    ensures subtotal == Subtotal(items, products)
  {
    totalItems, subtotal := 0, 0;
    for i := 0 to |items|
      invariant totalItems == TotalItems(items[..i])
      invariant subtotal == Subtotal(items[..i], products)
    {
      assert items[..i + 1][..i] == items[..i];
      totalItems := totalItems + items[i].quantity;
      subtotal := subtotal + products[items[i].productId].price * items[i].quantity;
    }
    assert items[..|items|] == items;
  }

  /** `getCartByUserId`: the user's cart, created empty on first access. */
  method GetCartByUserId(db: Database, u: UserId) returns (cart: Cart)
    requires db.Valid()
    modifies db
    ensures db.Valid()
    ensures cart == old(CartOf(db.State(), u)) && cart.userId == u
    ensures old(u !in db.carts) ==> cart.items == [] && cart.totalItems == 0 && cart.subtotal == 0
    ensures db.State() == old(WithCart(db.State(), u)) && db.carts[u] == cart
  {
    if u in db.carts {
      cart := db.carts[u];
    } else {
      cart := Cart(db.nextCartId, u, [], 0, 0);
      db.carts := db.carts[u := cart];
      db.nextCartId := db.nextCartId + 1;
    }
  }

  /** `addItemToCart`. */
  method AddItemToCart(db: Database, u: UserId, productId: int, quantity: int) returns (r: Result<Cart>)
    requires db.Valid()
    modifies db
    ensures db.Valid()
    ensures var t, key := old(db.State()), Decimal(productId);
      if key !in t.products then r == Err(ProductNotFound) && db.State() == t
      else if t.products[key].stock < quantity then r == Err(InsufficientStock) && db.State() == t
      else if HasLineFor(CartOf(t, u).items, key) then r == Err(ProductAlreadyInCart) && db.State() == t
      else
        && r.Ok?
        && r.value.id == CartOf(t, u).id && r.value.userId == u
        && r.value.items == CartOf(t, u).items + [CartItem(t.nextItemId, key, quantity, t.products[key].price)]
        && TotalsMatch(r.value, t.products)
        && db.State() == WithCart(t, u).(carts := t.carts[u := r.value], nextItemId := t.nextItemId + 1)
  {
    ghost var t := db.State();
    var cart := CartOf(db.State(), u);
    var key := Decimal(productId);
    if key !in db.products {
      return Err(ProductNotFound);
    }
    var product := db.products[key];
    if product.stock < quantity {
      return Err(InsufficientStock);
    }
    if HasLineFor(cart.items, key) {
      return Err(ProductAlreadyInCart);
    }
    var line := CartItem(db.nextItemId, key, quantity, product.price);
    var items := cart.items + [line];
    var totalItems, subtotal := ComputeTotals(items, db.products);
    cart := cart.(items := items, totalItems := totalItems, subtotal := subtotal);
    AddKeepsValid(t, u, line, cart);
    var after := WithCart(db.State(), u).(carts := db.carts[u := cart], nextItemId := db.nextItemId + 1);
    db.carts, db.nextCartId, db.nextItemId := after.carts, after.nextCartId, after.nextItemId;
    r := Ok(cart);
  }

  /**
   * Storing the user's cart with one more line, freshly numbered and for a
   * stored product the cart had no line for, keeps the tables valid.
   */
  lemma AddKeepsValid(t: Tables, u: UserId, line: CartItem, cart: Cart)
    requires TablesValid(t)
    requires line.id == t.nextItemId && line.productId in t.products
    requires !HasLineFor(CartOf(t, u).items, line.productId)
    requires cart.id == CartOf(t, u).id && cart.userId == u
    requires cart.items == CartOf(t, u).items + [line] && cart.totalItems == TotalItems(cart.items)
    ensures TablesValid(t.(carts := t.carts[u := cart], nextCartId := WithCart(t, u).nextCartId, nextItemId := t.nextItemId + 1))
  {
    var before := CartOf(t, u);
    var t1 := t.(nextCartId := WithCart(t, u).nextCartId, nextItemId := t.nextItemId + 1);
    if u in t.carts {
      assert CartValid(before, u, t);
    }
    AddKeepsOneLinePerProduct(before.items, line);
    forall i | 0 <= i < |cart.items|
      ensures cart.items[i].id < t1.nextItemId && cart.items[i].productId in t.products
    {
      if i < |before.items| {
        assert cart.items[i] == before.items[i];
      }
    }
    forall i, j | 0 <= i < j < |cart.items|
      ensures cart.items[i].id != cart.items[j].id
    {
      assert cart.items[i] == before.items[i];
      if j < |before.items| {
        assert cart.items[j] == before.items[j];
      }
    }
    assert CartValid(cart, u, t1);
    StoreCartKeepsValid(t, u, cart, t1.nextCartId, t1.nextItemId);
  }

  /** `updateCartItem`. */
  method UpdateCartItem(db: Database, u: UserId, itemId: int, quantity: int) returns (r: Result<Cart>)
    requires db.Valid()
    modifies db
    ensures db.Valid()
    ensures var t := old(db.State()); var items := CartOf(t, u).items; var k := LineIndex(items, itemId);
      if quantity <= 0 then r == Err(InvalidQuantity) && db.State() == t
      else if k < 0 then r == Err(CartItemNotFound) && db.State() == t
      else if t.products[items[k].productId].stock < quantity then r == Err(InsufficientStock) && db.State() == t
      else
        && r.Ok?
        && r.value.id == CartOf(t, u).id && r.value.userId == u
        && r.value.items == items[k := items[k].(quantity := quantity)]
        && TotalsMatch(r.value, t.products)
        && db.State() == t.(carts := t.carts[u := r.value])
  {
    if quantity <= 0 {
      return Err(InvalidQuantity);
    }
    var cart := CartOf(db.State(), u);
    var k := LineIndex(cart.items, itemId);
    if k < 0 {
      return Err(CartItemNotFound);
    }
    var item := cart.items[k];
    if db.products[item.productId].stock < quantity {
      return Err(InsufficientStock);
    }
    var items := cart.items[k := item.(quantity := quantity)];
    assert u in db.carts && CartValid(cart, u, db.State());
    UpdateKeepsLineInvariants(cart.items, k, quantity);
    var totalItems, subtotal := ComputeTotals(items, db.products);
    cart := cart.(items := items, totalItems := totalItems, subtotal := subtotal);
    assert CartValid(cart, u, db.State());
    StoreCartKeepsValid(db.State(), u, cart, db.nextCartId, db.nextItemId);
    db.carts := db.carts[u := cart];
    r := Ok(cart);
  }

  /** Changing line `k`'s quantity keeps every line's id and product, so the line invariants hold on. */
  lemma UpdateKeepsLineInvariants(items: seq<CartItem>, k: nat, quantity: int)
    requires k < |items|
    ensures var changed := items[k := items[k].(quantity := quantity)];
      && (forall i :: 0 <= i < |changed| ==> changed[i].id == items[i].id && changed[i].productId == items[i].productId)
      && (DistinctLineIds(items) ==> DistinctLineIds(changed))
      && (OneLinePerProduct(items) ==> OneLinePerProduct(changed))
  {
  }

  /** `removeCartItem`. */
  method RemoveCartItem(db: Database, u: UserId, itemId: int) returns (r: Result<Cart>)
    requires db.Valid()
    modifies db
    ensures db.Valid()
    ensures var t := old(db.State()); var items := CartOf(t, u).items; var k := LineIndex(items, itemId);
      if k < 0 then r == Err(CartItemNotFound) && db.State() == t
      else
        && r.Ok?
        && r.value.id == CartOf(t, u).id && r.value.userId == u
        && r.value.items == items[..k] + items[k + 1..]
        && TotalsMatch(r.value, t.products)
        && db.State() == t.(carts := t.carts[u := r.value])
  {
    var cart := CartOf(db.State(), u);
    var k := LineIndex(cart.items, itemId);
    if k < 0 {
      return Err(CartItemNotFound);
    }
    var items := cart.items[..k] + cart.items[k + 1..];
    RemoveKeepsLineInvariants(cart.items, k, db.products);
    var totalItems, subtotal := ComputeTotals(items, db.products);
    cart := cart.(items := items, totalItems := totalItems, subtotal := subtotal);
    StoreCartKeepsValid(db.State(), u, cart, db.nextCartId, db.nextItemId);
    db.carts := db.carts[u := cart];
    r := Ok(cart);
  }

  /** Dropping line `k` keeps the line ids distinct, one line per product and every line resolving. */
  lemma RemoveKeepsLineInvariants(items: seq<CartItem>, k: nat, products: map<ProductKey, Product>)
    requires k < |items|
    ensures var rest := items[..k] + items[k + 1..];
      && (forall i :: 0 <= i < |rest| ==> rest[i] == items[if i < k then i else i + 1])
      && (DistinctLineIds(items) ==> DistinctLineIds(rest))
      && (OneLinePerProduct(items) ==> OneLinePerProduct(rest))
      && (LinesResolve(items, products) ==> LinesResolve(rest, products))
  {
    var rest := items[..k] + items[k + 1..];
    assert forall i :: 0 <= i < |rest| ==> rest[i] == items[if i < k then i else i + 1];
  }

  /** `getCartItemById`: outside any transaction, so a cart it creates stays. */
  method GetCartItemById(db: Database, itemId: int, u: UserId) returns (r: Result<CartItem>)
    requires db.Valid()
    modifies db
    ensures db.Valid()
    ensures var t := old(db.State()); var items := CartOf(t, u).items; var k := LineIndex(items, itemId);
      && r == (if k < 0 then Err(CartItemNotFound) else Ok(items[k]))
      && db.State() == WithCart(t, u)
  {
    var cart := GetCartByUserId(db, u);
    var k := LineIndex(cart.items, itemId);
    if k < 0 {
      return Err(CartItemNotFound);
    }
    r := Ok(cart.items[k]);
  }

  /** The tables after the user's cart is cleared: it exists, with no lines and both totals zero. */
  function Cleared(t: Tables, u: UserId): (r: Tables)
    ensures u in r.carts && r.carts[u].items == [] && r.carts[u].totalItems == 0 && r.carts[u].subtotal == 0
    ensures r.carts[u].id == CartOf(t, u).id
    ensures r.products == t.products && r.orders == t.orders && r.wishlist == t.wishlist
    ensures forall v :: v in t.carts && v != u ==> v in r.carts && r.carts[v] == t.carts[v]
  {
    WithCart(t, u).(carts := t.carts[u := CartOf(t, u).(items := [], totalItems := 0, subtotal := 0)])
  }

  /** Clearing a cleared cart changes nothing. */
  lemma ClearIdempotent(t: Tables, u: UserId)
    ensures Cleared(Cleared(t, u), u) == Cleared(t, u)
  {
  }

  /** `clearCart`: no lines and both totals zero; the cart itself stays. */
  method ClearCart(db: Database, u: UserId) returns (cart: Cart)
    requires db.Valid()
    modifies db
    ensures db.Valid()
    ensures var t := old(db.State());
      && cart == CartOf(t, u).(items := [], totalItems := 0, subtotal := 0)
      && db.State() == Cleared(t, u)
  {
    cart := GetCartByUserId(db, u);
    cart := cart.(items := [], totalItems := 0, subtotal := 0);
    db.carts := db.carts[u := cart];
  }

  /** The kinds of problem `validateCart` reports, with their wire names. */
  datatype IssueKind = OutOfStock | NotEnoughStock | PriceChanged
  {
    function Name(): string {
      match this
      case OutOfStock => "out_of_stock"
      case NotEnoughStock => "insufficient_stock"
      case PriceChanged => "price_changed"
    }
  }

  datatype Issue = Issue(kind: IssueKind, message: string, item: CartItem)

  /**
   * The problem with one line, if any, in order of precedence: the product is
   * gone, its stock no longer covers the line, its price is not the one the
   * line was added at.
   */
  function IssueFor(item: CartItem, products: map<ProductKey, Product>): (r: Option<Issue>)
    ensures r.Some? ==> r.value.item == item
  {
    if item.productId !in products then Some(Issue(OutOfStock, "Product no longer available", item))
    else if products[item.productId].stock < item.quantity then Some(Issue(NotEnoughStock, "Not enough stock available", item))
    else if products[item.productId].price != item.recordedPrice then Some(Issue(PriceChanged, "Product price has changed", item))
    else None
  }

  /**
   * As written, the price test compares the product found by id with the
   * line's own product: within one persistence context both are the same
   * entity, so the two prices are one price.
   */
  function IssueForAsWritten(item: CartItem, products: map<ProductKey, Product>): Option<Issue> {
    if item.productId !in products then Some(Issue(OutOfStock, "Product no longer available", item))
    else if products[item.productId].stock < item.quantity then Some(Issue(NotEnoughStock, "Not enough stock available", item))
    else
      var current := products[item.productId];
      var lineProduct := products[item.productId];
      if current.price != lineProduct.price then Some(Issue(PriceChanged, "Product price has changed", item))
      else None
  }

  /** As written, `price_changed` is never reported, even where the corrected test reports it. */
  lemma AsWrittenNeverReportsPriceChange(item: CartItem, products: map<ProductKey, Product>)
    ensures IssueForAsWritten(item, products).None? || IssueForAsWritten(item, products).value.kind != PriceChanged
    ensures item.productId in products && products[item.productId].stock >= item.quantity
            && products[item.productId].price != item.recordedPrice
            ==> IssueForAsWritten(item, products).None? && IssueFor(item, products).value.kind == PriceChanged
  {
  }

  /** What each kind of issue means, and that the earlier kind wins. */
  lemma IssuePrecedence(item: CartItem, products: map<ProductKey, Product>)
    ensures var r, k := IssueFor(item, products), item.productId;
      && (r.Some? && r.value.kind == OutOfStock <==> k !in products)
      && (r.Some? && r.value.kind == NotEnoughStock <==> k in products && products[k].stock < item.quantity)
      && (r.Some? && r.value.kind == PriceChanged <==>
            k in products && products[k].stock >= item.quantity && products[k].price != item.recordedPrice)
      && (r.None? <==>
            k in products && products[k].stock >= item.quantity && products[k].price == item.recordedPrice)
  {
  }

  function IssueSeq(r: Option<Issue>): seq<Issue> {
    if r.Some? then [r.value] else []
  }

  /** The issues of a cart, line by line, in line order. */
  function Issues(items: seq<CartItem>, products: map<ProductKey, Product>): seq<Issue>
    decreases |items|
  {
    if items == [] then []
    else Issues(items[..|items| - 1], products) + IssueSeq(IssueFor(items[|items| - 1], products))
  }

  /** The issues of two runs of lines are the issues of each, one after the other. */
  lemma {:induction false} IssuesSplit(a: seq<CartItem>, b: seq<CartItem>, products: map<ProductKey, Product>)
    ensures Issues(a + b, products) == Issues(a, products) + Issues(b, products)
    decreases |b|
  {
    if b == [] {
      assert a + b == a;
    } else {
      var b' := b[..|b| - 1];
      var last := IssueSeq(IssueFor(b[|b| - 1], products));
      assert (a + b)[..|a + b| - 1] == a + b' && (a + b)[|a + b| - 1] == b[|b| - 1];
      assert Issues(a + b, products) == Issues(a + b', products) + last;
      assert Issues(b, products) == Issues(b', products) + last;
      IssuesSplit(a, b', products);
    }
  }

  /**
   * At most one issue per line; every issue is about a line of the cart; and
   * there is no issue exactly when every line passes all three tests.
   */
  lemma {:induction false} IssuesPerLine(items: seq<CartItem>, products: map<ProductKey, Product>)
    ensures |Issues(items, products)| <= |items|
    ensures forall j :: 0 <= j < |Issues(items, products)| ==> Issues(items, products)[j].item in items
    ensures Issues(items, products) == [] <==> forall i :: 0 <= i < |items| ==> IssueFor(items[i], products).None?
    decreases |items|
  {
    if items != [] {
      var init, last := items[..|items| - 1], items[|items| - 1];
      IssuesPerLine(init, products);
      var earlier: seq<Issue>, extra: seq<Issue> := Issues(init, products), IssueSeq(IssueFor(last, products));
      assert Issues(items, products) == earlier + extra;
      assert forall i :: 0 <= i < |init| ==> init[i] == items[i];
      forall j | 0 <= j < |earlier + extra|
        ensures (earlier + extra)[j].item in items
      {
        if j < |earlier| {
          assert (earlier + extra)[j] == earlier[j];
          var x := earlier[j].item;
          var i :| 0 <= i < |init| && init[i] == x;
          assert items[i] == x;
        } else {
          assert (earlier + extra)[j] == extra[0];
        }
      }
    }
  }

  /** `validateCart`'s loop: one test per line, appending what it finds. */
  method CollectIssues(items: seq<CartItem>, products: map<ProductKey, Product>) returns (valid: bool, issues: seq<Issue>)
    ensures issues == Issues(items, products)
    ensures valid <==> issues == []
  {
    valid, issues := true, [];
    for i := 0 to |items|
      invariant issues == Issues(items[..i], products)
      invariant valid <==> issues == []
    {
      assert items[..i + 1][..i] == items[..i];
      var item := items[i];
      if item.productId !in products {
        issues := issues + [Issue(OutOfStock, "Product no longer available", item)];
        valid := false;
      } else if products[item.productId].stock < item.quantity {
        issues := issues + [Issue(NotEnoughStock, "Not enough stock available", item)];
        valid := false;
      } else if products[item.productId].price != item.recordedPrice {
        issues := issues + [Issue(PriceChanged, "Product price has changed", item)];
        valid := false;
      }
    }
    assert items[..|items|] == items;
  }

  /** `validateCart`: reads the cart (creating it when missing) and changes no line. */
  method ValidateCart(db: Database, u: UserId) returns (valid: bool, issues: seq<Issue>)
    requires db.Valid()
    modifies db
    ensures db.Valid()
    ensures var t := old(db.State());
      && issues == Issues(CartOf(t, u).items, t.products)
      && (valid <==> issues == [])
      && db.State() == WithCart(t, u)
  {
    var cart := GetCartByUserId(db, u);
    valid, issues := CollectIssues(cart.items, db.products);
  }

  /** Adding a line raises the item count by its quantity and the subtotal by its current line price. */
  lemma AddedLineTotals(items: seq<CartItem>, line: CartItem, products: map<ProductKey, Product>)
    requires LinesResolve(items, products) && line.productId in products
    ensures TotalItems(items + [line]) == TotalItems(items) + line.quantity
    ensures Subtotal(items + [line], products) == Subtotal(items, products) + products[line.productId].price * line.quantity
  {
    assert (items + [line])[..|items|] == items;
  }

  /** Removing line `k` lowers the item count by its quantity and the subtotal by its current line price. */
  lemma RemovedLineTotals(items: seq<CartItem>, k: nat, products: map<ProductKey, Product>)
    requires k < |items| && LinesResolve(items, products)
    ensures LinesResolve(items[..k] + items[k + 1..], products)
    ensures TotalItems(items[..k] + items[k + 1..]) == TotalItems(items) - items[k].quantity
    ensures Subtotal(items[..k] + items[k + 1..], products)
            == Subtotal(items, products) - products[items[k].productId].price * items[k].quantity
  {
    assert items == items[..k] + [items[k]] + items[k + 1..];
    SumsAppend(items[..k], [items[k]], products);
    SumsAppend(items[..k] + [items[k]], items[k + 1..], products);
    SumsAppend(items[..k], items[k + 1..], products);
  }

  /** Changing line `k`'s quantity changes the item count by the difference. */
  lemma UpdatedLineTotals(items: seq<CartItem>, k: nat, quantity: int, products: map<ProductKey, Product>)
    requires k < |items| && LinesResolve(items, products)
    ensures LinesResolve(items[k := items[k].(quantity := quantity)], products)
    ensures TotalItems(items[k := items[k].(quantity := quantity)]) == TotalItems(items) - items[k].quantity + quantity
    ensures Subtotal(items[k := items[k].(quantity := quantity)], products)
            == Subtotal(items, products) + products[items[k].productId].price * (quantity - items[k].quantity)
  {
    var pre, post := items[..k], items[k + 1..];
    var line := items[k].(quantity := quantity);
    var price := products[items[k].productId].price;
    assert items == pre + [items[k]] + post;
    assert items[k := line] == pre + [line] + post;
    SumsAppend(pre, [items[k]], products);
    SumsAppend(pre + [items[k]], post, products);
    SumsAppend(pre, [line], products);
    SumsAppend(pre + [line], post, products);
    OneLineTotals(items[k], products);
    OneLineTotals(line, products);
    PriceTimesDifference(price, quantity, items[k].quantity);
  }

  /** The sums over a single line. */
  lemma OneLineTotals(line: CartItem, products: map<ProductKey, Product>)
    requires line.productId in products
    ensures TotalItems([line]) == line.quantity
    ensures Subtotal([line], products) == products[line.productId].price * line.quantity
  {
    assert [line][..0] == [];
  }

  lemma PriceTimesDifference(price: int, a: int, b: int)
    ensures price * a - price * b == price * (a - b)
  {
  }

  /**
   * The worked example of a cart with one product at price 10 and stock 5:
   * three added give 3 items and 30; updated to two, 2 and 20; once the price
   * is 12 the line is reported as `price_changed`, and a re-scan would give 24.
   */
  lemma PriceChangeExample(p: Product)
    requires p.price == 10 && p.stock == 5
    ensures var added := [CartItem(1, p.id, 3, 10)];
      && TotalItems(added) == 3 && Subtotal(added, map[p.id := p]) == 30
    ensures var updated := [CartItem(1, p.id, 2, 10)];
      && TotalItems(updated) == 2 && Subtotal(updated, map[p.id := p]) == 20
      && IssueFor(updated[0], map[p.id := p.(price := 12)]).value.kind == PriceChanged
      && Subtotal(updated, map[p.id := p.(price := 12)]) == 24
  {
  }
}
