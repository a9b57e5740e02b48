/**
 * Checkout and the order status machine.
 *
 * Checkout walks the requested lines in order: each line's product must exist
 * and have stock for the line, the line snapshots the product's seller,
 * price, image and name, and the product's stock drops by the line's quantity
 * at once, so a product requested twice is checked the second time against
 * the stock the first line left. The whole checkout is one transaction: a
 * failing line undoes every earlier decrement.
 *
 * A status change follows a fixed table. Moving into `cancelled` puts every
 * line's quantity back on its product; `pending` to `sold` re-checks that the
 * stock still covers every line.
 */
module OrderService {
  import opened Model
  import opened Strings
  import opened Store
  import CartService

  const Pending := "pending"
  const Sold := "sold"
  const Shipped := "shipped"
  const Delivered := "delivered"
  const Cancelled := "cancelled"

  /**
   * `isValidStatusTransition`: a lookup in the table of allowed next statuses.
   * Only the four statuses with an entry lead anywhere, only to one of the five
   * known statuses, and never back to themselves.
   */
  function IsValidStatusTransition(current: string, next: string): (r: bool)
    ensures r ==> current != next
    ensures r ==> current in {Pending, Sold, Shipped, Cancelled}
    ensures r ==> next in {Pending, Sold, Shipped, Delivered, Cancelled}
  {
    var allowed := map[Pending := {Sold, Cancelled}, Sold := {Shipped, Cancelled},
                       Shipped := {Delivered}, Cancelled := {Pending}];
    next in (if current in allowed then allowed[current] else {})
  }

  /** The allowed transitions are exactly these six. */
  lemma TransitionTable(current: string, next: string)
    ensures IsValidStatusTransition(current, next) <==>
      (current, next) in {(Pending, Sold), (Pending, Cancelled), (Sold, Shipped),
                           (Sold, Cancelled), (Shipped, Delivered), (Cancelled, Pending)}
  {
  }

  /** No status leads to itself, and `delivered` and every status outside the table lead nowhere. */
  lemma TransitionDeadEnds(current: string, next: string)
    ensures !IsValidStatusTransition(current, current)
    ensures current == Delivered || current !in {Pending, Sold, Shipped, Cancelled}
            ==> !IsValidStatusTransition(current, next)
  {
  }

  /** One requested line of a checkout. */
  datatype LineRequest = LineRequest(productId: int, quantity: int)

  /** What a successful checkout computes: the product table after it, the order lines and the total. */
  datatype Placement = Placement(products: map<ProductKey, Product>, lines: seq<OrderLine>, total: int)

  /** Puts lines (and their price) in front of the lines of a later checkout step, passing a failure through. */
  function Extend(lines: seq<OrderLine>, total: int, r: Result<Placement>): Result<Placement> {
    match r
    case Err(e) => Err(e)
    case Ok(p) => Ok(Placement(p.products, lines + p.lines, total + p.total))
  }

  /** The line a checkout records for a request against the product it found. */
  function Snapshot(req: LineRequest, p: Product): OrderLine {
    OrderLine(req.productId, p.sellerId, req.quantity, p.price, p.image, p.name)
  }

  /** The stock a checkout leaves to its later lines once the first line is placed. */
  function AfterFirst(products: map<ProductKey, Product>, req: LineRequest): map<ProductKey, Product>
    requires Decimal(req.productId) in products
  {
    var key := Decimal(req.productId);
    products[key := products[key].(stock := products[key].stock - req.quantity)]
  }

  /**
   * The checkout of `reqs`, line by line, against `products`. It fails only
   * with a missing product or short stock; a success has one line per request
   * and leaves the same products stored.
   */
  function Place(products: map<ProductKey, Product>, reqs: seq<LineRequest>): (r: Result<Placement>)
    ensures r.Err? ==> r.error == ProductNotFound || r.error.InsufficientStockFor?
    ensures r.Ok? ==> |r.value.lines| == |reqs| && r.value.products.Keys == products.Keys
    decreases |reqs|
  {
    if reqs == [] then Ok(Placement(products, [], 0))
    else
      var key := Decimal(reqs[0].productId);
      if key !in products then Err(ProductNotFound)
      else if products[key].stock < reqs[0].quantity then Err(InsufficientStockFor(products[key].name))
      else
        Extend([Snapshot(reqs[0], products[key])], products[key].price * reqs[0].quantity,
               Place(AfterFirst(products, reqs[0]), reqs[1..]))
  }

  lemma ExtendExtend(a: seq<OrderLine>, s: int, b: seq<OrderLine>, t: int, r: Result<Placement>)
    ensures Extend(a, s, Extend(b, t, r)) == Extend(a + b, s + t, r)
  {
    if r.Ok? {
      assert a + (b + r.value.lines) == (a + b) + r.value.lines;
    }
  }

  lemma ExtendNothing(r: Result<Placement>)
    ensures Extend([], 0, r) == r
  {
    if r.Ok? {
      assert [] + r.value.lines == r.value.lines;
    }
  }

  /** `createOrder`'s loop, over the transaction's own copy of the product table. */
  method PlaceOrderLines(products: map<ProductKey, Product>, reqs: seq<LineRequest>) returns (r: Result<Placement>)
    ensures r == Place(products, reqs)
  {
    var current := products;
    var lines: seq<OrderLine> := [];
    var total := 0;
    assert reqs[0..] == reqs;
    ExtendNothing(Place(products, reqs));
    for i := 0 to |reqs|
      invariant Place(products, reqs) == Extend(lines, total, Place(current, reqs[i..]))
    {
      var req := reqs[i];
      var key := Decimal(req.productId);
      if key !in current {
        return Err(ProductNotFound);
      }
      var product := current[key];
      if product.stock < req.quantity {
        return Err(InsufficientStockFor(product.name));
      }
      assert reqs[i..][1..] == reqs[i + 1..];
      ExtendExtend(lines, total, [Snapshot(req, product)], product.price * req.quantity,
                   Place(current[key := product.(stock := product.stock - req.quantity)], reqs[i + 1..]));
      lines := lines + [Snapshot(req, product)];
      total := total + product.price * req.quantity;
      current := current[key := product.(stock := product.stock - req.quantity)];
    }
    assert reqs[|reqs|..] == [] && lines + [] == lines;
    r := Ok(Placement(current, lines, total));
  }

  /** Σ quantity over the requests for product `key`. */
  function RequestedOf(reqs: seq<LineRequest>, key: ProductKey): int
    decreases |reqs|
  {
    if reqs == [] then 0
    else (if Decimal(reqs[0].productId) == key then reqs[0].quantity else 0) + RequestedOf(reqs[1..], key)
  }

  /** Σ quantity over the order lines for product `key`. */
  function OrderedOf(lines: seq<OrderLine>, key: ProductKey): int
    decreases |lines|
  {
    if lines == [] then 0
    else (if Decimal(lines[0].productId) == key then lines[0].quantity else 0) + OrderedOf(lines[1..], key)
  }

  /** Σ price × quantity over the order lines. */
  function LinesTotal(lines: seq<OrderLine>): int
    decreases |lines|
  {
    if lines == [] then 0 else lines[0].price * lines[0].quantity + LinesTotal(lines[1..])
  }

  /** A checkout that succeeds found its first line's product with stock enough for it. */
  lemma PlaceGuards(products: map<ProductKey, Product>, reqs: seq<LineRequest>)
    requires reqs != [] && Place(products, reqs).Ok?
    ensures Decimal(reqs[0].productId) in products
    ensures products[Decimal(reqs[0].productId)].stock >= reqs[0].quantity
  {
    var key := Decimal(reqs[0].productId);
    assert key in products;
    assert !(products[key].stock < reqs[0].quantity);
  }

  /** Past its guards, a checkout places the first line and then the rest against what it left. */
  lemma PlaceUnfold(products: map<ProductKey, Product>, reqs: seq<LineRequest>)
    requires reqs != [] && Decimal(reqs[0].productId) in products
    requires products[Decimal(reqs[0].productId)].stock >= reqs[0].quantity
    ensures Place(products, reqs)
      == Extend([Snapshot(reqs[0], products[Decimal(reqs[0].productId)])],
                products[Decimal(reqs[0].productId)].price * reqs[0].quantity,
                Place(AfterFirst(products, reqs[0]), reqs[1..]))
  {
  }

  /** A successful checkout of several lines: the first line is placed, then the rest against what it left. */
  lemma PlaceStep(products: map<ProductKey, Product>, reqs: seq<LineRequest>)
    requires reqs != [] && Place(products, reqs).Ok?
    ensures Decimal(reqs[0].productId) in products
    ensures products[Decimal(reqs[0].productId)].stock >= reqs[0].quantity
    ensures Place(AfterFirst(products, reqs[0]), reqs[1..]).Ok?
    ensures Place(products, reqs)
      == Extend([Snapshot(reqs[0], products[Decimal(reqs[0].productId)])],
                products[Decimal(reqs[0].productId)].price * reqs[0].quantity,
                Place(AfterFirst(products, reqs[0]), reqs[1..]))
  {
    PlaceGuards(products, reqs);
    PlaceUnfold(products, reqs);
  }

  /** A successful checkout lowers each product's stock by exactly the quantity requested of it and changes nothing else. */
  lemma {:induction false} PlaceStock(products: map<ProductKey, Product>, reqs: seq<LineRequest>)
    requires Place(products, reqs).Ok?
    ensures var p := Place(products, reqs).value;
      && p.products.Keys == products.Keys
      && (forall k :: k in products ==>
            p.products[k] == products[k].(stock := products[k].stock - RequestedOf(reqs, k)))
    decreases |reqs|
  {
    if reqs != [] {
      PlaceStep(products, reqs);
      var key := Decimal(reqs[0].productId);
      var next := AfterFirst(products, reqs[0]);
      PlaceStock(next, reqs[1..]);
      var p := Place(products, reqs).value;
      forall k | k in products
        ensures p.products[k] == products[k].(stock := products[k].stock - RequestedOf(reqs, k))
      {
        assert RequestedOf(reqs, k) == (if key == k then reqs[0].quantity else 0) + RequestedOf(reqs[1..], k);
      }
    }
  }

  /** A successful checkout has one line per request, snapshotting the product as it was before checkout. */
  lemma {:induction false} PlaceLines(products: map<ProductKey, Product>, reqs: seq<LineRequest>)
    requires Place(products, reqs).Ok?
    ensures var p := Place(products, reqs).value;
      && |p.lines| == |reqs|
      && (forall i :: 0 <= i < |reqs| ==>
            Decimal(reqs[i].productId) in products
            && p.lines[i] == Snapshot(reqs[i], products[Decimal(reqs[i].productId)]))
    decreases |reqs|
  {
    if reqs != [] {
      var key := Decimal(reqs[0].productId);
      var q := products[key];
      var next := products[key := q.(stock := q.stock - reqs[0].quantity)];
      PlaceLines(next, reqs[1..]);
      var p := Place(products, reqs).value;
      var rest := Place(next, reqs[1..]).value;
      assert p.lines == [Snapshot(reqs[0], q)] + rest.lines;
      forall i | 0 <= i < |reqs|
        ensures Decimal(reqs[i].productId) in products
        ensures p.lines[i] == Snapshot(reqs[i], products[Decimal(reqs[i].productId)])
      {
        if i > 0 {
          assert reqs[1..][i - 1] == reqs[i];
          assert p.lines[i] == rest.lines[i - 1];
        }
      }
    }
  }

  /** A checkout's total is the sum of its lines' price times quantity. */
  lemma {:induction false} PlaceTotal(products: map<ProductKey, Product>, reqs: seq<LineRequest>)
    requires Place(products, reqs).Ok?
    ensures Place(products, reqs).value.total == LinesTotal(Place(products, reqs).value.lines)
    decreases |reqs|
  {
    if reqs != [] {
      var key := Decimal(reqs[0].productId);
      var q := products[key];
      var next := products[key := q.(stock := q.stock - reqs[0].quantity)];
      PlaceTotal(next, reqs[1..]);
      var p := Place(products, reqs).value;
      var rest := Place(next, reqs[1..]).value;
      assert p.lines == [Snapshot(reqs[0], q)] + rest.lines;
      assert p.lines[1..] == rest.lines;
    }
  }

  /**
   * A successful checkout keeps every product but its stock, lowers each
   * product's stock by exactly the quantity requested of it, gives one line
   * per request that snapshots the product as it was, and totals the lines.
   */
  lemma PlaceAccounts(products: map<ProductKey, Product>, reqs: seq<LineRequest>)
    requires Place(products, reqs).Ok?
    ensures var p := Place(products, reqs).value;
      && p.products.Keys == products.Keys
      && (forall k :: k in products ==>
            p.products[k] == products[k].(stock := products[k].stock - RequestedOf(reqs, k)))
      && |p.lines| == |reqs|
      && (forall i :: 0 <= i < |reqs| ==>
            Decimal(reqs[i].productId) in products
            && p.lines[i] == Snapshot(reqs[i], products[Decimal(reqs[i].productId)]))
      && p.total == LinesTotal(p.lines)
  {
    PlaceStock(products, reqs);
    PlaceLines(products, reqs);
    PlaceTotal(products, reqs);
  }

  /**
   * Checkout never drives a stock below zero: every requested product ends
   * at zero or more, and a product that had stock zero or more still has.
   */
  lemma {:induction false} PlaceStockNonNegative(products: map<ProductKey, Product>, reqs: seq<LineRequest>)
    requires Place(products, reqs).Ok?
    ensures var p := Place(products, reqs).value;
      && (forall i :: 0 <= i < |reqs| ==>
            Decimal(reqs[i].productId) in p.products && p.products[Decimal(reqs[i].productId)].stock >= 0)
      && (forall k :: k in products && products[k].stock >= 0 ==> k in p.products && p.products[k].stock >= 0)
      && (forall k :: k in products ==> k in p.products && (p.products[k].stock >= 0 || p.products[k] == products[k]))
    decreases |reqs|
  {
    if reqs != [] {
      PlaceStep(products, reqs);
      var key := Decimal(reqs[0].productId);
      var next := AfterFirst(products, reqs[0]);
      PlaceStockNonNegative(next, reqs[1..]);
      var p := Place(products, reqs).value;
      assert p.products == Place(next, reqs[1..]).value.products;
      assert next.Keys == products.Keys && next[key].stock >= 0;
      forall i | 0 <= i < |reqs|
        ensures Decimal(reqs[i].productId) in p.products && p.products[Decimal(reqs[i].productId)].stock >= 0
      {
        if i > 0 {
          assert reqs[1..][i - 1] == reqs[i];
        }
      }
      forall k | k in products
        ensures k in p.products && (products[k].stock >= 0 ==> p.products[k].stock >= 0)
        ensures k in p.products && (p.products[k].stock >= 0 || p.products[k] == products[k])
      {
        if k != key {
          assert next[k] == products[k];
        }
      }
    }
  }

  /** A product requested twice is checked the second time against what the first line left. */
  lemma RepeatedProduct(products: map<ProductKey, Product>, id: int, q1: int, q2: int)
    requires Decimal(id) in products
    ensures var s := products[Decimal(id)].stock;
      Place(products, [LineRequest(id, q1), LineRequest(id, q2)]).Ok? <==> s >= q1 && s - q1 >= q2
  {
    var key := Decimal(id);
    var p := products[key];
    var reqs := [LineRequest(id, q1), LineRequest(id, q2)];
    assert reqs[1..] == [LineRequest(id, q2)];
    assert [LineRequest(id, q2)][1..] == [];
    if p.stock >= q1 {
      var after := products[key := p.(stock := p.stock - q1)];
      assert Place(products, reqs) == Extend([Snapshot(reqs[0], p)], p.price * q1, Place(after, [LineRequest(id, q2)]));
      assert Place(after, [LineRequest(id, q2)]).Ok? <==> p.stock - q1 >= q2;
    }
  }

  /** A request for a product that is not stored fails the checkout. */
  lemma {:induction false} PlaceMissingProduct(products: map<ProductKey, Product>, reqs: seq<LineRequest>, i: nat)
    requires i < |reqs| && Decimal(reqs[i].productId) !in products
    ensures Place(products, reqs).Err?
    decreases i
  {
    if i > 0 {
      var key := Decimal(reqs[0].productId);
      if key in products && products[key].stock >= reqs[0].quantity {
        assert reqs[1..][i - 1] == reqs[i];
        PlaceMissingProduct(AfterFirst(products, reqs[0]), reqs[1..], i - 1);
        PlaceUnfold(products, reqs);
      }
    }
  }

  /** The product table once one line's quantity is back on its product. */
  function PutBack(products: map<ProductKey, Product>, line: OrderLine): map<ProductKey, Product>
    requires Decimal(line.productId) in products
  {
    var key := Decimal(line.productId);
    products[key := products[key].(stock := products[key].stock + line.quantity)]
  }

  /**
   * `restoreProductStock`: every line's quantity back on its product, line by
   * line. It fails only with a missing product, and a success leaves the same
   * products stored.
   */
  function Restore(products: map<ProductKey, Product>, lines: seq<OrderLine>): (r: Result<map<ProductKey, Product>>)
    ensures r.Err? ==> r.error == ProductNotFound
    ensures r.Ok? ==> r.value.Keys == products.Keys
    decreases |lines|
  {
    if lines == [] then Ok(products)
    else if Decimal(lines[0].productId) !in products then Err(ProductNotFound)
    else Restore(PutBack(products, lines[0]), lines[1..])
  }

  method RestoreProductStock(products: map<ProductKey, Product>, lines: seq<OrderLine>) returns (r: Result<map<ProductKey, Product>>)
    ensures r == Restore(products, lines)
  {
    var current := products;
    for i := 0 to |lines|
      invariant Restore(products, lines) == Restore(current, lines[i..])
    {
      var key := Decimal(lines[i].productId);
      if key !in current {
        return Err(ProductNotFound);
      }
      assert lines[i..][1..] == lines[i + 1..];
      current := PutBack(current, lines[i]);
    }
    r := Ok(current);
  }

  /** Restoring succeeds exactly when every line's product is stored. */
  lemma {:induction false} RestoreSucceeds(products: map<ProductKey, Product>, lines: seq<OrderLine>)
    ensures Restore(products, lines).Ok? <==> forall i :: 0 <= i < |lines| ==> Decimal(lines[i].productId) in products
    decreases |lines|
  {
    if lines != [] {
      assert forall i :: 1 <= i < |lines| ==> lines[1..][i - 1] == lines[i];
      if Decimal(lines[0].productId) in products {
        var next := PutBack(products, lines[0]);
        RestoreSucceeds(next, lines[1..]);
        assert next.Keys == products.Keys;
      }
    }
  }

  /** A successful restore raises each product's stock by the quantity ordered of it and changes nothing else. */
  lemma {:induction false} RestoreStock(products: map<ProductKey, Product>, lines: seq<OrderLine>)
    requires Restore(products, lines).Ok?
    ensures Restore(products, lines).value.Keys == products.Keys
    ensures forall k :: k in products ==>
      Restore(products, lines).value[k] == products[k].(stock := products[k].stock + OrderedOf(lines, k))
    decreases |lines|
  {
    if lines != [] {
      var key := Decimal(lines[0].productId);
      assert key in products;
      var next := PutBack(products, lines[0]);
      RestoreStock(next, lines[1..]);
      forall k | k in products
        ensures Restore(products, lines).value[k] == products[k].(stock := products[k].stock + OrderedOf(lines, k))
      {
        assert OrderedOf(lines, k) == (if key == k then lines[0].quantity else 0) + OrderedOf(lines[1..], k);
      }
    }
  }

  /**
   * Restoring succeeds exactly when every line's product is stored, and then
   * raises each product's stock by the quantity ordered of it and changes
   * nothing else.
   */
  lemma RestoreAccounts(products: map<ProductKey, Product>, lines: seq<OrderLine>)
    ensures Restore(products, lines).Ok? <==> forall i :: 0 <= i < |lines| ==> Decimal(lines[i].productId) in products
    ensures Restore(products, lines).Ok? ==>
      && Restore(products, lines).value.Keys == products.Keys
      && forall k :: k in products ==>
           Restore(products, lines).value[k] == products[k].(stock := products[k].stock + OrderedOf(lines, k))
  {
    RestoreSucceeds(products, lines);
    if Restore(products, lines).Ok? {
      RestoreStock(products, lines);
    }
  }

  /** The lines of a checkout order exactly what was requested of each product. */
  lemma {:induction false} OrderedMatchesRequested(products: map<ProductKey, Product>, reqs: seq<LineRequest>, lines: seq<OrderLine>)
    requires |lines| == |reqs|
    requires forall i :: 0 <= i < |reqs| ==>
      Decimal(reqs[i].productId) in products && lines[i] == Snapshot(reqs[i], products[Decimal(reqs[i].productId)])
    ensures forall k :: OrderedOf(lines, k) == RequestedOf(reqs, k)
    decreases |reqs|
  {
    if reqs != [] {
      OrderedMatchesRequested(products, reqs[1..], lines[1..]);
    }
  }

  /** Cancelling right after checkout gives back exactly the product table checkout started from. */
  lemma CancelUndoesCheckout(products: map<ProductKey, Product>, reqs: seq<LineRequest>)
    requires Place(products, reqs).Ok?
    ensures Restore(Place(products, reqs).value.products, Place(products, reqs).value.lines) == Ok(products)
  {
    var p := Place(products, reqs).value;
    PlaceAccounts(products, reqs);
    OrderedMatchesRequested(products, reqs, p.lines);
    forall i | 0 <= i < |p.lines|
      ensures Decimal(p.lines[i].productId) in p.products
    {
      assert p.lines[i].productId == reqs[i].productId;
    }
    RestoreAccounts(p.products, p.lines);
    assert Restore(p.products, p.lines).Ok?;
    var back := Restore(p.products, p.lines).value;
    forall k | k in products
      ensures back[k] == products[k]
    {
      assert back[k] == p.products[k].(stock := p.products[k].stock + OrderedOf(p.lines, k));
      assert OrderedOf(p.lines, k) == RequestedOf(reqs, k);
    }
    assert back.Keys == products.Keys;
    assert back == products;
  }

  /**
   * `validateProductStock`: the first line whose product is gone or short, if
   * any. A shortfall names a stored product that some line asks more of than
   * it has.
   */
  function StockShortfall(products: map<ProductKey, Product>, lines: seq<OrderLine>): (r: Option<Error>)
    ensures r.Some? ==> r.value == ProductNotFound || r.value.InsufficientStockFor?
    ensures r.Some? && r.value.InsufficientStockFor? ==>
      exists i :: 0 <= i < |lines| && Decimal(lines[i].productId) in products
        && products[Decimal(lines[i].productId)].stock < lines[i].quantity
        && products[Decimal(lines[i].productId)].name == r.value.productName
    decreases |lines|
  {
    if lines == [] then None
    else
      var key := Decimal(lines[0].productId);
      if key !in products then Some(ProductNotFound)
      else if products[key].stock < lines[0].quantity then Some(InsufficientStockFor(products[key].name))
      else StockShortfall(products, lines[1..])
  }

  /** The stock re-check passes exactly when every line's product is stored with enough stock. */
  lemma {:induction false} StockShortfallMeaning(products: map<ProductKey, Product>, lines: seq<OrderLine>)
    ensures StockShortfall(products, lines).None? <==>
      forall i :: 0 <= i < |lines| ==>
        Decimal(lines[i].productId) in products
        && products[Decimal(lines[i].productId)].stock >= lines[i].quantity
    decreases |lines|
  {
    if lines != [] {
      StockShortfallMeaning(products, lines[1..]);
      assert forall i :: 1 <= i < |lines| ==> lines[1..][i - 1] == lines[i];
    }
  }

  method ValidateProductStock(products: map<ProductKey, Product>, lines: seq<OrderLine>) returns (r: Option<Error>)
    ensures r == StockShortfall(products, lines)
  {
    for i := 0 to |lines|
      invariant StockShortfall(products, lines) == StockShortfall(products, lines[i..])
    {
      var key := Decimal(lines[i].productId);
      if key !in products {
        return Some(ProductNotFound);
      }
      if products[key].stock < lines[i].quantity {
        return Some(InsufficientStockFor(products[key].name));
      }
      assert lines[i..][1..] == lines[i + 1..];
    }
    r := None;
  }

  /**
   * The effect of `updateOrderStatus` on the product table and on the order.
   * A change the table forbids fails with the transition message; an allowed
   * one sets the status, keeps the same products stored and touches stock only
   * when it moves into `cancelled`. A move into `cancelled` fails exactly when
   * some line's product is gone, and otherwise puts every line's quantity back
   * on its product.
   */
  function StatusChange(products: map<ProductKey, Product>, order: Order, next: string): (r: Result<(map<ProductKey, Product>, Order)>)
    ensures !IsValidStatusTransition(order.status, next) ==> r == Err(InvalidTransition(order.status, next))
    ensures r.Ok? ==> IsValidStatusTransition(order.status, next) && r.value.1 == order.(status := next)
    ensures r.Ok? ==> r.value.0.Keys == products.Keys
    ensures r.Ok? && next != Cancelled ==> r.value.0 == products
    ensures next == Cancelled && order.status in {Pending, Sold} ==>
      (r.Ok? <==> forall i :: 0 <= i < |order.lines| ==> Decimal(order.lines[i].productId) in products)
    ensures next == Cancelled && order.status in {Pending, Sold} && r.Err? ==> r.error == ProductNotFound
    ensures r.Ok? && next == Cancelled ==>
      forall k :: k in products ==> r.value.0[k] == products[k].(stock := products[k].stock + OrderedOf(order.lines, k))
  {
    if !IsValidStatusTransition(order.status, next) then Err(InvalidTransition(order.status, next))
    else if next == Cancelled && order.status != Cancelled then
      RestoreAccounts(products, order.lines);
      match Restore(products, order.lines)
      case Err(e) => Err(e)
      case Ok(restored) => Ok((restored, order.(status := next)))
    else if next == Sold && order.status == Pending then
      match StockShortfall(products, order.lines)
      case Some(e) => Err(e)
      case None => Ok((products, order.(status := next)))
    else Ok((products, order.(status := next)))
  }

  /** `pending` to `sold` goes through exactly when the stock still covers every line. */
  lemma SoldRechecksStock(products: map<ProductKey, Product>, order: Order)
    ensures order.status == Pending ==>
      (StatusChange(products, order, Sold).Ok? <==>
        forall i :: 0 <= i < |order.lines| ==>
          Decimal(order.lines[i].productId) in products
          && products[Decimal(order.lines[i].productId)].stock >= order.lines[i].quantity)
  {
    StockShortfallMeaning(products, order.lines);
  }

  /**
   * Every move into `cancelled` restores the stock, and `cancelled` to
   * `pending` takes none back: cancelling, reopening and cancelling again
   * puts each line's quantity back twice.
   */
  lemma CancelReopenCancel(products: map<ProductKey, Product>, order: Order)
    requires order.status == Pending || order.status == Sold
    requires forall i :: 0 <= i < |order.lines| ==> Decimal(order.lines[i].productId) in products
    ensures var first := StatusChange(products, order, Cancelled);
      && first.Ok?
      && var reopened := StatusChange(first.value.0, first.value.1, Pending);
      && reopened.Ok? && reopened.value.0 == first.value.0
      && var second := StatusChange(reopened.value.0, reopened.value.1, Cancelled);
      && second.Ok? && second.value.1.status == Cancelled
      && second.value.0.Keys == products.Keys
      && forall k :: k in products ==>
           second.value.0[k] == products[k].(stock := products[k].stock + 2 * OrderedOf(order.lines, k))
  {
    var first := StatusChange(products, order, Cancelled);
    var once := first.value.0;
    ReopenKeepsStock(once, first.value.1);
    var reopened := first.value.1.(status := Pending);
    var twice := StatusChange(once, reopened, Cancelled).value.0;
    forall k | k in products
      ensures twice[k] == products[k].(stock := products[k].stock + 2 * OrderedOf(order.lines, k))
    {
      assert twice[k] == once[k].(stock := once[k].stock + OrderedOf(order.lines, k));
    }
  }

  /** `cancelled` to `pending` takes no stock back. */
  lemma ReopenKeepsStock(products: map<ProductKey, Product>, order: Order)
    requires order.status == Cancelled
    ensures StatusChange(products, order, Pending) == Ok((products, order.(status := Pending)))
  {
    assert IsValidStatusTransition(Cancelled, Pending);
  }

  /** `createOrder`: checkout, then the user's cart is cleared. */
  method CreateOrder(db: Database, u: UserId, shippingAddress: string, paymentMethod: string, reqs: seq<LineRequest>)
    returns (r: Result<Order>)
    requires db.Valid()
    modifies db
    ensures db.Valid()
    ensures var t := old(db.State());
      match Place(t.products, reqs)
      case Err(e) => r == Err(e) && db.State() == t
      case Ok(p) =>
        && r == Ok(Order(t.nextOrderId, u, shippingAddress, paymentMethod, Pending, p.total, p.lines))
        && db.State() == CartService.Cleared(
             t.(products := p.products, orders := t.orders[t.nextOrderId := r.value], nextOrderId := t.nextOrderId + 1),
             u)
  {
    var placed := PlaceOrderLines(db.products, reqs);
    if placed.Err? {
      return Err(placed.error);
    }
    var p := placed.value;
    PlaceAccounts(db.products, reqs);
    var order := Order(db.nextOrderId, u, shippingAddress, paymentMethod, Pending, p.total, p.lines);
    var t := db.State();
    ProductStockChangeKeepsValid(t, p.products);
    OrdersChangeKeepsValid(t.(products := p.products), t.orders[t.nextOrderId := order], t.nextOrderId + 1);
    db.products, db.orders, db.nextOrderId := p.products, t.orders[t.nextOrderId := order], t.nextOrderId + 1;
    var _ := CartService.ClearCart(db, u);
    r := Ok(order);
  }

  /** A product table that differs only in stock keeps the tables valid. */
  lemma ProductStockChangeKeepsValid(t: Tables, products: map<ProductKey, Product>)
    requires TablesValid(t)
    requires products.Keys == t.products.Keys
    requires forall k :: k in products ==> products[k] == t.products[k].(stock := products[k].stock)
    ensures TablesValid(t.(products := products))
  {
    var t' := t.(products := products);
    forall v | v in t'.carts
      ensures CartValid(t'.carts[v], v, t')
    {
      assert CartValid(t.carts[v], v, t);
    }
  }

  /** An order table keyed by order id, below the next id to issue, keeps the tables valid. */
  lemma OrdersChangeKeepsValid(t: Tables, orders: map<int, Order>, nextOrderId: int)
    requires TablesValid(t) && nextOrderId >= t.nextOrderId
    requires forall o :: o in orders ==> orders[o].id == o && o < nextOrderId
    ensures TablesValid(t.(orders := orders, nextOrderId := nextOrderId))
  {
    var t' := t.(orders := orders, nextOrderId := nextOrderId);
    forall v | v in t'.carts
      ensures CartValid(t'.carts[v], v, t')
    {
      assert CartValid(t.carts[v], v, t);
    }
  }

  /** A new status on a stored order keeps the tables valid. */
  lemma StatusKeepsValid(t: Tables, orderId: int, status: string)
    requires TablesValid(t) && orderId in t.orders
    ensures TablesValid(t.(orders := t.orders[orderId := t.orders[orderId].(status := status)]))
  {
    OrdersChangeKeepsValid(t, t.orders[orderId := t.orders[orderId].(status := status)], t.nextOrderId);
  }

  /** `updateOrderStatus`. */
  method UpdateOrderStatus(db: Database, orderId: int, next: string) returns (r: Result<Order>)
    requires db.Valid()
    modifies db
    ensures db.Valid()
    ensures var t := old(db.State());
      if orderId !in t.orders then r == Err(OrderNotFound) && db.State() == t
      else match StatusChange(t.products, t.orders[orderId], next)
        case Err(e) => r == Err(e) && db.State() == t
        case Ok(changed) =>
          && r == Ok(changed.1)
          && db.State() == t.(products := changed.0, orders := t.orders[orderId := changed.1])
  {
    if orderId !in db.orders {
      return Err(OrderNotFound);
    }
    ghost var t := db.State();
    var order := db.orders[orderId];
    if !IsValidStatusTransition(order.status, next) {
      return Err(InvalidTransition(order.status, next));
    }
    if next == Cancelled && order.status != Cancelled {
      var restored := RestoreProductStock(db.products, order.lines);
      if restored.Err? {
        return Err(restored.error);
      }
      RestoreAccounts(db.products, order.lines);
      assert StatusChange(t.products, order, next) == Ok((restored.value, order.(status := next)));
      ProductStockChangeKeepsValid(db.State(), restored.value);
      db.products := restored.value;
    } else if next == Sold && order.status == Pending {
      var shortfall := ValidateProductStock(db.products, order.lines);
      if shortfall.Some? {
        return Err(shortfall.value);
      }
      assert StatusChange(t.products, order, next) == Ok((t.products, order.(status := next)));
    } else {
      assert StatusChange(t.products, order, next) == Ok((t.products, order.(status := next)));
    }
    StatusKeepsValid(db.State(), orderId, next);
    order := order.(status := next);
    db.orders := db.orders[orderId := order];
    r := Ok(order);
    assert db.State() == t.(products := db.products, orders := t.orders[orderId := order]);
  }
}
