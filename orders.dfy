/**
 * Checkout (`createOrderHandler`): one transaction that reads the caller's cart
 * with its products, checks stock line by line, inserts the order, its payment
 * and one order item per line, decrements stock relative to the current value,
 * broadcasts one inventory update per line while still inside the transaction,
 * and finally deletes the cart's items.
 */
module Orders {
  import opened Wrappers
  import opened Text
  import opened Schema
  import opened Store
  import opened Sockets

  datatype CheckoutError =
    | EmptyCart
    | NotEnoughStock(productName: string)
    /** The store rejected a value outside the `integer` range; the transaction rolled back. */
    | OutOfRange
    /** Reading the row returned by an update that matched none. */
    | MissingRow

  /** The message of the error thrown inside the transaction and passed to `next`. */
  function Message(e: CheckoutError): string
  {
    match e
    case EmptyCart => "Cart is empty"
    case NotEnoughStock(name) => "Not enough stock for product: " + name
    case OutOfRange => "integer out of range"
    case MissingRow => "Cannot read properties of undefined (reading 'id')"
  }

  /** A successful checkout answers 201 with the order; a failure is handed to the error handler. */
  datatype CheckoutOutcome = Placed(order: Order) | Rejected(error: CheckoutError)

  /** The items left after `DELETE FROM cart_items WHERE cart_id = cartId`. */
  function ClearCart(items: seq<CartItem>, cartId: int): seq<CartItem>
  {
    Filter(items, (c: CartItem) => !InCart(c, cartId))
  }

  /** The stock check `product.stockQuantity < item.quantity`: strict, so taking all the stock passes. */
  predicate Short(line: Line)
  {
    line.product.stockQuantity < line.item.quantity
  }

  /** The loop over the lines that throws at the first short one: its index. */
  method FindShortage(lines: seq<Line>) returns (r: Option<nat>)
    ensures r.Some? ==> r.value < |lines| && Short(lines[r.value])
    ensures r.Some? ==> forall j :: 0 <= j < r.value ==> !Short(lines[j])
    ensures r.None? ==> forall j :: 0 <= j < |lines| ==> !Short(lines[j])
  {
    for i := 0 to |lines|
      invariant forall j :: 0 <= j < i ==> !Short(lines[j])
    {
      if lines[i].product.stockQuantity < lines[i].item.quantity {
        return Some(i);
      }
    }
    return None;
  }

  function Subtotal(line: Line): int
  {
    line.product.price * line.item.quantity
  }

  /** `cartItems.reduce((total, item) => total + item.product.price * item.quantity, 0)`. */
  function Total(lines: seq<Line>): int
    decreases |lines|
  {
    if lines == [] then 0 else Total(lines[..|lines| - 1]) + Subtotal(lines[|lines| - 1])
  }

  /** The rows inserted into order_items: one per line, with the line's product id and quantity and the product's current price. */
  function OrderItemsFor(lines: seq<Line>, orderId: int, firstId: int): (r: seq<OrderItem>)
    ensures |r| == |lines|
    ensures forall i :: 0 <= i < |lines| ==>
      r[i] == OrderItem(firstId + i, orderId, lines[i].item.productId, lines[i].item.quantity, lines[i].product.price)
  {
    seq(|lines|, i requires 0 <= i < |lines| =>
      OrderItem(firstId + i, orderId, lines[i].item.productId, lines[i].item.quantity, lines[i].product.price))
  }

  /** What an order's items add up to. */
  function ItemsTotal(items: seq<OrderItem>): int
    decreases |items|
  {
    if items == [] then 0
    else ItemsTotal(items[..|items| - 1]) + items[|items| - 1].price * items[|items| - 1].quantity
  }

  /** The recorded order total is exactly what its recorded items add up to. */
  lemma {:induction false} OrderItemsTotal(lines: seq<Line>, orderId: int, firstId: int)
    ensures ItemsTotal(OrderItemsFor(lines, orderId, firstId)) == Total(lines)
    decreases |lines|
  {
    if lines != [] {
      var init := lines[..|lines| - 1];
      var r := OrderItemsFor(lines, orderId, firstId);
      assert r[..|r| - 1] == OrderItemsFor(init, orderId, firstId);
      OrderItemsTotal(init, orderId, firstId);
    }
  }

  /**
   * The state of the decrement loop: the product table and the updates broadcast so far; or the
   * statement that aborted it, after the updates broadcast before it: a new stock outside the
   * `integer` range, or an update that matched no row (whose returned row is then read).
   */
  datatype Restocked =
    | Restocked(products: seq<Product>, updates: seq<InventoryUpdate>)
    | Overflow(updates: seq<InventoryUpdate>)
    | Vanished(updates: seq<InventoryUpdate>)

  lemma ProductsExistSameIds(items: seq<CartItem>, products: seq<Product>, products': seq<Product>)
    requires ProductsExist(items, products) && SameProductIds(products, products')
    ensures ProductsExist(items, products')
  {
    forall i | 0 <= i < |items| ensures HasProduct(products', items[i].productId) {
      ProductIndexSameIds(products, products', items[i].productId);
    }
  }

  /** `UPDATE products SET stock_quantity = stock_quantity - q` on the row at index k. */
  function Decremented(products: seq<Product>, k: nat, quantity: int): (r: seq<Product>)
    requires k < |products|
    ensures SameProductIds(products, r)
  {
    products[k := products[k].(stockQuantity := products[k].stockQuantity - quantity)]
  }

  /** One iteration: subtract the item's quantity from its product's current stock and broadcast that row's id and new stock. */
  function RestockItem(products: seq<Product>, updates: seq<InventoryUpdate>, item: CartItem): Restocked
  {
    match ProductIndex(products, item.productId)
    case None => Vanished(updates)
    case Some(k) =>
      var stock := products[k].stockQuantity - item.quantity;
      if !InInt32(stock) then Overflow(updates)
      else Restocked(Decremented(products, k, item.quantity), updates + [InventoryUpdate(products[k].id, stock)])
  }

  /** The decrement loop over the cart's items, in order; an aborting statement ends it. */
  function Restock(products: seq<Product>, items: seq<CartItem>): Restocked
    decreases |items|
  {
    if items == [] then Restocked(products, [])
    else match Restock(products, items[..|items| - 1])
      case Restocked(ps, us) => RestockItem(ps, us, items[|items| - 1])
      case aborted => aborted
  }

  /** Once a statement aborts, the rest of the items change nothing. */
  lemma {:induction false} RestockAborted(products: seq<Product>, items: seq<CartItem>, j: nat)
    requires j <= |items| && !Restock(products, items[..j]).Restocked?
    ensures Restock(products, items) == Restock(products, items[..j])
    decreases |items| - j
  {
    if j < |items| {
      assert items[..j + 1][..j] == items[..j];
      RestockAborted(products, items, j + 1);
    } else {
      assert items[..j] == items;
    }
  }

  /** The loop only rewrites stock: the product table keeps its ids row by row. */
  lemma {:induction false} RestockKeepsIds(products: seq<Product>, items: seq<CartItem>)
    ensures Restock(products, items).Restocked? ==> SameProductIds(products, Restock(products, items).products)
    decreases |items|
  {
    if items != [] {
      RestockKeepsIds(products, items[..|items| - 1]);
    }
  }

  /** While the foreign key holds, every update finds its row. */
  lemma {:induction false} RestockFindsRows(products: seq<Product>, items: seq<CartItem>)
    requires ProductsExist(items, products)
    ensures !Restock(products, items).Vanished?
    decreases |items|
  {
    if items != [] {
      var init := items[..|items| - 1];
      assert ProductsExist(init, products) by {
        forall i | 0 <= i < |init| ensures HasProduct(products, init[i].productId) {
          assert init[i] == items[i];
        }
      }
      RestockFindsRows(products, init);
      RestockKeepsIds(products, init);
      var prefix := Restock(products, init);
      if prefix.Restocked? {
        ProductIndexSameIds(products, prefix.products, items[|items| - 1].productId);
      }
    }
  }

  /** What checkout decides from the tables it reads: abort with an error (after broadcasting `updates`), or commit. */
  datatype Plan =
    | Abort(error: CheckoutError, updates: seq<InventoryUpdate>)
    | Commit(cart: Cart, lines: seq<Line>, total: int, products: seq<Product>, updates: seq<InventoryUpdate>)

  /** How far the statements before the decrement loop get: an error, or the cart's items, lines and total. */
  datatype Prepared =
    | Stop(error: CheckoutError)
    | Ready(cart: Cart, items: seq<CartItem>, lines: seq<Line>, total: int)

  /** The statements before the decrement loop: load the cart, check it is not empty, check stock, total it. */
  function Prepare(carts: seq<Cart>, items: seq<CartItem>, products: seq<Product>, userId: int): Prepared
    requires ProductsExist(items, products)
  {
    match CartOf(carts, userId)
    case None => Stop(EmptyCart)
    case Some(cart) =>
      var cartItems := ItemsOf(items, cart.id);
      ProductsExistFilter(items, (c: CartItem) => InCart(c, cart.id), products);
      var lines := WithProducts(cartItems, products);
      if lines == [] then Stop(EmptyCart)
      else match FirstIndex(lines, Short)
        case Some(k) => Stop(NotEnoughStock(lines[k].product.name))
        case None =>
          var total := Total(lines);
          if !InInt32(total) then Stop(OutOfRange) else Ready(cart, cartItems, lines, total)
  }

  /** The checkout transaction for `userId`, statement by statement, over the tables as it reads them. */
  function Checkout(carts: seq<Cart>, items: seq<CartItem>, products: seq<Product>, userId: int): Plan
    requires ProductsExist(items, products)
  {
    match Prepare(carts, items, products, userId)
    case Stop(e) => Abort(e, [])
    case Ready(cart, cartItems, lines, total) =>
      match Restock(products, cartItems)
      case Overflow(us) => Abort(OutOfRange, us)
      case Vanished(us) => Abort(MissingRow, us)
      case Restocked(ps, us) => Commit(cart, lines, total, ps, us)
  }

  /** The statements before the decrement loop, as the handler runs them. */
  method Load(db: Db, userId: int) returns (r: Prepared)
    requires db.Valid()
    ensures r == Prepare(db.carts, db.cartItems, db.products, userId)
  {
    var cart := CartOf(db.carts, userId);
    if cart.None? {
      return Stop(EmptyCart);
    }
    var items := ItemsOf(db.cartItems, cart.value.id);
    ProductsExistFilter(db.cartItems, (c: CartItem) => InCart(c, cart.value.id), db.products);
    var lines := WithProducts(items, db.products);
    if lines == [] {
      return Stop(EmptyCart);
    }
    var shortage := FindShortage(lines);
    if shortage.Some? {
      assert FirstIndex(lines, Short) == shortage;
      return Stop(NotEnoughStock(lines[shortage.value].product.name));
    }
    assert FirstIndex(lines, Short).None?;
    var total := Total(lines);
    if !InInt32(total) {
      return Stop(OutOfRange);
    }
    return Ready(cart.value, items, lines, total);
  }

  /** The decrement loop on the transaction's copy of the product table, broadcasting as it goes. */
  method Decrement(hub: Hub, products: seq<Product>, items: seq<CartItem>) returns (result: Restocked)
    modifies hub`outbox
    ensures result == Restock(products, items)
    ensures hub.outbox == old(hub.outbox) + Fanout(hub.clients, result.updates)
  {
    var current := products;
    var sent: seq<InventoryUpdate> := [];
    for i := 0 to |items|
      invariant Restock(products, items[..i]) == Restocked(current, sent)
      invariant hub.outbox == old(hub.outbox) + Fanout(hub.clients, sent)
    {
      assert items[..i + 1][..i] == items[..i];
      var found := ProductIndex(current, items[i].productId);
      if found.None? {
        RestockAborted(products, items, i + 1);
        return Vanished(sent);
      }
      var k := found.value;
      var stock := current[k].stockQuantity - items[i].quantity;
      if !InInt32(stock) {
        RestockAborted(products, items, i + 1);
        return Overflow(sent);
      }
      var payload := InventoryUpdate(current[k].id, stock);
      current := Decremented(current, k, items[i].quantity);
      hub.Broadcast(payload);
      FanoutSnoc(hub.clients, sent, payload);
      sent := sent + [payload];
    }
    assert items[..|items|] == items;
    return Restocked(current, sent);
  }

  /** Serial keys stay serial when a block of consecutive fresh keys is appended. */
  lemma SerialAppendBlock(rows: seq<OrderItem>, block: seq<OrderItem>, next: int)
    requires Serial(rows, (o: OrderItem) => o.id, next)
    requires forall i :: 0 <= i < |block| ==> block[i].id == next + i
    ensures Serial(rows + block, (o: OrderItem) => o.id, next + |block|)
  {
  }

  /** The statements' writes, made visible together when the transaction commits. */
  method CommitWrites(db: Db, order: Order, payment: Payment, newItems: seq<OrderItem>, products: seq<Product>, cartId: int)
    requires db.Valid()
    requires order.id == db.nextOrderId && payment.id == db.nextPaymentId
    requires forall i :: 0 <= i < |newItems| ==> newItems[i].id == db.nextOrderItemId + i
    requires SameProductIds(db.products, products)
    modifies db
    ensures db.Valid()
    ensures db.orders == old(db.orders) + [order] && db.nextOrderId == old(db.nextOrderId) + 1
    ensures db.payments == old(db.payments) + [payment] && db.nextPaymentId == old(db.nextPaymentId) + 1
    ensures db.orderItems == old(db.orderItems) + newItems && db.nextOrderItemId == old(db.nextOrderItemId) + |newItems|
    ensures db.products == products && db.cartItems == ClearCart(old(db.cartItems), cartId)
    ensures db.users == old(db.users) && db.carts == old(db.carts) && db.categories == old(db.categories)
    ensures db.nextUserId == old(db.nextUserId) && db.nextProductId == old(db.nextProductId)
    ensures db.nextCartId == old(db.nextCartId) && db.nextCartItemId == old(db.nextCartItemId)
  {
    var cleared := ClearCart(db.cartItems, cartId);
    SerialAppend(db.orders, (o: Order) => o.id, db.nextOrderId, order);
    SerialAppend(db.payments, (p: Payment) => p.id, db.nextPaymentId, payment);
    SerialAppendBlock(db.orderItems, newItems, db.nextOrderItemId);
    SerialSameKeys(db.products, products, (p: Product) => p.id, db.nextProductId);
    SerialFilter(db.cartItems, (c: CartItem) => !InCart(c, cartId), (c: CartItem) => c.id, db.nextCartItemId);
    ProductsExistFilter(db.cartItems, (c: CartItem) => !InCart(c, cartId), db.products);
    FilterKeepsLines(db.cartItems, (c: CartItem) => !InCart(c, cartId));
    ProductsExistSameIds(cleared, db.products, products);
    db.orders := db.orders + [order];
    db.nextOrderId := db.nextOrderId + 1;
    db.payments := db.payments + [payment];
    db.nextPaymentId := db.nextPaymentId + 1;
    db.orderItems := db.orderItems + newItems;
    db.nextOrderItemId := db.nextOrderItemId + |newItems|;
    db.products := products;
    db.cartItems := cleared;
  }

  /** The sequence values an aborted checkout's inserts consumed: one order, one payment, `count` order items. */
  method SkipCheckoutIds(db: Db, count: nat)
    requires db.Valid()
    modifies db`nextOrderId, db`nextPaymentId, db`nextOrderItemId
    ensures db.Valid()
    ensures db.nextOrderId == old(db.nextOrderId) + 1 && db.nextPaymentId == old(db.nextPaymentId) + 1
    ensures db.nextOrderItemId == old(db.nextOrderItemId) + count
  {
    db.nextOrderId, db.nextPaymentId, db.nextOrderItemId := db.nextOrderId + 1, db.nextPaymentId + 1, db.nextOrderItemId + count;
  }

  /**
   * Checkout for `userId`, at time `now`, with the ten random bytes behind the transaction id.
   * The tables change only when the transaction commits; updates are broadcast from inside
   * the decrement loop and stay sent even when a later statement aborts the transaction.
   */
  method CreateOrder(db: Db, hub: Hub, userId: int, now: int, txnBytes: seq<byte>) returns (r: CheckoutOutcome)
    requires db.Valid() && |txnBytes| == 10
    modifies db, hub`outbox
    ensures db.Valid()
    ensures var plan := Checkout(old(db.carts), old(db.cartItems), old(db.products), userId);
      plan.Abort? ==>
        && r == Rejected(plan.error) && hub.outbox == old(hub.outbox) + Fanout(hub.clients, plan.updates)
        && unchanged(db`users, db`categories, db`products, db`carts, db`cartItems, db`orders, db`orderItems, db`payments)
        && unchanged(db`nextUserId, db`nextProductId, db`nextCartId, db`nextCartItemId)
    ensures var prepared := Prepare(old(db.carts), old(db.cartItems), old(db.products), userId);
      Checkout(old(db.carts), old(db.cartItems), old(db.products), userId).Abort? ==>
        var drawn := if prepared.Ready? then 1 else 0;
        && db.nextOrderId == old(db.nextOrderId) + drawn && db.nextPaymentId == old(db.nextPaymentId) + drawn
        && db.nextOrderItemId == old(db.nextOrderItemId) + (if prepared.Ready? then |prepared.lines| else 0)
    ensures var plan := Checkout(old(db.carts), old(db.cartItems), old(db.products), userId);
      plan.Commit? ==>
        var order := Order(old(db.nextOrderId), userId, plan.total, OrderStatus.Paid, now);
        && r == Placed(order)
        && db.orders == old(db.orders) + [order] && db.nextOrderId == old(db.nextOrderId) + 1
        && db.payments == old(db.payments) + [Payment(old(db.nextPaymentId), order.id, plan.total, Some(MockRazorpay),
             PaymentStatus.Success, Some("txn_" + Hex(txnBytes)), now)]
        && db.nextPaymentId == old(db.nextPaymentId) + 1
        && db.orderItems == old(db.orderItems) + OrderItemsFor(plan.lines, order.id, old(db.nextOrderItemId))
        && db.nextOrderItemId == old(db.nextOrderItemId) + |plan.lines|
        && db.products == plan.products
        && db.cartItems == ClearCart(old(db.cartItems), plan.cart.id)
        && db.users == old(db.users) && db.carts == old(db.carts) && db.categories == old(db.categories)
        && db.nextUserId == old(db.nextUserId) && db.nextProductId == old(db.nextProductId)
        && db.nextCartId == old(db.nextCartId) && db.nextCartItemId == old(db.nextCartItemId)
        && hub.outbox == old(hub.outbox) + Fanout(hub.clients, plan.updates)
  {
    var prepared := Load(db, userId);
    if prepared.Stop? {
      return Rejected(prepared.error);
    }
    r := PlaceOrder(db, hub, userId, now, txnBytes, prepared);
  }

  /** The statements from the inserts on, once the cart has passed the checks. */
  method PlaceOrder(db: Db, hub: Hub, userId: int, now: int, txnBytes: seq<byte>, prepared: Prepared) returns (r: CheckoutOutcome)
    requires db.Valid() && |txnBytes| == 10
    requires prepared.Ready?
    modifies db, hub`outbox
    ensures db.Valid()
    ensures var restocked := Restock(old(db.products), prepared.items);
      hub.outbox == old(hub.outbox) + Fanout(hub.clients, restocked.updates)
    ensures var restocked := Restock(old(db.products), prepared.items);
      !restocked.Restocked? ==>
        && r == Rejected(if restocked.Overflow? then OutOfRange else MissingRow)
        && unchanged(db`users, db`categories, db`products, db`carts, db`cartItems, db`orders, db`orderItems, db`payments)
        && unchanged(db`nextUserId, db`nextProductId, db`nextCartId, db`nextCartItemId)
        && db.nextOrderId == old(db.nextOrderId) + 1 && db.nextPaymentId == old(db.nextPaymentId) + 1
        && db.nextOrderItemId == old(db.nextOrderItemId) + |prepared.lines|
    ensures var restocked := Restock(old(db.products), prepared.items);
      restocked.Restocked? ==>
        var order := Order(old(db.nextOrderId), userId, prepared.total, OrderStatus.Paid, now);
        && r == Placed(order)
        && db.orders == old(db.orders) + [order] && db.nextOrderId == old(db.nextOrderId) + 1
        && db.payments == old(db.payments) + [Payment(old(db.nextPaymentId), order.id, prepared.total, Some(MockRazorpay),
             PaymentStatus.Success, Some("txn_" + Hex(txnBytes)), now)]
        && db.nextPaymentId == old(db.nextPaymentId) + 1
        && db.orderItems == old(db.orderItems) + OrderItemsFor(prepared.lines, order.id, old(db.nextOrderItemId))
        && db.nextOrderItemId == old(db.nextOrderItemId) + |prepared.lines|
        && db.products == restocked.products
        && db.cartItems == ClearCart(old(db.cartItems), prepared.cart.id)
        && db.users == old(db.users) && db.carts == old(db.carts) && db.categories == old(db.categories)
        && db.nextUserId == old(db.nextUserId) && db.nextProductId == old(db.nextProductId)
        && db.nextCartId == old(db.nextCartId) && db.nextCartItemId == old(db.nextCartItemId)
  {
    // The inserts, on the transaction's own copies of the tables.
    var order := Order(db.nextOrderId, userId, prepared.total, OrderStatus.Paid, now);
    var payment := Payment(db.nextPaymentId, order.id, prepared.total, Some(MockRazorpay),
      PaymentStatus.Success, Some("txn_" + Hex(txnBytes)), now);
    var newItems := OrderItemsFor(prepared.lines, order.id, db.nextOrderItemId);
    var restocked := Decrement(hub, db.products, prepared.items);
    if !restocked.Restocked? {
      // The inserts drew their ids before the failing update; a rollback does not return them.
      SkipCheckoutIds(db, |newItems|);
      return if restocked.Overflow? then Rejected(OutOfRange) else Rejected(MissingRow);
    }
    RestockKeepsIds(db.products, prepared.items);
    CommitWrites(db, order, payment, newItems, restocked.products, prepared.cart.id);
    return Placed(order);
  }
}
