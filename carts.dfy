/**
 * The cart handlers: add a product to the caller's cart (creating the cart on
 * first use and merging into an existing line), read the cart with its
 * products, set a line's quantity and remove a line, the last two only for
 * the owner of the line's cart. None of them runs in a transaction, so a
 * write done before a later failure stays.
 */
module Carts {
  import opened Wrappers
  import opened Text
  import opened Schema
  import opened Store
  import opened Http

  /** The JSON bodies the cart handlers answer with. */
  datatype CartBody =
    /** A cart-item row, as returned by an insert or update. */
    | Item(item: CartItem)
    /** The cart row with its items, each with its product. */
    | Contents(cart: Cart, lines: seq<Line>)
    /** `{ cartItems: [] }` for a caller with no cart. */
    | NoCart
    | Notice(message: string)
    /** `sendStatus`: no JSON. */
    | NoBody

  /** How many units of a product a cart holds, over all of its lines for that product. */
  function Quantity(items: seq<CartItem>, cartId: int, productId: int): int
    decreases |items|
  {
    if items == [] then 0
    else
      var last := items[|items| - 1];
      Quantity(items[..|items| - 1], cartId, productId)
        + (if last.cartId == cartId && last.productId == productId then last.quantity else 0)
  }

  lemma QuantitySnoc(items: seq<CartItem>, item: CartItem, cartId: int, productId: int)
    ensures Quantity(items + [item], cartId, productId)
      == Quantity(items, cartId, productId) + (if item.cartId == cartId && item.productId == productId then item.quantity else 0)
  {
    assert (items + [item])[..|items|] == items;
  }

  /** Rewriting the quantity of one line changes only the count of that line's (cart, product). */
  lemma {:induction false} QuantityRewrite(items: seq<CartItem>, k: nat, q: int, cartId: int, productId: int)
    requires k < |items|
    ensures Quantity(items[k := items[k].(quantity := q)], cartId, productId)
      == Quantity(items, cartId, productId)
         + (if items[k].cartId == cartId && items[k].productId == productId then q - items[k].quantity else 0)
    decreases |items|
  {
    var n := |items|;
    var items' := items[k := items[k].(quantity := q)];
    assert items'[..n - 1] == if k < n - 1 then items[..n - 1][k := items[k].(quantity := q)] else items[..n - 1];
    if k < n - 1 {
      QuantityRewrite(items[..n - 1], k, q, cartId, productId);
    }
  }

  /** Under one line per (cart, product), the count is that line's quantity. */
  lemma {:induction false} QuantityOfLine(items: seq<CartItem>, k: nat)
    requires OneLinePerCartProduct(items) && k < |items|
    ensures Quantity(items, items[k].cartId, items[k].productId) == items[k].quantity
    decreases |items|
  {
    var n := |items|;
    if k < n - 1 {
      QuantityOfLine(items[..n - 1], k);
    } else {
      QuantityAbsent(items[..n - 1], items[k].cartId, items[k].productId);
    }
  }

  /** A (cart, product) with no line counts zero. */
  lemma {:induction false} QuantityAbsent(items: seq<CartItem>, cartId: int, productId: int)
    requires forall i :: 0 <= i < |items| ==> !(items[i].cartId == cartId && items[i].productId == productId)
    ensures Quantity(items, cartId, productId) == 0
    decreases |items|
  {
    if items != [] {
      QuantityAbsent(items[..|items| - 1], cartId, productId);
    }
  }

  predicate IsLine(item: CartItem, cartId: int, productId: int)
  {
    item.cartId == cartId && item.productId == productId
  }

  // ---------------------------------------------------------------------------
  // Adding to the cart

  /** The caller's cart, found or created; creating it needs the user row (foreign key). */
  datatype Opened = Found(cart: Cart) | Created(cart: Cart) | NoOwner

  function OpenCart(carts: seq<Cart>, users: seq<User>, userId: int, nextCartId: int): (r: Opened)
    ensures r.Found? ==> r.cart in carts && r.cart.userId == userId
    ensures !r.Found? ==> forall i :: 0 <= i < |carts| ==> carts[i].userId != userId
    ensures r.Created? <==> CartOf(carts, userId).None? && HasUser(users, userId)
    ensures r.Created? ==> r.cart == Cart(nextCartId, userId)
  {
    match CartOf(carts, userId)
    case Some(cart) => Found(cart)
    case None => if HasUser(users, userId) then Created(Cart(nextCartId, userId)) else NoOwner
  }

  /** The cart-item table, the reply and the next cart-item id after adding `quantity` of a product to a cart. */
  datatype Added = Added(items: seq<CartItem>, reply: Outcome<CartBody>, nextId: int)

  /**
   * Merge into the cart's first line for the product, or insert a new line. The
   * store rejects a quantity outside the `integer` range before touching the
   * table, and a product that does not exist once the insert has drawn its id.
   */
  function AddItem(items: seq<CartItem>, products: seq<Product>, cartId: int, productId: int, quantity: int, nextId: int): (a: Added)
    ensures a.reply.Next? ==> a.items == items
    ensures a.reply.Reply? ==> a.reply.status in {200, 201} && a.reply.body.Item?
    ensures a.reply.Reply? ==> a.reply.body.item in a.items && IsLine(a.reply.body.item, cartId, productId)
    ensures a.reply.Reply? ==> (a.reply.status == 201 <==> forall i :: 0 <= i < |items| ==> !IsLine(items[i], cartId, productId))
    ensures a.reply == Next(ForeignKeyViolation) <==>
      (forall i :: 0 <= i < |items| ==> !IsLine(items[i], cartId, productId)) && InInt32(quantity) && !HasProduct(products, productId)
  {
    match FirstIndex(items, (c: CartItem) => IsLine(c, cartId, productId))
    case Some(k) =>
      var merged := items[k].(quantity := items[k].quantity + quantity);
      if !InInt32(merged.quantity) then Added(items, Next(OutOfRange), nextId)
      else
        var items' := items[k := merged];
        assert items'[k] == merged;
        Added(items', Reply(200, Item(merged)), nextId)
    case None =>
      if !InInt32(quantity) then Added(items, Next(OutOfRange), nextId)
      else if !HasProduct(products, productId) then Added(items, Next(ForeignKeyViolation), nextId + 1)
      else
        var item := CartItem(nextId, cartId, productId, quantity);
        Added(items + [item], Reply(201, Item(item)), nextId + 1)
  }

  /** A successful add raises the cart's count of the product by exactly `quantity` and no other count. */
  lemma AddItemCounts(items: seq<CartItem>, products: seq<Product>, cartId: int, productId: int, quantity: int, nextId: int, c: int, p: int)
    ensures var a := AddItem(items, products, cartId, productId, quantity, nextId);
      a.reply.Reply? ==>
        Quantity(a.items, c, p) == Quantity(items, c, p) + (if c == cartId && p == productId then quantity else 0)
  {
    var a := AddItem(items, products, cartId, productId, quantity, nextId);
    if a.reply.Reply? {
      match FirstIndex(items, (x: CartItem) => IsLine(x, cartId, productId))
      case Some(k) =>
        QuantityRewrite(items, k, items[k].quantity + quantity, c, p);
      case None =>
        QuantitySnoc(items, CartItem(nextId, cartId, productId, quantity), c, p);
    }
  }

  /** Adding keeps one line per (cart, product). */
  lemma AddItemKeepsOneLine(items: seq<CartItem>, products: seq<Product>, cartId: int, productId: int, quantity: int, nextId: int)
    requires OneLinePerCartProduct(items)
    ensures OneLinePerCartProduct(AddItem(items, products, cartId, productId, quantity, nextId).items)
  {
    var a := AddItem(items, products, cartId, productId, quantity, nextId);
    if a.reply.Reply? {
      match FirstIndex(items, (x: CartItem) => IsLine(x, cartId, productId))
      case Some(k) =>
        assert forall i :: 0 <= i < |items| ==> a.items[i].cartId == items[i].cartId && a.items[i].productId == items[i].productId;
      case None =>
        var item := CartItem(nextId, cartId, productId, quantity);
        assert a.items == items + [item];
        forall i, j | 0 <= i < j < |a.items| && a.items[i].cartId == a.items[j].cartId
          ensures a.items[i].productId != a.items[j].productId
        {
          if j == |items| {
            assert !IsLine(items[i], cartId, productId);
          }
        }
    }
  }

  /** Adding at least one unit keeps every quantity positive. */
  lemma AddItemKeepsPositive(items: seq<CartItem>, products: seq<Product>, cartId: int, productId: int, quantity: int, nextId: int)
    requires PositiveQuantities(items) && quantity >= 1
    ensures PositiveQuantities(AddItem(items, products, cartId, productId, quantity, nextId).items)
  {
  }

  /** Adding keeps the cart-item ids serial. */
  lemma AddItemKeepsSerial(items: seq<CartItem>, products: seq<Product>, cartId: int, productId: int, quantity: int, nextId: int)
    requires Serial(items, (c: CartItem) => c.id, nextId)
    ensures var a := AddItem(items, products, cartId, productId, quantity, nextId);
      Serial(a.items, (c: CartItem) => c.id, a.nextId)
  {
    var a := AddItem(items, products, cartId, productId, quantity, nextId);
    if a.reply.Reply? {
      match FirstIndex(items, (x: CartItem) => IsLine(x, cartId, productId))
      case Some(k) =>
        SerialSameKeys(items, a.items, (c: CartItem) => c.id, nextId);
      case None =>
        SerialAppend(items, (c: CartItem) => c.id, nextId, CartItem(nextId, cartId, productId, quantity));
    }
  }

  /** Adding keeps the product foreign key: a merge keeps the product, an insert checks it. */
  lemma AddItemKeepsProducts(items: seq<CartItem>, products: seq<Product>, cartId: int, productId: int, quantity: int, nextId: int)
    requires ProductsExist(items, products)
    ensures ProductsExist(AddItem(items, products, cartId, productId, quantity, nextId).items, products)
  {
    var a := AddItem(items, products, cartId, productId, quantity, nextId);
    if a.reply.Reply? {
      forall i | 0 <= i < |a.items| ensures HasProduct(products, a.items[i].productId) {
        if i < |items| {
          assert a.items[i].productId == items[i].productId;
        }
      }
    }
  }

  /** Creating the caller's cart keeps the cart ids serial, the owner foreign key and one cart per user. */
  lemma CreatedKeeps(carts: seq<Cart>, users: seq<User>, userId: int, nextCartId: int)
    requires Serial(carts, (c: Cart) => c.id, nextCartId) && CartOwnersExist(carts, users) && OneCartPerUser(carts)
    requires OpenCart(carts, users, userId, nextCartId).Created?
    ensures var carts' := carts + [Cart(nextCartId, userId)];
      && Serial(carts', (c: Cart) => c.id, nextCartId + 1)
      && CartOwnersExist(carts', users)
      && OneCartPerUser(carts')
  {
    SerialAppend(carts, (c: Cart) => c.id, nextCartId, Cart(nextCartId, userId));
  }

  /** The cart lookup or insert that starts `addToCartHandler`; its insert stays even when a later step fails. */
  method EnterCart(db: Db, userId: int) returns (entry: Opened)
    requires db.Valid()
    modifies db`carts, db`nextCartId
    ensures db.Valid()
    ensures entry == OpenCart(old(db.carts), db.users, userId, old(db.nextCartId))
    ensures db.carts == old(db.carts) + (if entry.Created? then [entry.cart] else [])
    ensures db.nextCartId == old(db.nextCartId) + (if entry.Found? then 0 else 1)
  {
    entry := OpenCart(db.carts, db.users, userId, db.nextCartId);
    if entry.NoOwner? {
      // The insert draws an id before the foreign key rejects it.
      db.nextCartId := db.nextCartId + 1;
    } else if entry.Created? {
      CreatedKeeps(db.carts, db.users, userId, db.nextCartId);
      db.carts, db.nextCartId := db.carts + [entry.cart], db.nextCartId + 1;
    }
  }

  /** The merge or insert of the line, as one statement on the cart-item table. */
  method PutItem(db: Db, cartId: int, productId: int, quantity: int) returns (r: Outcome<CartBody>)
    requires db.Valid() && quantity >= 1
    modifies db`cartItems, db`nextCartItemId
    ensures db.Valid()
    ensures var a := AddItem(old(db.cartItems), db.products, cartId, productId, quantity, old(db.nextCartItemId));
      r == a.reply && db.cartItems == a.items && db.nextCartItemId == a.nextId
  {
    var a := AddItem(db.cartItems, db.products, cartId, productId, quantity, db.nextCartItemId);
    AddItemKeepsSerial(db.cartItems, db.products, cartId, productId, quantity, db.nextCartItemId);
    AddItemKeepsProducts(db.cartItems, db.products, cartId, productId, quantity, db.nextCartItemId);
    AddItemKeepsOneLine(db.cartItems, db.products, cartId, productId, quantity, db.nextCartItemId);
    AddItemKeepsPositive(db.cartItems, db.products, cartId, productId, quantity, db.nextCartItemId);
    db.cartItems, db.nextCartItemId := a.items, a.nextId;
    r := a.reply;
  }

  /** `addToCartHandler`, after validation: `quantity` is a whole number of at least 1. */
  method AddToCart(db: Db, userId: int, productId: real, quantity: int) returns (r: Outcome<CartBody>)
    requires db.Valid() && quantity >= 1
    modifies db`carts, db`nextCartId, db`cartItems, db`nextCartItemId
    ensures db.Valid()
    ensures var entry := OpenCart(old(db.carts), db.users, userId, old(db.nextCartId));
      && db.carts == old(db.carts) + (if entry.Created? then [entry.cart] else [])
      && db.nextCartId == old(db.nextCartId) + (if entry.Found? then 0 else 1)
      && (entry.NoOwner? ==> r == Next(ForeignKeyViolation) && db.cartItems == old(db.cartItems) && db.nextCartItemId == old(db.nextCartItemId))
      && (!entry.NoOwner? ==>
           match IntegerParam(productId)
           case Err(fault) => r == Next(fault) && db.cartItems == old(db.cartItems) && db.nextCartItemId == old(db.nextCartItemId)
           case Ok(pid) =>
             var a := AddItem(old(db.cartItems), db.products, entry.cart.id, pid, quantity, old(db.nextCartItemId));
             r == a.reply && db.cartItems == a.items && db.nextCartItemId == a.nextId)
  {
    var entry := EnterCart(db, userId);
    if entry.NoOwner? {
      r := Next(ForeignKeyViolation);
    } else {
      var param := IntegerParam(productId);
      if param.Err? {
        r := Next(param.fault);
      } else {
        r := PutItem(db, entry.cart.id, param.value, quantity);
      }
    }
  }

  // ---------------------------------------------------------------------------
  // Reading the cart

  /**
   * `getCartHandler`: the caller's first cart with its items, each with its product,
   * or an empty item list when the caller has no cart.
   */
  function GetCart(carts: seq<Cart>, items: seq<CartItem>, products: seq<Product>, userId: int): (r: Outcome<CartBody>)
    requires ProductsExist(items, products)
    ensures r.Reply? && r.status == 200 && (r.body.NoCart? || r.body.Contents?)
    ensures r.body.NoCart? <==> forall i :: 0 <= i < |carts| ==> carts[i].userId != userId
    ensures r.body.Contents? ==> r.body.cart in carts && r.body.cart.userId == userId
    ensures r.body.Contents? ==> forall l :: l in r.body.lines ==>
      l.item in items && l.item.cartId == r.body.cart.id && l.product in products && l.product.id == l.item.productId
    ensures r.body.Contents? ==> forall i :: 0 <= i < |items| && items[i].cartId == r.body.cart.id ==>
      exists l :: l in r.body.lines && l.item == items[i]
    ensures r.body.Contents? ==>
      && Some(r.body.cart) == CartOf(carts, userId)
      && |r.body.lines| == |ItemsOf(items, r.body.cart.id)|
      && forall j :: 0 <= j < |r.body.lines| ==> r.body.lines[j].item == ItemsOf(items, r.body.cart.id)[j]
  {
    match CartOf(carts, userId)
    case None => Reply(200, NoCart)
    case Some(cart) => Reply(200, Contents(cart, CartLines(items, products, cart.id)))
  }

  /** One cart's items in table order, each with its product. */
  function CartLines(items: seq<CartItem>, products: seq<Product>, cartId: int): (lines: seq<Line>)
    requires ProductsExist(items, products)
    ensures forall l :: l in lines ==>
      l.item in items && l.item.cartId == cartId && l.product in products && l.product.id == l.item.productId
    ensures forall i :: 0 <= i < |items| && items[i].cartId == cartId ==> exists l :: l in lines && l.item == items[i]
    ensures |lines| == |ItemsOf(items, cartId)| && forall j :: 0 <= j < |lines| ==> lines[j].item == ItemsOf(items, cartId)[j]
  {
    var mine := ItemsOf(items, cartId);
    ProductsExistFilter(items, (c: CartItem) => InCart(c, cartId), products);
    var joined := WithProducts(mine, products);
    assert forall l :: l in joined ==> exists i :: 0 <= i < |mine| && l == joined[i];
    assert forall i :: 0 <= i < |mine| ==> mine[i] in mine && joined[i] in joined;
    assert forall i :: 0 <= i < |items| && items[i].cartId == cartId ==> items[i] in mine;
    joined
  }

  // ---------------------------------------------------------------------------
  // Changing and removing a line

  /**
   * The ownership check: the first cart-item row with that id, left-joined with its cart,
   * must exist and carry the caller's user id (a missing cart gives a null user id).
   */
  predicate Owns(carts: seq<Cart>, items: seq<CartItem>, itemId: int, userId: int)
  {
    match FirstIndex(items, (c: CartItem) => c.id == itemId)
    case None => false
    case Some(k) =>
      match First(carts, (c: Cart) => c.id == items[k].cartId)
      case None => false
      case Some(cart) => cart.userId == userId
  }

  /** With serial ids, the check passes exactly when the line exists and its cart is the caller's. */
  lemma OwnsIff(carts: seq<Cart>, items: seq<CartItem>, itemId: int, userId: int)
    requires forall i, j :: 0 <= i < j < |carts| ==> carts[i].id != carts[j].id
    requires forall i, j :: 0 <= i < j < |items| ==> items[i].id != items[j].id
    ensures Owns(carts, items, itemId, userId) <==>
      exists k, j :: 0 <= k < |items| && 0 <= j < |carts| && items[k].id == itemId
        && carts[j].id == items[k].cartId && carts[j].userId == userId
  {
    match FirstIndex(items, (c: CartItem) => c.id == itemId)
    case None =>
    case Some(k) =>
      assert forall m :: 0 <= m < |items| && items[m].id == itemId ==> m == k;
      match FirstIndex(carts, (c: Cart) => c.id == items[k].cartId)
      case None =>
      case Some(j) =>
        assert forall m :: 0 <= m < |carts| && carts[m].id == items[k].cartId ==> m == j;
        if Owns(carts, items, itemId, userId) {
          assert items[k].id == itemId && carts[j].id == items[k].cartId && carts[j].userId == userId;
        }
  }

  /** `UPDATE cart_items SET quantity = q WHERE id = itemId`. */
  function SetQuantity(items: seq<CartItem>, itemId: int, q: int): seq<CartItem>
  {
    seq(|items|, i requires 0 <= i < |items| => if items[i].id == itemId then items[i].(quantity := q) else items[i])
  }

  /** With one line per id, the update rewrites exactly that line. */
  lemma SetQuantityAt(items: seq<CartItem>, k: nat, q: int)
    requires k < |items| && forall i :: 0 <= i < |items| && i != k ==> items[i].id != items[k].id
    ensures SetQuantity(items, items[k].id, q) == items[k := items[k].(quantity := q)]
  {
  }

  /**
   * Setting a line's quantity makes its (cart, product) count exactly that quantity and
   * leaves every other count alone.
   */
  lemma SetQuantityCounts(items: seq<CartItem>, k: nat, q: int, c: int, p: int)
    requires OneLinePerCartProduct(items) && k < |items|
    requires forall i :: 0 <= i < |items| && i != k ==> items[i].id != items[k].id
    ensures var after := SetQuantity(items, items[k].id, q);
      Quantity(after, c, p) == if IsLine(items[k], c, p) then q else Quantity(items, c, p)
  {
    SetQuantityAt(items, k, q);
    QuantityRewrite(items, k, q, c, p);
    QuantityOfLine(items, k);
  }

  /** `DELETE FROM cart_items WHERE id = itemId`. */
  function RemoveItem(items: seq<CartItem>, itemId: int): seq<CartItem>
  {
    Filter(items, (c: CartItem) => c.id != itemId)
  }

  /** With one line per id, the delete removes exactly that line and keeps the rest in order. */
  lemma {:induction false} RemoveItemAt(items: seq<CartItem>, k: nat)
    requires k < |items| && forall i :: 0 <= i < |items| && i != k ==> items[i].id != items[k].id
    ensures RemoveItem(items, items[k].id) == items[..k] + items[k + 1..]
  {
    var keep := (c: CartItem) => c.id != items[k].id;
    if k == 0 {
      FilterAll(items[1..], keep);
    } else {
      RemoveItemAt(items[1..], k - 1);
      assert items[1..][k - 1].id == items[k].id;
      assert items[1..][..k - 1] + items[1..][k..] == items[1..k] + items[k + 1..];
      assert items[..k] == [items[0]] + items[1..k];
    }
  }

  /** Under one line per (cart, product), the removed line's product leaves the cart entirely. */
  lemma RemoveItemEmptiesLine(items: seq<CartItem>, k: nat)
    requires OneLinePerCartProduct(items) && k < |items|
    requires forall i :: 0 <= i < |items| && i != k ==> items[i].id != items[k].id
    ensures Quantity(RemoveItem(items, items[k].id), items[k].cartId, items[k].productId) == 0
  {
    var r := RemoveItem(items, items[k].id);
    forall i | 0 <= i < |r| ensures !IsLine(r[i], items[k].cartId, items[k].productId) {
      assert r[i] in items;
      var m :| 0 <= m < |items| && items[m] == r[i];
      assert m != k;
    }
    QuantityAbsent(r, items[k].cartId, items[k].productId);
  }

  /** Rewriting quantities to at least one keeps every invariant of the cart-item table. */
  lemma SetQuantityKeeps(items: seq<CartItem>, products: seq<Product>, itemId: int, q: int, next: int)
    requires q >= 1 && Serial(items, (c: CartItem) => c.id, next) && ProductsExist(items, products)
    requires OneLinePerCartProduct(items) && PositiveQuantities(items)
    ensures var after := SetQuantity(items, itemId, q);
      && Serial(after, (c: CartItem) => c.id, next) && ProductsExist(after, products)
      && OneLinePerCartProduct(after) && PositiveQuantities(after)
  {
    SerialSameKeys(items, SetQuantity(items, itemId, q), (c: CartItem) => c.id, next);
  }

  /** `updateCartItemHandler`, after validation: `itemId` converts to a number and `quantity` is a whole number of at least 1. */
  method UpdateCartItem(db: Db, userId: int, itemId: string, quantity: int) returns (r: Outcome<CartBody>)
    requires db.Valid() && NumberOf(itemId).Some? && quantity >= 1
    modifies db`cartItems
    ensures db.Valid()
    ensures match IntegerParam(NumberOf(itemId).value)
      case Err(fault) => r == Next(fault) && db.cartItems == old(db.cartItems)
      case Ok(id) =>
        if !Owns(db.carts, old(db.cartItems), id, userId) then
          r == Reply(403, Notice("Forbidden")) && db.cartItems == old(db.cartItems)
        else if !InInt32(quantity) then
          r == Next(OutOfRange) && db.cartItems == old(db.cartItems)
        else
          && db.cartItems == SetQuantity(old(db.cartItems), id, quantity)
          && r == Reply(200, Item(db.cartItems[FirstIndex(old(db.cartItems), (c: CartItem) => c.id == id).value]))
  {
    var param := IntegerParam(NumberOf(itemId).value);
    if param.Err? {
      return Next(param.fault);
    }
    var id := param.value;
    if !Owns(db.carts, db.cartItems, id, userId) {
      return Reply(403, Notice("Forbidden"));
    }
    if !InInt32(quantity) {
      return Next(OutOfRange);
    }
    SetQuantityKeeps(db.cartItems, db.products, id, quantity, db.nextCartItemId);
    var k := FirstIndex(db.cartItems, (c: CartItem) => c.id == id).value;
    db.cartItems := SetQuantity(db.cartItems, id, quantity);
    r := Reply(200, Item(db.cartItems[k]));
  }

  /** Deleting rows keeps every invariant of the cart-item table. */
  lemma RemoveItemKeeps(items: seq<CartItem>, products: seq<Product>, itemId: int, next: int)
    requires Serial(items, (c: CartItem) => c.id, next) && ProductsExist(items, products)
    requires OneLinePerCartProduct(items) && PositiveQuantities(items)
    ensures var after := RemoveItem(items, itemId);
      && Serial(after, (c: CartItem) => c.id, next) && ProductsExist(after, products)
      && OneLinePerCartProduct(after) && PositiveQuantities(after)
  {
    var keep := (c: CartItem) => c.id != itemId;
    SerialFilter(items, keep, (c: CartItem) => c.id, next);
    ProductsExistFilter(items, keep, products);
    FilterKeepsLines(items, keep);
  }

  /** `removeCartItemHandler`, after validation: `itemId` converts to a number. */
  method RemoveCartItem(db: Db, userId: int, itemId: string) returns (r: Outcome<CartBody>)
    requires db.Valid() && NumberOf(itemId).Some?
    modifies db`cartItems
    ensures db.Valid()
    ensures match IntegerParam(NumberOf(itemId).value)
      case Err(fault) => r == Next(fault) && db.cartItems == old(db.cartItems)
      case Ok(id) =>
        if !Owns(db.carts, old(db.cartItems), id, userId) then
          r == Reply(403, Notice("Forbidden")) && db.cartItems == old(db.cartItems)
        else
          r == Reply(204, NoBody) && db.cartItems == RemoveItem(old(db.cartItems), id)
  {
    var param := IntegerParam(NumberOf(itemId).value);
    if param.Err? {
      return Next(param.fault);
    }
    var id := param.value;
    if !Owns(db.carts, db.cartItems, id, userId) {
      return Reply(403, Notice("Forbidden"));
    }
    RemoveItemKeeps(db.cartItems, db.products, id, db.nextCartItemId);
    db.cartItems := RemoveItem(db.cartItems, id);
    r := Reply(204, NoBody);
  }
}
