/**
 * The database as in-memory tables. Each table is a sequence of rows in table
 * order (the order in which a query without ORDER BY returns them in this
 * model); a serial column takes the next value of its sequence.
 */
module Store {
  import opened Wrappers
  import opened Schema

  /** Keys drawn from a serial sequence: positive, distinct, below the sequence's next value. */
  ghost predicate Serial<T>(rows: seq<T>, key: T -> int, next: int)
  {
    && 1 <= next
    && (forall i :: 0 <= i < |rows| ==> 1 <= key(rows[i]) < next)
    && (forall i, j :: 0 <= i < j < |rows| ==> key(rows[i]) != key(rows[j]))
  }

  /** Appending a row keyed by the sequence's next value keeps the keys serial. */
  lemma SerialAppend<T>(rows: seq<T>, key: T -> int, next: int, row: T)
    requires Serial(rows, key, next) && key(row) == next
    ensures Serial(rows + [row], key, next + 1)
  {
  }

  /** Rewriting rows without touching their keys keeps the keys serial. */
  lemma SerialSameKeys<T>(rows: seq<T>, rows': seq<T>, key: T -> int, next: int)
    requires Serial(rows, key, next)
    requires |rows'| == |rows| && forall i :: 0 <= i < |rows| ==> key(rows'[i]) == key(rows[i])
    ensures Serial(rows', key, next)
  {
  }

  /** `DELETE ... WHERE NOT keep(row)`: the surviving rows, in table order. */
  function Filter<T>(rows: seq<T>, keep: T -> bool): (r: seq<T>)
    ensures |r| <= |rows|
    ensures forall x :: x in r ==> x in rows && keep(x)
    ensures forall i :: 0 <= i < |rows| && keep(rows[i]) ==> rows[i] in r
  {
    if rows == [] then []
    else if keep(rows[0]) then [rows[0]] + Filter(rows[1..], keep)
    else Filter(rows[1..], keep)
  }

  /** A filter that keeps every row keeps the table as it is. */
  lemma {:induction false} FilterAll<T>(rows: seq<T>, keep: T -> bool)
    requires forall i :: 0 <= i < |rows| ==> keep(rows[i])
    ensures Filter(rows, keep) == rows
  {
    if rows != [] {
      FilterAll(rows[1..], keep);
    }
  }

  /** Deleting rows keeps the remaining keys serial. */
  lemma {:induction false} SerialFilter<T>(rows: seq<T>, keep: T -> bool, key: T -> int, next: int)
    requires Serial(rows, key, next)
    ensures Serial(Filter(rows, keep), key, next)
  {
    if rows != [] {
      SerialFilter(rows[1..], keep, key, next);
      var rest := Filter(rows[1..], keep);
      if keep(rows[0]) {
        forall j | 0 <= j < |rest| ensures key(rest[j]) != key(rows[0]) {
          assert rest[j] in rows[1..];
        }
      }
    }
  }

  /** The position of the first row satisfying `p`. */
  function FirstIndex<T>(rows: seq<T>, p: T -> bool): (r: Option<nat>)
    ensures r.Some? ==> r.value < |rows| && p(rows[r.value])
    ensures r.Some? ==> forall j :: 0 <= j < r.value ==> !p(rows[j])
    ensures r.None? ==> forall j :: 0 <= j < |rows| ==> !p(rows[j])
  {
    if rows == [] then None
    else if p(rows[0]) then Some(0)
    else match FirstIndex(rows[1..], p)
      case None => None
      case Some(i) => Some(i + 1)
  }

  /** `SELECT ... WHERE p LIMIT 1`: the first row satisfying `p`. */
  function First<T>(rows: seq<T>, p: T -> bool): (r: Option<T>)
    ensures r.Some? ==> r.value in rows && p(r.value)
    ensures r.None? ==> forall j :: 0 <= j < |rows| ==> !p(rows[j])
  {
    match FirstIndex(rows, p)
    case None => None
    case Some(i) => Some(rows[i])
  }

  function ProductIndex(products: seq<Product>, id: int): Option<nat>
  {
    FirstIndex(products, (p: Product) => p.id == id)
  }

  predicate HasProduct(products: seq<Product>, id: int)
  {
    ProductIndex(products, id).Some?
  }

  /** Two product tables with the same ids row by row. */
  predicate SameProductIds(products: seq<Product>, products': seq<Product>)
  {
    |products'| == |products| && forall i :: 0 <= i < |products| ==> products'[i].id == products[i].id
  }

  /** Changing only non-key columns leaves every id lookup where it was. */
  lemma ProductIndexSameIds(products: seq<Product>, products': seq<Product>, id: int)
    requires SameProductIds(products, products')
    ensures ProductIndex(products', id) == ProductIndex(products, id)
  {
  }

  /** Foreign key cart_items.product_id -> products.id. */
  predicate ProductsExist(items: seq<CartItem>, products: seq<Product>)
  {
    forall i :: 0 <= i < |items| ==> HasProduct(products, items[i].productId)
  }

  predicate HasUser(users: seq<User>, id: int)
  {
    exists i :: 0 <= i < |users| && users[i].id == id
  }

  /** Foreign key carts.user_id -> users.id (no handler deletes a user). */
  predicate CartOwnersExist(carts: seq<Cart>, users: seq<User>)
  {
    forall i :: 0 <= i < |carts| ==> HasUser(users, carts[i].userId)
  }

  /** Unique constraint on users.email. */
  predicate UniqueEmails(users: seq<User>)
  {
    forall i, j :: 0 <= i < j < |users| ==> users[i].email != users[j].email
  }

  /** At most one cart per user: the user id column has no unique constraint, so this is kept by the cart handlers. */
  predicate OneCartPerUser(carts: seq<Cart>)
  {
    forall i, j :: 0 <= i < j < |carts| ==> carts[i].userId != carts[j].userId
  }

  /** At most one line per (cart, product): the table has no such constraint, so this is kept by the cart handlers. */
  predicate OneLinePerCartProduct(items: seq<CartItem>)
  {
    forall i, j :: 0 <= i < j < |items| ==> items[i].cartId == items[j].cartId ==> items[i].productId != items[j].productId
  }

  /** At most one line per product (within one cart's items). */
  predicate OneLinePerProduct(items: seq<CartItem>)
  {
    forall i, j :: 0 <= i < j < |items| ==> items[i].productId != items[j].productId
  }

  predicate PositiveQuantities(items: seq<CartItem>)
  {
    forall i :: 0 <= i < |items| ==> items[i].quantity >= 1
  }

  /** A filter keeps the surviving rows in their order, so any pairwise fact about the table holds of them. */
  lemma {:induction false} FilterPairwise<T>(rows: seq<T>, keep: T -> bool, ok: (T, T) -> bool)
    requires forall i, j :: 0 <= i < j < |rows| ==> ok(rows[i], rows[j])
    ensures forall i, j :: 0 <= i < j < |Filter(rows, keep)| ==> ok(Filter(rows, keep)[i], Filter(rows, keep)[j])
    decreases |rows|
  {
    if rows != [] {
      var rest := rows[1..];
      var tail := Filter(rest, keep);
      FilterPairwise(rest, keep, ok);
      assert forall i, j :: 0 <= i < j < |tail| ==> ok(tail[i], tail[j]);
      var r := Filter(rows, keep);
      if keep(rows[0]) {
        assert r == [rows[0]] + tail;
        forall i, j | 0 <= i < j < |r| ensures ok(r[i], r[j]) {
          if i == 0 {
            assert r[j] == tail[j - 1];
            assert tail[j - 1] in rest;
            var m :| 0 <= m < |rest| && rest[m] == tail[j - 1];
            assert rows[m + 1] == rest[m];
            assert ok(rows[0], rows[m + 1]);
          } else {
            assert r[i] == tail[i - 1] && r[j] == tail[j - 1];
            assert ok(tail[i - 1], tail[j - 1]);
          }
        }
      } else {
        assert r == tail;
      }
    }
  }

  /** Deleting cart items keeps one line per (cart, product) and positive quantities. */
  lemma FilterKeepsLines(items: seq<CartItem>, keep: CartItem -> bool)
    requires OneLinePerCartProduct(items) && PositiveQuantities(items)
    ensures OneLinePerCartProduct(Filter(items, keep)) && PositiveQuantities(Filter(items, keep))
  {
    var ok := (a: CartItem, b: CartItem) => a.cartId == b.cartId ==> a.productId != b.productId;
    FilterPairwise(items, keep, ok);
    var r := Filter(items, keep);
    forall i, j | 0 <= i < j < |r| ensures r[i].cartId == r[j].cartId ==> r[i].productId != r[j].productId {
      assert ok(r[i], r[j]);
    }
    forall i | 0 <= i < |r| ensures r[i].quantity >= 1 {
      assert r[i] in items;
    }
  }

  /** The caller's cart: the first cart row with that user id. */
  function CartOf(carts: seq<Cart>, userId: int): Option<Cart>
  {
    First(carts, (c: Cart) => c.userId == userId)
  }

  predicate InCart(item: CartItem, cartId: int) { item.cartId == cartId }

  /** The items of one cart, in table order. */
  function ItemsOf(items: seq<CartItem>, cartId: int): seq<CartItem>
  {
    Filter(items, (c: CartItem) => InCart(c, cartId))
  }

  /** One cart's items: one line per product when the table keeps one line per (cart, product). */
  lemma CartLinesDistinct(items: seq<CartItem>, cartId: int)
    requires OneLinePerCartProduct(items)
    ensures OneLinePerProduct(ItemsOf(items, cartId))
  {
    var ok := (a: CartItem, b: CartItem) => a.cartId == b.cartId ==> a.productId != b.productId;
    FilterPairwise(items, (c: CartItem) => InCart(c, cartId), ok);
    var r := ItemsOf(items, cartId);
    forall i, j | 0 <= i < j < |r| ensures r[i].productId != r[j].productId {
      assert r[i] in r && r[j] in r;
      assert ok(r[i], r[j]);
    }
  }

  /** A cart item together with the product row loaded with it. */
  datatype Line = Line(item: CartItem, product: Product)

  lemma ProductsExistFilter(items: seq<CartItem>, keep: CartItem -> bool, products: seq<Product>)
    requires ProductsExist(items, products)
    ensures ProductsExist(Filter(items, keep), products)
  {
    var r := Filter(items, keep);
    forall i | 0 <= i < |r| ensures HasProduct(products, r[i].productId) {
      assert r[i] in items;
    }
  }

  /** Each item with the product it references, as the relational query loads them. */
  function WithProducts(items: seq<CartItem>, products: seq<Product>): (lines: seq<Line>)
    requires ProductsExist(items, products)
    ensures |lines| == |items|
    ensures forall i :: 0 <= i < |items| ==>
      lines[i].item == items[i] && lines[i].product.id == items[i].productId && lines[i].product in products
  {
    seq(|items|, i requires 0 <= i < |items| =>
      Line(items[i], products[ProductIndex(products, items[i].productId).value]))
  }

  class Db {
    var users: seq<User>
    var categories: seq<Category>
    var products: seq<Product>
    var carts: seq<Cart>
    var cartItems: seq<CartItem>
    var orders: seq<Order>
    var orderItems: seq<OrderItem>
    var payments: seq<Payment>

    /** The next value of each table's serial sequence. */
    var nextUserId: int
    var nextProductId: int
    var nextCartId: int
    var nextCartItemId: int
    var nextOrderId: int
    var nextOrderItemId: int
    var nextPaymentId: int

    /**
     * The constraints the schema declares, as far as the handlers touch them, and three
     * the schema does not declare but every handler keeps: one cart per user, one line per
     * (cart, product) and positive quantities.
     */
    ghost predicate Valid()
      reads this
    {
      && Serial(users, (u: User) => u.id, nextUserId)
      && Serial(categories, (c: Category) => c.id, Int32Max + 1)
      && Serial(products, (p: Product) => p.id, nextProductId)
      && Serial(carts, (c: Cart) => c.id, nextCartId)
      && Serial(cartItems, (c: CartItem) => c.id, nextCartItemId)
      && Serial(orders, (o: Order) => o.id, nextOrderId)
      && Serial(orderItems, (o: OrderItem) => o.id, nextOrderItemId)
      && Serial(payments, (p: Payment) => p.id, nextPaymentId)
      && UniqueEmails(users)
      && ProductsExist(cartItems, products)
      && CartOwnersExist(carts, users)
      && OneCartPerUser(carts)
      && OneLinePerCartProduct(cartItems)
      && PositiveQuantities(cartItems)
    }

    /** An empty database whose categories are given (no handler writes that table). */
    constructor (categories: seq<Category>)
      requires Serial(categories, (c: Category) => c.id, Int32Max + 1)
      ensures Valid()
      ensures this.categories == categories
      ensures users == [] && products == [] && carts == [] && cartItems == []
      ensures orders == [] && orderItems == [] && payments == []
    {
      this.categories := categories;
      users, products, carts, cartItems := [], [], [], [];
      orders, orderItems, payments := [], [], [];
      nextUserId, nextProductId, nextCartId, nextCartItemId := 1, 1, 1, 1;
      nextOrderId, nextOrderItemId, nextPaymentId := 1, 1, 1;
    }
  }
}
