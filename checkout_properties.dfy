/**
 * What checkout does to stock. The stock check compares each line with the product row loaded
 * with the cart, while the decrement subtracts from the current row; so a product's stock
 * ends at its loaded value minus everything the cart takes of it. With one line per product
 * that never goes below zero; with two lines of the same product it can.
 */
module CheckoutProperties {
  import opened Wrappers
  import opened Schema
  import opened Store
  import opened Sockets
  import opened Orders

  /** Everything the items take of one product. */
  function Taken(items: seq<CartItem>, productId: int): int
    decreases |items|
  {
    if items == [] then 0
    else
      var last := items[|items| - 1];
      Taken(items[..|items| - 1], productId) + (if last.productId == productId then last.quantity else 0)
  }

  predicate DistinctProductIds(products: seq<Product>)
  {
    forall i, j :: 0 <= i < j < |products| ==> products[i].id != products[j].id
  }

  /** A committed decrement loop leaves each row at its starting stock minus what the items take of it. */
  lemma {:induction false} RestockSubtracts(products: seq<Product>, items: seq<CartItem>)
    requires DistinctProductIds(products)
    ensures var r := Restock(products, items);
      r.Restocked? ==>
        && |r.products| == |products|
        && forall j :: 0 <= j < |products| ==>
             r.products[j] == products[j].(stockQuantity := products[j].stockQuantity - Taken(items, products[j].id))
    decreases |items|
  {
    if items != [] {
      var init := items[..|items| - 1];
      var last := items[|items| - 1];
      RestockSubtracts(products, init);
      var prev := Restock(products, init);
      if prev.Restocked? {
        match ProductIndex(prev.products, last.productId)
        case None =>
        case Some(k) =>
          var r := Restock(products, items);
          if r.Restocked? {
            forall j | 0 <= j < |products|
              ensures r.products[j] == products[j].(stockQuantity := products[j].stockQuantity - Taken(items, products[j].id))
            {
              if j != k {
                assert products[j].id != products[k].id;
              }
            }
          }
      }
    }
  }

  lemma {:induction false} TakenGrows(items: seq<CartItem>, productId: int, n: nat)
    requires n <= |items| && forall i :: 0 <= i < |items| ==> items[i].quantity >= 0
    ensures 0 <= Taken(items[..n], productId) <= Taken(items, productId)
    decreases |items|
  {
    if n < |items| {
      var init := items[..|items| - 1];
      assert init[..n] == items[..n];
      TakenGrows(init, productId, n);
    } else {
      assert items[..n] == items;
      if items != [] {
        TakenGrows(items[..|items| - 1], productId, |items| - 1);
        assert items[..|items| - 1][..|items| - 1] == items[..|items| - 1];
      }
    }
  }

  /** A product the items take nothing of, or no more than its stock. */
  predicate Covered(products: seq<Product>, items: seq<CartItem>)
  {
    forall j :: 0 <= j < |products| ==>
      && InInt32(products[j].stockQuantity)
      && (Taken(items, products[j].id) == 0 || Taken(items, products[j].id) <= products[j].stockQuantity)
  }

  lemma CoveredPrefix(products: seq<Product>, items: seq<CartItem>)
    requires items != [] && Covered(products, items)
    requires forall i :: 0 <= i < |items| ==> items[i].quantity >= 0
    ensures Covered(products, items[..|items| - 1])
  {
    forall j | 0 <= j < |products|
      ensures Taken(items[..|items| - 1], products[j].id) == 0
        || Taken(items[..|items| - 1], products[j].id) <= products[j].stockQuantity
    {
      TakenGrows(items, products[j].id, |items| - 1);
    }
  }

  /**
   * The decrement loop commits when every update finds its row and no product gives more than
   * its stock: each intermediate stock then lies between 0 and the starting stock.
   */
  lemma {:induction false} RestockCommits(products: seq<Product>, items: seq<CartItem>)
    requires DistinctProductIds(products) && ProductsExist(items, products)
    requires forall i :: 0 <= i < |items| ==> items[i].quantity >= 0
    requires Covered(products, items)
    ensures Restock(products, items).Restocked?
    decreases |items|
  {
    if items != [] {
      var init := items[..|items| - 1];
      var last := items[|items| - 1];
      assert ProductsExist(init, products) by {
        forall i | 0 <= i < |init| ensures HasProduct(products, init[i].productId) {
          assert init[i] == items[i];
        }
      }
      CoveredPrefix(products, items);
      RestockCommits(products, init);
      RestockSubtracts(products, init);
      RestockKeepsIds(products, init);
      var prev := Restock(products, init);
      assert HasProduct(products, last.productId);
      ProductIndexSameIds(products, prev.products, last.productId);
      var k := ProductIndex(products, last.productId).value;
      TakenGrows(items, last.productId, 0);
      assert products[k].id == last.productId;
      assert prev.products[k].stockQuantity - last.quantity == products[k].stockQuantity - Taken(items, last.productId);
    }
  }

  lemma {:induction false} TakenOneLine(items: seq<CartItem>, i: nat)
    requires OneLinePerProduct(items) && i < |items|
    ensures Taken(items, items[i].productId) == items[i].quantity
    decreases |items|
  {
    var init := items[..|items| - 1];
    if i < |items| - 1 {
      assert init[i] == items[i];
      TakenOneLine(init, i);
    } else {
      TakenNone(init, items[i].productId);
    }
  }

  lemma {:induction false} TakenNone(items: seq<CartItem>, productId: int)
    requires forall i :: 0 <= i < |items| ==> items[i].productId != productId
    ensures Taken(items, productId) == 0
    decreases |items|
  {
    if items != [] {
      TakenNone(items[..|items| - 1], productId);
    }
  }

  /** With one line per product, an order that passes the stock check never drives a product below zero. */
  lemma CheckoutNeverOversells(carts: seq<Cart>, items: seq<CartItem>, products: seq<Product>, userId: int)
    requires ProductsExist(items, products) && DistinctProductIds(products)
    requires forall j :: 0 <= j < |products| ==> InInt32(products[j].stockQuantity)
    requires var prepared := Prepare(carts, items, products, userId);
      prepared.Ready? ==> OneLinePerProduct(prepared.items) && PositiveQuantities(prepared.items)
    ensures var plan := Checkout(carts, items, products, userId);
      && (plan.Abort? ==> plan.updates == [])
      && (plan.Commit? ==>
           && |plan.products| == |products|
           && forall j :: 0 <= j < |products| ==>
                plan.products[j].id == products[j].id
                && (plan.products[j] == products[j] || 0 <= plan.products[j].stockQuantity < products[j].stockQuantity))
  {
    var prepared := Prepare(carts, items, products, userId);
    if prepared.Ready? {
      var cartItems := prepared.items;
      var lines := prepared.lines;
      ProductsExistFilter(items, (c: CartItem) => InCart(c, prepared.cart.id), products);
      forall j | 0 <= j < |products|
        ensures Taken(cartItems, products[j].id) == 0
          || 1 <= Taken(cartItems, products[j].id) <= products[j].stockQuantity
      {
        if i :| 0 <= i < |cartItems| && cartItems[i].productId == products[j].id {
          TakenOneLine(cartItems, i);
          assert !Short(lines[i]);
          var k := ProductIndex(products, cartItems[i].productId).value;
          assert k == j;
        } else {
          TakenNone(cartItems, products[j].id);
        }
      }
      RestockCommits(products, cartItems);
      RestockSubtracts(products, cartItems);
    }
  }

  /** The update the i-th item broadcasts: its product, at its stock after everything the first i+1 items took. */
  function UpdateAt(products: seq<Product>, items: seq<CartItem>, i: nat): InventoryUpdate
    requires i < |items| && HasProduct(products, items[i].productId)
  {
    var k := ProductIndex(products, items[i].productId).value;
    InventoryUpdate(items[i].productId, products[k].stockQuantity - Taken(items[..i + 1], items[i].productId))
  }

  lemma {:induction false} RestockUpdates(products: seq<Product>, items: seq<CartItem>)
    requires DistinctProductIds(products) && ProductsExist(items, products)
    ensures var r := Restock(products, items);
      r.Restocked? ==>
        && |r.updates| == |items|
        && forall i :: 0 <= i < |items| ==> r.updates[i] == UpdateAt(products, items, i)
    decreases |items|
  {
    if items != [] {
      var init := items[..|items| - 1];
      var last := items[|items| - 1];
      assert ProductsExist(init, products) by {
        forall i | 0 <= i < |init| ensures HasProduct(products, init[i].productId) {
          assert init[i] == items[i];
        }
      }
      RestockUpdates(products, init);
      if Restock(products, items).Restocked? {
        RestockLastUpdate(products, items);
        forall i | 0 <= i < |init| ensures UpdateAt(products, init, i) == UpdateAt(products, items, i) {
          UpdateAtPrefix(products, items, i);
        }
      }
    }
  }

  lemma UpdateAtPrefix(products: seq<Product>, items: seq<CartItem>, i: nat)
    requires i < |items| - 1 && HasProduct(products, items[i].productId)
    ensures UpdateAt(products, items[..|items| - 1], i) == UpdateAt(products, items, i)
  {
    assert items[..i + 1] == items[..|items| - 1][..i + 1];
  }

  /** The last item's update follows those of the items before it. */
  lemma RestockLastUpdate(products: seq<Product>, items: seq<CartItem>)
    requires DistinctProductIds(products) && ProductsExist(items, products) && items != []
    requires Restock(products, items).Restocked?
    ensures Restock(products, items).updates
      == Restock(products, items[..|items| - 1]).updates + [UpdateAt(products, items, |items| - 1)]
  {
    var init := items[..|items| - 1];
    var last := items[|items| - 1];
    var prev := Restock(products, init);
    RestockSubtracts(products, init);
    RestockKeepsIds(products, init);
    assert HasProduct(products, last.productId);
    ProductIndexSameIds(products, prev.products, last.productId);
    assert items[..|items|] == items;
  }

  lemma OneLinePrefix(items: seq<CartItem>, n: nat)
    requires OneLinePerProduct(items) && n <= |items|
    ensures OneLinePerProduct(items[..n])
  {
  }

  /** With one line per product, each update carries its product's starting stock minus the item's quantity. */
  lemma RestockOneLinePerProduct(products: seq<Product>, items: seq<CartItem>)
    requires DistinctProductIds(products) && ProductsExist(items, products) && OneLinePerProduct(items)
    ensures var r := Restock(products, items);
      r.Restocked? ==>
        && |r.updates| == |items|
        && forall i :: 0 <= i < |items| ==>
             r.updates[i] == InventoryUpdate(items[i].productId,
               products[ProductIndex(products, items[i].productId).value].stockQuantity - items[i].quantity)
  {
    RestockUpdates(products, items);
    forall i | 0 <= i < |items| ensures Taken(items[..i + 1], items[i].productId) == items[i].quantity {
      OneLinePrefix(items, i + 1);
      TakenOneLine(items[..i + 1], i);
    }
  }

  /** A committed checkout is the prepared cart with the decrement loop's table and updates. */
  lemma CommitOf(carts: seq<Cart>, items: seq<CartItem>, products: seq<Product>, userId: int)
    requires ProductsExist(items, products)
    ensures var plan := Checkout(carts, items, products, userId);
      var prepared := Prepare(carts, items, products, userId);
      plan.Commit? ==>
        && prepared.Ready?
        && Restock(products, prepared.items).Restocked?
        && plan == Commit(prepared.cart, prepared.lines, prepared.total,
             Restock(products, prepared.items).products, Restock(products, prepared.items).updates)
  {
  }

  /**
   * With one line per product, a committed checkout broadcasts one update per line, in cart
   * order, naming the line's product and carrying its loaded stock minus the line's quantity.
   */
  lemma CheckoutBroadcastsEachLine(carts: seq<Cart>, items: seq<CartItem>, products: seq<Product>, userId: int)
    requires ProductsExist(items, products) && DistinctProductIds(products)
    requires var prepared := Prepare(carts, items, products, userId);
      prepared.Ready? ==> OneLinePerProduct(prepared.items)
    ensures var plan := Checkout(carts, items, products, userId);
      plan.Commit? ==>
        && |plan.updates| == |plan.lines|
        && forall i :: 0 <= i < |plan.lines| ==>
             plan.updates[i] == InventoryUpdate(plan.lines[i].product.id, plan.lines[i].product.stockQuantity - plan.lines[i].item.quantity)
  {
    CommitOf(carts, items, products, userId);
    var prepared := Prepare(carts, items, products, userId);
    if prepared.Ready? {
      PreparedLines(carts, items, products, userId);
      RestockOneLinePerProduct(products, prepared.items);
    }
  }

  /** With one line per product, the loop subtracts each item's quantity from its row and leaves other rows alone. */
  lemma RestockOneLineStocks(products: seq<Product>, items: seq<CartItem>)
    requires DistinctProductIds(products) && OneLinePerProduct(items)
    ensures var r := Restock(products, items);
      r.Restocked? ==>
        && |r.products| == |products|
        && (forall i, j :: 0 <= i < |items| && 0 <= j < |products| && products[j].id == items[i].productId ==>
             r.products[j] == products[j].(stockQuantity := products[j].stockQuantity - items[i].quantity))
        && (forall j :: 0 <= j < |products| && (forall i :: 0 <= i < |items| ==> items[i].productId != products[j].id) ==>
             r.products[j] == products[j])
  {
    RestockSubtracts(products, items);
    forall i | 0 <= i < |items| ensures Taken(items, items[i].productId) == items[i].quantity {
      TakenOneLine(items, i);
    }
    forall j | 0 <= j < |products| && (forall i :: 0 <= i < |items| ==> items[i].productId != products[j].id)
      ensures Taken(items, products[j].id) == 0
    {
      TakenNone(items, products[j].id);
    }
  }

  /** With distinct ids, the row a product id finds is the one row with that id. */
  lemma ProductIndexOf(products: seq<Product>, j: nat)
    requires DistinctProductIds(products) && j < |products|
    ensures ProductIndex(products, products[j].id) == Some(j)
  {
  }

  /**
   * With one line per product, a committed checkout leaves each line's product at its loaded
   * stock minus the line's quantity, and every product no line names as it was.
   */
  lemma CheckoutSubtractsEachLine(carts: seq<Cart>, items: seq<CartItem>, products: seq<Product>, userId: int)
    requires ProductsExist(items, products) && DistinctProductIds(products)
    requires var prepared := Prepare(carts, items, products, userId);
      prepared.Ready? ==> OneLinePerProduct(prepared.items)
    ensures var plan := Checkout(carts, items, products, userId);
      plan.Commit? ==>
        && |plan.products| == |products|
        && (forall i, j :: 0 <= i < |plan.lines| && 0 <= j < |products| && products[j].id == plan.lines[i].product.id ==>
             plan.products[j].stockQuantity == plan.lines[i].product.stockQuantity - plan.lines[i].item.quantity)
        && (forall j :: 0 <= j < |products| && (forall i :: 0 <= i < |plan.lines| ==> plan.lines[i].product.id != products[j].id) ==>
             plan.products[j] == products[j])
  {
    CommitOf(carts, items, products, userId);
    var prepared := Prepare(carts, items, products, userId);
    if prepared.Ready? {
      PreparedLines(carts, items, products, userId);
      RestockOneLineStocks(products, prepared.items);
      forall j | 0 <= j < |products| ensures ProductIndex(products, products[j].id) == Some(j) {
        ProductIndexOf(products, j);
      }
    }
  }

  /** The lines checkout works on are the cart's items, each with the row its product id finds. */
  lemma PreparedLines(carts: seq<Cart>, items: seq<CartItem>, products: seq<Product>, userId: int)
    requires ProductsExist(items, products)
    ensures var prepared := Prepare(carts, items, products, userId);
      prepared.Ready? ==>
        && ProductsExist(prepared.items, products)
        && |prepared.lines| == |prepared.items|
        && forall i :: 0 <= i < |prepared.items| ==>
             prepared.lines[i] == Line(prepared.items[i], products[ProductIndex(products, prepared.items[i].productId).value])
  {
    var prepared := Prepare(carts, items, products, userId);
    if prepared.Ready? {
      ProductsExistFilter(items, (c: CartItem) => InCart(c, prepared.cart.id), products);
    }
  }

  /** A product with one unit in stock, and a cart holding it on two lines of one unit each. */
  const Mug := Product(1, "Mug", None, 500, [], 1, 1)
  const TwoMugLines := [CartItem(1, 1, 1, 1), CartItem(2, 1, 1, 1)]

  /** Each line passes the stock check against the loaded row, and the second decrement takes the stock below zero. */
  lemma DuplicateLinesOversell()
    ensures var plan := Checkout([Cart(1, 7)], TwoMugLines, [Mug], 7);
      plan.Commit? && plan.products == [Mug.(stockQuantity := -1)]
      && plan.updates == [InventoryUpdate(1, 0), InventoryUpdate(1, -1)]
  {
    var items := TwoMugLines;
    assert ItemsOf(items, 1) == items;
    var lines := WithProducts(items, [Mug]);
    assert lines == [Line(items[0], Mug), Line(items[1], Mug)];
    assert FirstIndex(lines, Short) == None;
    assert lines[..1] == [lines[0]] && lines[..1][..0] == [];
    assert Total(lines[..1]) == 500;
    assert Total(lines) == 1000;
    assert items[..1] == [items[0]];
    assert Restock([Mug], items[..1]) == Restocked([Mug.(stockQuantity := 0)], [InventoryUpdate(1, 0)]);
  }

  /** A product at the top of the `integer` range, on three lines taking all of it each. */
  const Crate := Product(2, "Crate", None, 0, [], Int32Max, 1)
  const ThreeCrateLines := [CartItem(1, 1, 2, Int32Max), CartItem(2, 1, 2, Int32Max), CartItem(3, 1, 2, Int32Max)]

  /**
   * The third decrement leaves the `integer` range and aborts the transaction, after the first
   * two updates were already broadcast: clients hear of stock changes that are rolled back.
   */
  lemma BroadcastBeforeRollback()
    ensures Checkout([Cart(1, 7)], ThreeCrateLines, [Crate], 7)
      == Abort(OutOfRange, [InventoryUpdate(2, 0), InventoryUpdate(2, -Int32Max)])
  {
    CreateOrderPrepared();
    CrateRestockOverflows();
  }

  lemma CreateOrderPrepared()
    ensures Prepare([Cart(1, 7)], ThreeCrateLines, [Crate], 7).Ready?
    ensures Prepare([Cart(1, 7)], ThreeCrateLines, [Crate], 7).items == ThreeCrateLines
  {
    var items := ThreeCrateLines;
    CrateCartLines();
    var lines := WithProducts(items, [Crate]);
    assert FirstIndex(lines, Short) == None;
    assert lines[..2] == [lines[0], lines[1]] && lines[..2][..1] == [lines[0]] && lines[..1][..0] == [];
    assert Total(lines[..1]) == 0;
    assert Total(lines[..2]) == 0;
    assert Total(lines) == 0;
  }

  lemma CrateCartLines()
    ensures ItemsOf(ThreeCrateLines, 1) == ThreeCrateLines
    ensures WithProducts(ThreeCrateLines, [Crate]) == [Line(ThreeCrateLines[0], Crate), Line(ThreeCrateLines[1], Crate), Line(ThreeCrateLines[2], Crate)]
  {
    var items := ThreeCrateLines;
    assert items[1..][1..] == [items[2]] && items[1..][1..][1..] == [];
    assert ItemsOf([items[2]], 1) == [items[2]];
    assert ItemsOf(items[1..], 1) == items[1..];
  }

  lemma CrateRestockOverflows()
    ensures Restock([Crate], ThreeCrateLines) == Overflow([InventoryUpdate(2, 0), InventoryUpdate(2, -Int32Max)])
  {
    var items := ThreeCrateLines;
    assert items[..1] == [items[0]] && items[..1][..0] == [];
    assert items[..2] == [items[0], items[1]] && items[..2][..1] == items[..1];
    assert items[..3] == items && items[..3][..2] == items[..2];
    assert Restock([Crate], items[..1]) == Restocked([Crate.(stockQuantity := 0)], [InventoryUpdate(2, 0)]);
    assert Restock([Crate], items[..2])
      == Restocked([Crate.(stockQuantity := -Int32Max)], [InventoryUpdate(2, 0), InventoryUpdate(2, -Int32Max)]);
  }

  /** Clearing a cart empties it and leaves every other cart's items as they were, in order. */
  lemma {:induction false} ClearCartEmptiesOnlyIt(items: seq<CartItem>, cartId: int, other: int)
    ensures ItemsOf(ClearCart(items, cartId), cartId) == []
    ensures other != cartId ==> ItemsOf(ClearCart(items, cartId), other) == ItemsOf(items, other)
    decreases |items|
  {
    if items != [] {
      ClearCartEmptiesOnlyIt(items[1..], cartId, other);
      if !InCart(items[0], cartId) {
        assert ([items[0]] + ClearCart(items[1..], cartId))[1..] == ClearCart(items[1..], cartId);
      }
    }
  }

  /** Two customers each hold the last mug in their carts. */
  const SharedMugCarts := [Cart(1, 7), Cart(2, 8)]
  const SharedMugItems := [CartItem(1, 1, 1, 1), CartItem(2, 2, 1, 1)]

  lemma SharedMugPrepared()
    ensures Prepare(SharedMugCarts, SharedMugItems, [Mug], 7) == Ready(Cart(1, 7), [SharedMugItems[0]], [Line(SharedMugItems[0], Mug)], 500)
  {
    var items := SharedMugItems;
    assert CartOf(SharedMugCarts, 7) == Some(Cart(1, 7));
    assert items[1..][1..] == [];
    assert ItemsOf(items, 1) == [items[0]];
    var lines := WithProducts([items[0]], [Mug]);
    assert lines == [Line(items[0], Mug)];
    assert FirstIndex(lines, Short) == None;
    assert lines[..0] == [];
    assert Total(lines) == 500;
  }

  lemma SharedMugRestocked()
    ensures Restock([Mug], [SharedMugItems[0]]) == Restocked([Mug.(stockQuantity := 0)], [InventoryUpdate(1, 0)])
  {
    assert [SharedMugItems[0]][..0] == [];
  }

  lemma SharedMugLeft()
    ensures ClearCart(SharedMugItems, 1) == [SharedMugItems[1]]
    ensures Prepare(SharedMugCarts, [SharedMugItems[1]], [Mug.(stockQuantity := 0)], 8) == Stop(NotEnoughStock("Mug"))
  {
    var items := SharedMugItems;
    assert items[1..][1..] == [];
    assert ItemsOf([items[1]], 2) == [items[1]];
    assert WithProducts([items[1]], [Mug.(stockQuantity := 0)]) == [Line(items[1], Mug.(stockQuantity := 0))];
  }

  /**
   * Checkouts one after the other: the first takes the last mug and empties its cart; the
   * second, finding no stock left, fails the stock check and broadcasts nothing.
   */
  lemma LastUnitGoesOnce()
    ensures var first := Checkout(SharedMugCarts, SharedMugItems, [Mug], 7);
      && first == Commit(Cart(1, 7), [Line(SharedMugItems[0], Mug)], 500, [Mug.(stockQuantity := 0)], [InventoryUpdate(1, 0)])
      && Checkout(SharedMugCarts, ClearCart(SharedMugItems, 1), first.products, 8) == Abort(NotEnoughStock("Mug"), [])
  {
    SharedMugPrepared();
    SharedMugRestocked();
    SharedMugLeft();
  }
}
