/**
 * The product catalogue: the public listing with pagination, a category
 * filter and three sort orders, and the admin-only insert of a product.
 */
module Products {
  import opened Wrappers
  import opened Text
  import opened Schema
  import opened Store
  import opened Http
  import opened Json

  // ---------------------------------------------------------------------------
  // Listing

  /** The query-string parameters the listing reads; absent ones are None. */
  datatype Query = Query(page: Option<string>, limit: Option<string>, categoryId: Option<string>,
                         sortBy: Option<string>, order: Option<string>)

  const DefaultPage: int := 1
  const DefaultLimit: int := 10

  /** LIMIT and OFFSET are `bigint` parameters. */
  const Int64Min: int := -0x8000_0000_0000_0000
  const Int64Max: int := 0x7FFF_FFFF_FFFF_FFFF

  predicate InInt64(n: int) { Int64Min <= n <= Int64Max }

  /** `parseInt(q) || fallback`: an absent parameter, one `parseInt` cannot read, and 0 all give the fallback. */
  function IntParamOr(q: Option<string>, fallback: int): (n: int)
    ensures n == fallback <==> q.None? || ParseInt(q.value).None? || ParseInt(q.value) == Some(0) || ParseInt(q.value) == Some(fallback)
    ensures n != fallback ==> Some(n) == ParseInt(q.value)
  {
    match q
    case None => fallback
    case Some(s) =>
      match ParseInt(s)
      case None => fallback
      case Some(v) => if v == 0 then fallback else v
  }

  /** A positive number written in decimal is taken as it is. */
  lemma IntParamOrDecimal(n: nat, fallback: int)
    requires n >= 1
    ensures IntParamOr(Some(DecimalString(n)), fallback) == n
  {
    ParseIntRoundTrip(n);
  }

  function PageOf(q: Query): int { IntParamOr(q.page, DefaultPage) }

  function LimitOf(q: Query): int { IntParamOr(q.limit, DefaultLimit) }

  /** `(page - 1) * limit`. */
  function OffsetOf(q: Query): int { (PageOf(q) - 1) * LimitOf(q) }

  datatype Ordering = IdDesc | PriceAsc | PriceDesc

  /** Newest first unless `sortBy=price`; then ascending only for `order=asc`. */
  function OrderingOf(q: Query): (o: Ordering)
    ensures o == IdDesc <==> q.sortBy != Some("price")
    ensures o == PriceAsc <==> q.sortBy == Some("price") && q.order == Some("asc")
  {
    if q.sortBy == Some("price") then
      if q.order == Some("asc") then PriceAsc else PriceDesc
    else IdDesc
  }

  /** `a` may come before `b` in the order. */
  predicate Precedes(o: Ordering, a: Product, b: Product)
  {
    match o
    case IdDesc => a.id >= b.id
    case PriceAsc => a.price <= b.price
    case PriceDesc => a.price >= b.price
  }

  predicate SortedBy(o: Ordering, s: seq<Product>)
  {
    forall i, j :: 0 <= i < j < |s| ==> Precedes(o, s[i], s[j])
  }

  /** Place `x` before the first element it may precede; an equal element earlier in `s` stays before it only if `x` may not precede it. */
  function Insert(o: Ordering, x: Product, s: seq<Product>): seq<Product>
  {
    if s == [] then [x]
    else if Precedes(o, x, s[0]) then [x] + s
    else [s[0]] + Insert(o, x, s[1..])
  }

  /** The order the store returns the rows in; rows the order does not separate keep their table order. */
  function SortBy(o: Ordering, s: seq<Product>): seq<Product>
  {
    if s == [] then [] else Insert(o, s[0], SortBy(o, s[1..]))
  }

  lemma {:induction false} InsertPerm(o: Ordering, x: Product, s: seq<Product>)
    ensures multiset(Insert(o, x, s)) == multiset(s) + multiset{x}
  {
    if s != [] && !Precedes(o, x, s[0]) {
      InsertPerm(o, x, s[1..]);
      assert s == [s[0]] + s[1..];
    }
  }

  lemma {:induction false} InsertMembers(o: Ordering, x: Product, s: seq<Product>, y: Product)
    requires y in Insert(o, x, s)
    ensures y == x || y in s
  {
    if s != [] && !Precedes(o, x, s[0]) && y != s[0] {
      InsertMembers(o, x, s[1..], y);
    }
  }

  lemma {:induction false} InsertSorted(o: Ordering, x: Product, s: seq<Product>)
    requires SortedBy(o, s)
    ensures SortedBy(o, Insert(o, x, s))
  {
    if s != [] && !Precedes(o, x, s[0]) {
      var tail := Insert(o, x, s[1..]);
      InsertSorted(o, x, s[1..]);
      forall j | 0 <= j < |tail| ensures Precedes(o, s[0], tail[j]) {
        InsertMembers(o, x, s[1..], tail[j]);
      }
      assert Insert(o, x, s) == [s[0]] + tail;
    }
  }

  /** The sort returns the same rows, in order. */
  lemma {:induction false} SortByKeeps(o: Ordering, s: seq<Product>)
    ensures multiset(SortBy(o, s)) == multiset(s)
    ensures SortedBy(o, SortBy(o, s))
  {
    if s != [] {
      SortByKeeps(o, s[1..]);
      InsertPerm(o, s[0], SortBy(o, s[1..]));
      InsertSorted(o, s[0], SortBy(o, s[1..]));
      assert s == [s[0]] + s[1..];
    }
  }

  /** The category filter is on only when `categoryId` is present and not empty. */
  predicate FiltersCategory(q: Query)
  {
    q.categoryId.Some? && q.categoryId.value != ""
  }

  predicate InCategory(p: Product, categoryId: int) { p.categoryId == categoryId }

  /** The rows of the listing before LIMIT and OFFSET. */
  function Listing(products: seq<Product>, q: Query, categoryId: int): seq<Product>
  {
    var rows := if FiltersCategory(q) then Filter(products, (p: Product) => InCategory(p, categoryId)) else products;
    SortBy(OrderingOf(q), rows)
  }

  /** The listing holds exactly the table's rows in the category (all rows with no filter), in the requested order. */
  lemma ListingRows(products: seq<Product>, q: Query, categoryId: int)
    ensures SortedBy(OrderingOf(q), Listing(products, q, categoryId))
    ensures !FiltersCategory(q) ==> multiset(Listing(products, q, categoryId)) == multiset(products)
    ensures FiltersCategory(q) ==> forall p :: p in Listing(products, q, categoryId) <==> p in products && p.categoryId == categoryId
  {
    var keep := (p: Product) => InCategory(p, categoryId);
    var rows := if FiltersCategory(q) then Filter(products, keep) else products;
    SortByKeeps(OrderingOf(q), rows);
    if FiltersCategory(q) {
      forall p ensures p in Listing(products, q, categoryId) <==> p in products && p.categoryId == categoryId {
        assert p in Listing(products, q, categoryId) <==> p in multiset(rows);
        if p in products && p.categoryId == categoryId {
          var i :| 0 <= i < |products| && products[i] == p;
          assert keep(products[i]);
        }
      }
    }
  }

  /** One product of the page with its category (the one-to-one relation). */
  datatype Listed = Listed(product: Product, category: Option<Category>)

  function WithCategory(p: Product, categories: seq<Category>): Listed
  {
    Listed(p, First(categories, (c: Category) => c.id == p.categoryId))
  }

  /** From 10^21 on, JavaScript writes a number in exponent notation (`1e+21`), which is not an integer literal. */
  const ExponentFrom: int := 1_000_000_000_000_000_000_000

  predicate ExponentWritten(n: int) { n >= ExponentFrom || n <= -ExponentFrom }

  /** The `categoryId` filter's parameter: `parseInt` of it, sent as the number's text, which the store must read as an `integer`. */
  function CategoryParam(q: Query): (r: Checked<int>)
    requires FiltersCategory(q)
    ensures r.Ok? <==> ParseInt(q.categoryId.value).Some? && InInt32(ParseInt(q.categoryId.value).value)
    ensures r.Ok? ==> Some(r.value) == ParseInt(q.categoryId.value)
    ensures r.Err? ==> r.fault == InvalidInput || r.fault == OutOfRange
    ensures r == Err(InvalidInput) <==> ParseInt(q.categoryId.value).None? || ExponentWritten(ParseInt(q.categoryId.value).value)
  {
    match ParseInt(q.categoryId.value)
    // `NaN` is not an integer literal.
    case None => Err(InvalidInput)
    case Some(c) =>
      if InInt32(c) then Ok(c)
      else if ExponentWritten(c) then Err(InvalidInput)
      else Err(OutOfRange)
  }

  /** The `limit` rows starting at `offset`. */
  function Window<T>(rows: seq<T>, offset: nat, limit: nat): (page: seq<T>)
    ensures |page| == (if offset >= |rows| then 0 else Min(limit, |rows| - offset))
    ensures forall i :: 0 <= i < |page| ==> page[i] == rows[offset + i]
  {
    rows[Min(offset, |rows|)..Min(offset + limit, |rows|)]
  }

  /**
   * `listProductsHandler`: the filter parameter and LIMIT/OFFSET are checked by the store,
   * then the page is the `limit` rows starting at `offset` of the sorted listing.
   */
  function ListProducts(products: seq<Product>, categories: seq<Category>, q: Query): (r: Outcome<seq<Listed>>)
    ensures r.Next? <==>
      (FiltersCategory(q) && CategoryParam(q).Err?)
      || LimitOf(q) < 0 || OffsetOf(q) < 0 || !InInt64(LimitOf(q)) || !InInt64(OffsetOf(q))
    ensures r.Reply? ==> r.status == 200
  {
    var category: Checked<int> := if FiltersCategory(q) then CategoryParam(q) else Ok(0);
    var limit, offset := LimitOf(q), OffsetOf(q);
    if category.Err? then Next(category.fault)
    else if !InInt64(limit) || !InInt64(offset) then Next(OutOfRange)
    else if limit < 0 || offset < 0 then Next(NegativeRowCount)
    else
      Reply(200, WithCategories(Window(Listing(products, q, category.value), offset, limit), categories))
  }

  /** The page holds at most `limit` products: those of the sorted listing from `offset` on. */
  lemma ListProductsPage(products: seq<Product>, categories: seq<Category>, q: Query)
    requires ListProducts(products, categories, q).Reply?
    ensures var r := ListProducts(products, categories, q);
      var rows := Listing(products, q, if FiltersCategory(q) then CategoryParam(q).value else 0);
      && |r.body| == (if OffsetOf(q) >= |rows| then 0 else Min(LimitOf(q), |rows| - OffsetOf(q)))
      && forall i :: 0 <= i < |r.body| ==> r.body[i].product == rows[OffsetOf(q) + i]
  {
  }

  /** Each product with its category, as the relational query loads them. */
  function WithCategories(page: seq<Product>, categories: seq<Category>): (r: seq<Listed>)
    ensures |r| == |page| && forall i :: 0 <= i < |page| ==> r[i].product == page[i]
    ensures forall i :: 0 <= i < |page| ==> r[i].category.Some? ==> r[i].category.value in categories && r[i].category.value.id == page[i].categoryId
    ensures forall i :: 0 <= i < |page| ==> (r[i].category.None? <==> forall c :: c in categories ==> c.id != page[i].categoryId)
  {
    seq(|page|, i requires 0 <= i < |page| => WithCategory(page[i], categories))
  }

  function Min(a: int, b: int): int { if a <= b then a else b }

  // ---------------------------------------------------------------------------
  // Creating a product

  /** `imagePath ? [imagePath] : []`: the uploaded file's path, when there is a non-empty one. */
  function ImagesOf(imagePath: Option<string>): (images: seq<string>)
    ensures images == [] <==> imagePath.None? || imagePath.value == ""
    ensures images != [] ==> images == [imagePath.value]
  {
    if imagePath.Some? && imagePath.value != "" then [imagePath.value] else []
  }

  /**
   * How the store binds a request value to an `integer` parameter: `null` binds as SQL NULL,
   * a number or text must read as an `integer`; anything else is refused while binding.
   */
  function IntegerColumn(v: Value): (r: Checked<Option<int>>)
    ensures r == Ok(None) <==> v.Null?
    ensures r.Ok? && r.value.Some? ==> InInt32(r.value.value)
    ensures v.Num? && r.Ok? ==> r.value.Some? && r.value.value as real == v.n
    ensures r.Err? ==> r.fault == InvalidInput || r.fault == OutOfRange
  {
    match v
    case Null => Ok(None)
    case Num(x) => (match IntegerParam(x) case Ok(n) => Ok(Some(n)) case Err(f) => Err(f))
    case Str(s) => (match IntegerText(s) case Ok(n) => Ok(Some(n)) case Err(f) => Err(f))
    // `true`, an array literal and JSON text are not integer literals.
    case Bool(_) => Err(InvalidInput)
    case Arr(_) => Err(InvalidInput)
    case Obj(_) => Err(InvalidInput)
  }

  /** The fields `createProductHandler` reads from the body, as they arrive. */
  datatype ProductInput = ProductInput(name: string, description: Option<string>,
                                       price: Value, stockQuantity: Value, categoryId: Value)

  /** The outcome of the insert: the new row, or the failure and whether the row had drawn its id. */
  datatype Insertion = Inserted(product: Product) | Refused(fault: Fault, drewId: bool)

  /** All three integer parameters bind (possibly as NULL). */
  predicate IntegersBind(input: ProductInput)
  {
    IntegerColumn(input.price).Ok? && IntegerColumn(input.stockQuantity).Ok? && IntegerColumn(input.categoryId).Ok?
  }

  /** Some integer parameter is NULL. */
  predicate SomeNull(input: ProductInput)
  {
    IntegerColumn(input.price) == Ok(None) || IntegerColumn(input.stockQuantity) == Ok(None)
    || IntegerColumn(input.categoryId) == Ok(None)
  }

  /**
   * The insert. The integer parameters are bound, in column order, before the statement runs.
   * Building the row then takes its id from the sequence and fits the name to its column;
   * the not-null constraints are checked on the built row, and the category's existence last.
   */
  function InsertProduct(categories: seq<Category>, input: ProductInput, imagePath: Option<string>, nextId: int): (r: Insertion)
    ensures r.Inserted? ==>
      && r.product.id == nextId && r.product.name == input.name && r.product.description == input.description
      && r.product.images == ImagesOf(imagePath)
      && IntegerColumn(input.price) == Ok(Some(r.product.price))
      && IntegerColumn(input.stockQuantity) == Ok(Some(r.product.stockQuantity))
      && IntegerColumn(input.categoryId) == Ok(Some(r.product.categoryId))
      && (exists c :: c in categories && c.id == r.product.categoryId)
    ensures r.Inserted? <==>
      && IntegersBind(input) && !SomeNull(input)
      && |input.name| <= ProductNameLength
      && exists c :: c in categories && Some(c.id) == IntegerColumn(input.categoryId).value
    ensures r.Refused? ==> (r.drewId <==> IntegersBind(input))
    ensures r == Refused(ValueTooLong, true) <==> IntegersBind(input) && |input.name| > ProductNameLength
    ensures r == Refused(NotNull, true) <==> IntegersBind(input) && |input.name| <= ProductNameLength && SomeNull(input)
  {
    match (IntegerColumn(input.price), IntegerColumn(input.stockQuantity), IntegerColumn(input.categoryId))
    case (Err(f), _, _) => Refused(f, false)
    case (Ok(_), Err(f), _) => Refused(f, false)
    case (Ok(_), Ok(_), Err(f)) => Refused(f, false)
    case (Ok(price), Ok(stock), Ok(categoryId)) =>
      if |input.name| > ProductNameLength then Refused(ValueTooLong, true)
      else if price.None? || stock.None? || categoryId.None? then Refused(NotNull, true)
      else match First(categories, (c: Category) => c.id == categoryId.value)
        case None => Refused(ForeignKeyViolation, true)
        case Some(_) =>
          Inserted(Product(nextId, input.name, input.description, price.value, ImagesOf(imagePath), stock.value, categoryId.value))
  }

  /** `createProductHandler`, with the path of the uploaded image if one came with the request. */
  method CreateProduct(db: Db, input: ProductInput, imagePath: Option<string>) returns (r: Outcome<Product>)
    requires db.Valid()
    modifies db`products, db`nextProductId
    ensures db.Valid()
    ensures match InsertProduct(db.categories, input, imagePath, old(db.nextProductId))
      case Inserted(p) =>
        r == Reply(201, p) && db.products == old(db.products) + [p] && db.nextProductId == old(db.nextProductId) + 1
      case Refused(fault, drewId) =>
        r == Next(fault) && db.products == old(db.products)
        && db.nextProductId == old(db.nextProductId) + (if drewId then 1 else 0)
  {
    var insertion := InsertProduct(db.categories, input, imagePath, db.nextProductId);
    match insertion
    case Refused(fault, drewId) =>
      if drewId {
        db.nextProductId := db.nextProductId + 1;
      }
      r := Next(fault);
    case Inserted(p) =>
      AppendProduct(db, p);
      r := Reply(201, p);
  }

  /** The INSERT itself: the row takes the sequence's next value. */
  method AppendProduct(db: Db, p: Product)
    requires db.Valid() && p.id == db.nextProductId
    modifies db`products, db`nextProductId
    ensures db.Valid()
    ensures db.products == old(db.products) + [p] && db.nextProductId == old(db.nextProductId) + 1
  {
    ProductAppendKeeps(db.products, p, db.nextProductId, db.cartItems);
    db.products, db.nextProductId := db.products + [p], db.nextProductId + 1;
  }

  /** A new row keyed by the next id keeps the ids serial and every cart item's product in place. */
  lemma ProductAppendKeeps(products: seq<Product>, p: Product, next: int, items: seq<CartItem>)
    requires Serial(products, (x: Product) => x.id, next) && ProductsExist(items, products) && p.id == next
    ensures Serial(products + [p], (x: Product) => x.id, next + 1)
    ensures ProductsExist(items, products + [p])
  {
    SerialAppend(products, (x: Product) => x.id, next, p);
    forall i | 0 <= i < |items| ensures HasProduct(products + [p], items[i].productId) {
      HasProductAppend(products, p, items[i].productId);
    }
  }

  lemma {:induction false} HasProductAppend(products: seq<Product>, p: Product, id: int)
    requires HasProduct(products, id)
    ensures ProductIndex(products + [p], id) == ProductIndex(products, id)
  {
    if products[0].id != id {
      HasProductAppend(products[1..], p, id);
      assert (products + [p])[1..] == products[1..] + [p];
    }
  }
}
