# monocart in Dafny

A model of the request-handling core of monocart, an Express + Postgres e-commerce
backend. The database is an in-memory `Store.Db` object. Its tables (users, categories,
products, carts, cart items, orders, order items, payments) are `seq` fields, each with
the next value of its serial sequence. `Db.Valid()` holds what the schema and the
handlers keep true:

- ids are serial;
- e-mail addresses are unique;
- the foreign keys cart_items.product_id and carts.user_id hold;
- a user has at most one cart;
- a cart has at most one line per product;
- quantities are positive.

The model follows the source module by module:

- **Checkout** (`Orders`, `CheckoutProperties`). `createOrderHandler` is a method. It
  loads the cart, checks stock line by line, totals, inserts the order, payment and items,
  decrements stock in a loop that broadcasts as it goes, and clears the cart. It is
  specified against the function `Orders.Checkout`, and the lemmas are about that function.
- **Cart** (`Carts`). The add, get, update and remove handlers.
- **Users** (`Users`). Register, login, e-mail verification, and phone OTP issue and
  verify. bcrypt, SHA-256 and JWT signing are function parameters. Random bytes,
  `Math.random()` and the clock are plain parameters.
- **Products** (`Products`). Listing with its defaults, category filter, sort and page
  window. Creating a product, with its images default and the store's column checks.
- **Middleware** (`Auth`, `Admin`, `VerifiedUser`, `Validate`). Pure decisions.
  `authMiddleware` is also a method on the request/response pair (`Auth.Exchange`).
- **Request schemas** (`Zod`, `CartSchemas`, `ProductSchemas`, `UserSchemas`). `Zod` is a
  small interpreter covering the part of zod 4 the schemas use. Each schema is a constant,
  and a lemma states exactly what it accepts.
- **Data model** (`Schema`). The records, enums, defaults and `integer`/`varchar` limits
  of `db/schema.ts`.
- **Helpers.** `Sockets` is the WebSocket broadcast: clients and a log of deliveries.
  `Http` holds the reply/next outcomes and the store faults. `Text`, `Json` and
  `Wrappers` are utilities.

Checkout broadcasts one inventory update per cart line. The updates go out from inside
the transaction, before the cart is cleared and before commit.

## Model

| member | source | states |
|---|---|---|
| Orders.CreateOrder | src/modules/orders/order.controller.ts:10-107 | The whole transaction against `Checkout` of the tables it reads. Commit: one Paid order for the caller with the total, one SUCCESS mock_razorpay payment with the same amount and a `txn_` + hex transaction id, one order item per line, stock from the decrement loop, the cart's items deleted, every other table unchanged. Abort: the error, no table changed, the sequence values the inserts drew stay used. Either way the broadcasts sent stay sent. |
| Orders.PlaceOrder | src/modules/orders/order.controller.ts:47-103 | From the inserts on: an aborting decrement leaves the tables as they were and consumes one order id, one payment id and one order-item id per line. Otherwise it commits exactly the rows above. |
| Orders.Load | src/modules/orders/order.controller.ts:20-44 | The statements before the inserts compute `Prepare`: Cart is empty for no cart or no items; the first short line's product; an out-of-range total. |
| Orders.FindShortage | src/modules/orders/order.controller.ts:35-39 | Returns the first index whose quantity exceeds the stock (strict `<`), or none. |
| Orders.Decrement | src/modules/orders/order.controller.ts:77-93 | The loop computes `Restock`. The outbox grows by the fan-out of exactly the updates sent before any aborting statement. |
| Orders.OrderItemsTotal | src/modules/orders/order.controller.ts:42-74 | The recorded items add up to the order total. |
| Orders.RestockAborted | src/modules/orders/order.controller.ts:77-81 | Once a statement aborts, the later items change nothing. |
| Orders.RestockKeepsIds | src/modules/orders/order.controller.ts:77-81 | The loop rewrites only stock; product ids stay row by row. |
| Orders.RestockFindsRows | src/modules/orders/order.controller.ts:77-81 | While the cart items' product foreign key holds, every update finds its row. |
| Orders.CommitWrites | src/modules/orders/order.controller.ts:47-98 | The committed state: the three inserts, the product table, the cart cleared. It keeps `Valid`. |
| Orders.SkipCheckoutIds | src/modules/orders/order.controller.ts:47-74 | A rolled-back checkout still advances the order, payment and order-item sequences. |
| CheckoutProperties.RestockSubtracts | src/modules/orders/order.controller.ts:77-81 | After a committed loop, each product's stock is its starting stock minus everything the cart's items take of it. |
| CheckoutProperties.RestockOneLineStocks | src/modules/orders/order.controller.ts:77-81 | With one line per product, each line's product loses exactly that line's quantity and other products are unchanged. |
| CheckoutProperties.CheckoutSubtractsEachLine | src/modules/orders/order.controller.ts:35-81 | The same, for a committed checkout of a cart the handlers built. |
| CheckoutProperties.RestockCommits | src/modules/orders/order.controller.ts:77-81 | If no product is asked for more than its stock, the loop never aborts. |
| CheckoutProperties.CheckoutNeverOversells | src/modules/orders/order.controller.ts:35-81 | With one line per product and positive quantities, a stock-checked cart that aborts has broadcast nothing, and a commit only lowers stocks, never below zero. |
| CheckoutProperties.DuplicateLinesOversell | src/modules/orders/order.controller.ts:35-39 | Two lines of one unit each for a product with one unit both pass the per-line check, and the checkout commits with stock -1. |
| CheckoutProperties.RestockUpdates | src/modules/orders/order.controller.ts:77-93 | Update i carries the i-th item's product id and that product's stock after the first i+1 items. |
| CheckoutProperties.RestockLastUpdate | src/modules/orders/order.controller.ts:77-93 | The last item's update follows the updates of the items before it. |
| CheckoutProperties.RestockOneLinePerProduct | src/modules/orders/order.controller.ts:77-93 | With one line per product, each update is the starting stock minus the line's quantity. |
| CheckoutProperties.CheckoutBroadcastsEachLine | src/modules/orders/order.controller.ts:83-93 | A committed checkout broadcasts exactly one update per cart line, in cart order. |
| CheckoutProperties.CommitOf | src/modules/orders/order.controller.ts:10-107 | A commit is the prepared cart together with the loop's table and updates. |
| CheckoutProperties.PreparedLines | src/modules/orders/order.controller.ts:20-29 | The lines are the cart's items in table order, each with the row its product id finds. |
| CheckoutProperties.BroadcastBeforeRollback | src/modules/orders/order.controller.ts:77-93 | A checkout whose third decrement leaves the `integer` range aborts, after two updates were broadcast. |
| CheckoutProperties.ClearCartEmptiesOnlyIt | src/modules/orders/order.controller.ts:98 | The delete empties the ordered cart and leaves every other cart's items in order. |
| CheckoutProperties.LastUnitGoesOnce | src/modules/orders/order.controller.ts:35-98 | Two customers with the last mug: the first checkout commits, the second is refused for stock. |
| Carts.OpenCart | src/modules/cart/cart.controller.ts:15-19 | The caller's existing cart is reused. When there is none and the user row exists, a cart is created with the next id. |
| Carts.AddItem | src/modules/cart/cart.controller.ts:21-47 | A merge answers 200 and an insert 201. The reply is a line of that cart and product. 201 exactly when no line existed. A foreign-key violation exactly for an unknown product with no line. |
| Carts.AddItemCounts | src/modules/cart/cart.controller.ts:21-47 | A successful add raises that (cart, product) count by exactly the quantity; every other count is unchanged. |
| Carts.AddItemKeepsOneLine | src/modules/cart/cart.controller.ts:21-37 | Adding never creates a second line for a (cart, product). |
| Carts.AddItemKeepsProducts | src/modules/cart/cart.controller.ts:31-47 | Adding keeps the product foreign key. |
| Carts.EnterCart | src/modules/cart/cart.controller.ts:15-19 | The lookup or insert of the cart row. The insert stays even when a later step fails. |
| Carts.PutItem | src/modules/cart/cart.controller.ts:21-47 | The merge or insert on the cart-item table, as `AddItem` describes. |
| Carts.AddToCart | src/modules/cart/cart.controller.ts:6-53 | The whole handler: cart and cart-item tables, sequences and reply, in terms of `OpenCart` and `AddItem`. |
| Carts.GetCart | src/modules/cart/cart.controller.ts:55-82 | Always 200. The empty list exactly when the caller has no cart. Otherwise the caller's first cart, with one line per item of that cart in table order, each with its product. |
| Carts.CartLines | src/modules/cart/cart.controller.ts:62-71 | Line j is the cart's j-th item in table order, with the product it references; every line is an item of the cart and every item of the cart appears. |
| Carts.OwnsIff | src/modules/cart/cart.controller.ts:94-100 | The ownership check passes exactly when the item exists and its cart is the caller's. |
| Carts.SetQuantityCounts | src/modules/cart/cart.controller.ts:102-108 | The update sets that line's count to the new quantity (not a sum) and leaves every other count alone. |
| Carts.UpdateCartItem | src/modules/cart/cart.controller.ts:84-112 | An out-of-range or non-integer id fails; without ownership 403 and no change; otherwise 200 with the rewritten row. |
| Carts.RemoveItemAt | src/modules/cart/cart.controller.ts:130-131 | The delete removes exactly that line and keeps the rest in order. |
| Carts.RemoveItemEmptiesLine | src/modules/cart/cart.controller.ts:130-131 | After the delete, the cart holds none of that product. |
| Carts.RemoveCartItem | src/modules/cart/cart.controller.ts:114-135 | Without ownership 403 and no change; otherwise 204 with that line deleted. |
| Users.Register | src/modules/users/user.controller.ts:10-62 | A taken address: 409 and nothing inserted. An address over 256 characters: refused, after drawing an id. Otherwise: one new customer row with the bcrypt hash and the SHA-256 of the hex token, 201 with only id, fullName and email, and a verification mail whatever its delivery. |
| Users.VerificationMail | src/modules/users/user.controller.ts:46-57 | The mail goes to the new address, with the fixed subject. Its text and html both hold the link `http://localhost:3000/api/v1/users/verify-email/` followed by the raw token, and the text ends with that token. |
| Users.LoginAsWritten | src/modules/users/user.controller.ts:64-101 | As written: 401 exactly for an unknown address; otherwise 200 with a token for that user. |
| Users.WrongPasswordLogsIn | src/modules/users/user.controller.ts:80-96 | A stored user whose hash rejects the password still gets a token. |
| Users.LoginAsWrittenIgnoresPassword | src/modules/users/user.controller.ts:80-96 | As written, the reply does not depend on the password. |
| Users.LoginIssuesTokenIff | src/modules/users/user.controller.ts:76-96 | The corrected login issues a token exactly for a registered address whose hash accepts the password, and that token signs that user's claims. |
| Users.VerifyEmail | src/modules/users/user.controller.ts:103-133 | No row holding the token's hash: 400 and no change. Otherwise that user is marked verified and the token is cleared. |
| Users.VerifyEmailOnce | src/modules/users/user.controller.ts:116-129 | The token finds its user once; afterwards no row holds it, so a second use fails. |
| Users.RegisteredTokenVerifies | src/modules/users/user.controller.ts:26-44 | The token mailed at registration finds the new user. |
| Users.OtpValue | src/modules/users/user.controller.ts:144 | The code is between 100000 and 999999. |
| Users.OtpHasSixDigits | src/modules/users/user.controller.ts:144 | The code is written with exactly six digits. |
| Users.SendPhoneOtp | src/modules/users/user.controller.ts:135-160 | Stores the phone, the code and an expiry ten minutes after now on the caller's row. A phone over 20 characters is refused. |
| Users.VerifyPhoneOtp | src/modules/users/user.controller.ts:162-201 | 404 for an unknown user. 400 for a wrong or expired code. Otherwise 200: the phone is verified and the code and expiry are cleared. |
| Users.OtpWindow | src/modules/users/user.controller.ts:146-183 | A sent code is accepted exactly when it matches and at most ten minutes have passed. |
| Users.OtpOnce | src/modules/users/user.controller.ts:187-196 | After a successful verification, any code is refused and other users are unchanged. |
| Products.IntParamOr | src/modules/products/product.controller.ts:40-41 | `parseInt(q) \|\| fallback`: the fallback exactly when the value is absent, unparsable, 0 or the fallback itself; otherwise the parsed integer. |
| Products.IntParamOrDecimal | src/modules/products/product.controller.ts:40-41 | A positive decimal page or limit is taken as written. |
| Products.OrderingOf | src/modules/products/product.controller.ts:52-59 | Id descending unless sortBy is price; price ascending exactly for order=asc. |
| Products.SortByKeeps | src/modules/products/product.controller.ts:52-69 | The sort is a permutation and is sorted by the ordering. |
| Products.ListingRows | src/modules/products/product.controller.ts:45-69 | The listing is sorted. With no filter it is all products; with a category it holds exactly the products of that category. |
| Products.CategoryParam | src/modules/products/product.controller.ts:45-49 | The category binds exactly when it parses to an `integer`. Otherwise invalid input for `NaN` and for numbers JavaScript writes in exponent notation (10^21 on), out of range for the rest. |
| Products.Window | src/modules/products/product.controller.ts:61-69 | At most `limit` rows, starting at `offset`. |
| Products.ListProducts | src/modules/products/product.controller.ts:33-74 | An error exactly for a category that does not bind, or a negative or out-of-range limit or offset. Otherwise 200. |
| Products.ListProductsPage | src/modules/products/product.controller.ts:42-70 | The reply holds the window of the listing at offset (page - 1) * limit. |
| Products.WithCategories | src/modules/products/product.controller.ts:61-69 | Each product keeps its place. It is joined with a category of its id, and has none exactly when no category has that id. |
| Products.ImagesOf | src/modules/products/product.controller.ts:14-24 | `[]` exactly when no file path is given; otherwise `[path]`. |
| Products.IntegerColumn | src/modules/products/product.controller.ts:16-26 | Binding a request value to an `integer` parameter: `null` binds as SQL NULL, exactly; a bound number is in range and equals the value; every other failure is an invalid-input or out-of-range fault raised while binding. |
| Products.InsertProduct | src/modules/products/product.controller.ts:12-26 | The row inserted, in the store's order of checks. A binding fault refuses it before an id is drawn. After the id is drawn: a name longer than 256 first, then a null price, stock or category (not-null), then an unknown category. Inserted exactly when every check passes; an id is drawn exactly when the values bind. |
| Products.CreateProduct | src/modules/products/product.controller.ts:6-31 | 201 with the row appended, or the store's fault, with the sequence advanced exactly when an id was drawn (including a null integer field). |
| ProductSchemas.CreateProductAccepts | src/modules/products/product.schema.ts:3-11 | Accepts exactly a body with a non-empty name, an optional string description, a price coercing to at least 0, and a stock and category coercing to safe integers of at least 0 and 1. |
| ProductSchemas.FractionalPriceValidates | src/modules/products/product.schema.ts:7 | A price of 9.5 passes validation. |
| ProductSchemas.FractionalPriceRefused | src/modules/products/product.controller.ts:16-26 | The integer price column then rejects that same body. |
| ProductSchemas.NullPriceValidates | src/modules/products/product.schema.ts:7 | A `null` price passes validation, since `Number(null)` is 0. |
| ProductSchemas.NullPriceDrawsId | src/modules/products/product.controller.ts:16-26 | The insert of that body draws an id and is refused by the not-null constraint. |
| ProductSchemas.LongNameBeforeNull | src/modules/products/product.controller.ts:16-26 | With a name over 256 characters as well, the name is what is reported. |
| CartSchemas.AddToCartAccepts | src/modules/cart/cart.schema.ts:3-8 | Accepts exactly a numeric productId and a safe-integer quantity of at least 1. |
| CartSchemas.QuantityIsNotCoerced | src/modules/cart/cart.schema.ts:6 | A quantity sent as text is rejected. |
| CartSchemas.UpdateCartItemAccepts | src/modules/cart/cart.schema.ts:10-17 | Accepts exactly a valid quantity and an itemId parameter that converts to a number. |
| CartSchemas.DeleteCartItemAccepts | src/modules/cart/cart.schema.ts:19-23 | Constrains the itemId parameter only. |
| UserSchemas.RegisterUserAccepts | src/modules/users/user.schema.ts:3-15 | Accepts exactly a non-empty fullName, a non-empty valid email and a password of at least 6 characters. |
| UserSchemas.RegisterWithoutPassword | src/modules/users/user.test.ts:38-47 | A register body without a password answers 400 "Validation failed", with an issue at body.password. |
| UserSchemas.LoginUserAccepts | src/modules/users/user.schema.ts:17-25 | Accepts exactly a valid email and a non-empty password. |
| UserSchemas.SendPhoneOtpAccepts | src/modules/users/user.schema.ts:28-32 | Accepts exactly a phone of at least 10 characters. |
| UserSchemas.VerifyPhoneOtpAccepts | src/modules/users/user.schema.ts:35-39 | Accepts exactly an otp of 6 characters. |
| Zod.ObjectAccepts | src/middleware/validate.ts:6-10 | An object schema accepts exactly an object each of whose properties its schema accepts. |
| Zod.FieldIssue | src/middleware/validate.ts:13-17 | A property's issue is an issue of the whole object, at the property's path. |
| Validate.RequestValue | src/middleware/validate.ts:6-10 | The value parsed is the triple body, query, params. |
| Validate.Decide | src/middleware/validate.ts:5-20 | `next` exactly for a successful parse; 400 "Validation failed" with the issues for a ZodError; 500 otherwise. |
| Validate.ValidateRequest | src/middleware/validate.ts:3-21 | Proceeds exactly when the schema accepts the triple; otherwise 400 with a non-empty issue list. |
| Auth.BearerToken | src/middleware/auth.ts:24-25 | The token exactly when the header has a non-empty second space-separated field, and it is that field. |
| Auth.BearerTokenOf | src/middleware/auth.ts:24-25 | `Bearer <token>` yields the token. |
| Auth.Authenticate | src/middleware/auth.ts:24-40 | 401 exactly without a token, 403 exactly when verification fails, otherwise the decoded claims. |
| Auth.AuthMiddleware | src/middleware/auth.ts:27-39 | On success `req.user` is the claims, `next` is called once and nothing is sent. On 401 or 403 that status is sent, `req.user` is untouched and `next` is not called. |
| Admin.AdminGate | src/middleware/admin.ts:10-13 | Proceeds exactly for an admin user; otherwise 403 "Forbidden". |
| Admin.CustomerRefused | src/middleware/admin.ts:10-12 | A customer is refused. |
| VerifiedUser.VerifiedGate | src/middleware/verifiedUser.ts:11-23 | 401 exactly without a user, 403 exactly when neither flag is set, proceeds exactly when either is. |
| VerifiedUser.EitherFlagProceeds | src/middleware/verifiedUser.ts:16-23 | Either verified flag alone is enough. |
| Schema.NewUser | src/db/schema.ts:8-20 | A new user row takes the defaults: customer, unverified, no phone, no code. |
| Store.Db.constructor | src/db/schema.ts:8-85 | An empty database satisfies every table invariant. |
| Sockets.Hub.Broadcast | src/modules/orders/order.controller.ts:89-93 | Sends the payload to each open client, in client order. |
| Sockets.FanoutReaches | src/modules/orders/order.controller.ts:89-93 | Over many broadcasts, an open client receives every payload once, in order; a closed one receives nothing. |
| Http.IntegerParam | src/db/schema.ts:34-36 | A number binds to an `integer` column exactly when it is whole and in the 32-bit range. |
| Http.IntegerTextRoundTrip | src/db/schema.ts:34-36 | A decimal number in range reads back as itself. |
| Text.ParseIntRoundTrip | src/modules/products/product.controller.ts:40-41 | `parseInt` reads back what `toString()` wrote. |
| Text.SplitJoin | src/middleware/auth.ts:24-25 | Splitting on a character loses nothing. |

## Left out

- Concurrency and transaction isolation. Each handler runs alone and checkout is atomic; concurrent checkouts of the same product are not modelled.
- The HTTP server, routing and the global error handler. An error passed to `next` is the outcome `Next(fault)`. The route files only fix middleware order.
- The WebSocket server's connection handling. Clients are a fixed sequence of (id, open) values, and a send appends to a log.
- bcrypt, SHA-256, JWT signing and verification (including expiry) and zod's `.email()` check are function parameters. `crypto.randomBytes`, `Math.random()` and `Date.now()` are parameters.
- E-mail delivery (utils/email.ts), Cloudinary and multer storage (config/cloudinary.ts), and migrations (db/migrate.ts). They are external services and scripts. The model only records the mail handed over at registration.
- Cascading deletes of order items and cart items. No handler deletes orders or carts.
- Running out of a serial sequence's values.
- Zod.ToNumber: `Number()` of text covers plain decimals only. It leaves out white space, hexadecimal and exponent forms, and `Infinity`. Nested arrays convert one level deep.
- Text.ParseInt: integers past 2^53 are exact here but lose precision in JavaScript.
- Products.ListProducts: query parameters are single strings. Repeated parameters (arrays) are not modelled.
- Http.IntegerText: the store's reading of integer text omits surrounding white space and Postgres 16's underscores and radix prefixes.
- Zod.Issues: issue messages and details (`expected`, `received`, `minimum`) are not modelled; an issue is its path and one of four codes.
- Products.SortBy: equal prices keep table order here. Postgres leaves their order unspecified.
- Store.ItemsOf: a cart's items are read without an ORDER BY. The model takes them in table order. The same assumption fixes which product `Orders.Prepare` names in "Not enough stock", the order of checkout's broadcasts and order items, and the order of the lines `Carts.CartLines` returns. Postgres does not fix that order.
- Text: string lengths count UTF-16 code units in the source and characters here.

## Findings

| source | as written | input that shows it | evidently intended | confidence | as-written member | corrected member |
|---|---|---|---|---|---|---|
| src/modules/users/user.controller.ts:80-96 | The `bcrypt.compare` result is stored but never checked, so any password logs in to an existing account. | A registered user `ann@example.com` and a password the stored hash rejects: the reply is 200 with a token. | 401 "Invalid email or password" unless the hash accepts the password. | not executed | Users.WrongPasswordLogsIn | Users.LoginIssuesTokenIff |
