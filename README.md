# ShopStream services in Dafny

This project models the business logic of the ShopStream e-commerce backend's
five services. It covers carts, checkout and orders, the product catalogue,
payments, and registration, login and password reset. They work on one shared
store: products with stock, one cart per user, orders with their items,
payments and users.

- `common.dfy` (`Common`): ids, times, money in integer cents, `Option`/`Result`/`Outcome`, the
  errors the services throw (`KeyNotFoundException`, `InvalidOperationException`,
  `UnauthorizedAccessException`, `NotSupportedException`, `NotImplementedException`, and a
  database constraint violation naming the refused constraint), and the string helpers the services use.
- `sequences.dfy` (`Sequences`): LINQ's `Where`, `FirstOrDefault` (as a position), `Sum`, and
  `OrderBy` (insertion sort against a total preorder).
- `entities.dfy` (`Entities`): products, carts and their lines, orders and order items, payments,
  users, and the `OrderStatus`, `PaymentStatus` and `UserRole` enumerations.
- `data.dfy` (`Data`): the `Database` class, one field per table. `Valid()` holds the facts the
  schema and the services keep:
  - products are stored under their own ids and their SKUs are unique;
  - no user has two carts;
  - no cart has two lines for one product;
  - cart lines and order items refer to stored products;
  - every order's shipping address is a stored address (the Addresses table is kept as its set of ids);
  - emails are unique.
- `cart_service.dfy` (`CartService`): lazy cart creation, add (merge by product), update, remove and
  clear as module methods that take the `Database`, each proved against a pure function on the line list (`AddLine`,
  `SetLineQuantity`, `RemoveLine`), and the cart's DTO and total.
- `payment_service.dfy` (`PaymentService`): provider dispatch (`PaymentFor`) and the method that
  records the payment; the webhook handler.
- `order_service.dfy` (`OrderService`): checkout as one all-or-nothing transition. `Checkout` is the
  specification. `CreateOrder` → `PlaceOrder` → `StageOrder` → `PlaceLines` is the imperative procedure
  with its stock-decrementing loop; the save refuses a shipping address the Addresses table does not
  hold. There are lemmas about the stock, the cart, the order lines and totals
  and the payment. This file also holds status updates and the order queries and DTO.
- `product_service.dfy` (`ProductService`): the catalogue query as a filter, sort and page pipeline
  of functions on sequences; create, update and delete as module methods that take the `Database`.
- `auth_service.dfy` (`AuthService`): register, login, password-reset request and reset. Hashing,
  password verification, JWT creation, fresh ids, reset tokens and the clock are parameters.

Each asynchronous service call that changes the store is a method of its service's module that
takes the `Database` as a parameter; `Login`, which only reads, is such a method too. The other
reading calls are functions of the tables they read: the catalogue query, the order queries and
`GetProductById`. `HandleWebhook`, which only throws, is a function as well. Every value the source takes from the outside world is a parameter: `Guid.NewGuid()`, `DateTime.UtcNow`, the BCrypt
hash and verify, the JWT and the random reset token.

Checkout (`OrderService.CreateOrderAsync`) runs inside a database transaction that is rolled back on
any exception. It is modelled as a method whose result is either the committed tables of `Checkout`
or the unchanged old tables with the error.

## Model

| member | source | states |
|---|---|---|
| Sequences.Where | backend/ShopStream.Services/OrderService.cs:136 | the filtered sequence holds exactly the elements that pass, each as often as in the input |
| Sequences.FirstIndex | backend/ShopStream.Services/CartService.cs:84 | `FirstOrDefault` as a position: none iff no element matches, otherwise the first one that does |
| Sequences.Sort | backend/ShopStream.Services/OrderService.cs:137 | `OrderBy` yields a permutation of its input that is sorted by the given total preorder |
| Sequences.Insert | backend/ShopStream.Services/OrderService.cs:137 | inserting into a sorted sequence keeps it sorted and adds exactly one element |
| Sequences.SumAppend | backend/ShopStream.Services/CartService.cs:168 | a sum over a sequence with one more element grows by that element's value |
| Sequences.SumUpdate | backend/ShopStream.Services/CartService.cs:55-56 | replacing one element changes the sum by the difference of the two values |
| Sequences.SumRemove | backend/ShopStream.Services/CartService.cs:93 | removing one element lowers the sum by its value |
| Sequences.SortKeepsElements | backend/ShopStream.Services/OrderService.cs:137-138 | sorting neither adds nor drops any element |
| Data.FindCart | backend/ShopStream.Services/CartService.cs:135-139 | the user's cart position, if any, and it is the only cart of that user when carts are one per user (unique index at ApplicationDbContext.cs:82) |
| Data.Database.constructor | backend/ShopStream.Data/ApplicationDbContext.cs:30-45 | an empty store satisfies every schema invariant |
| CartService.QuantityOfSingleLine | backend/ShopStream.Services/CartService.cs:51-57 | with one line per product, the units of a product in the cart are that one line's quantity, or zero without a line |
| CartService.FindLineByProduct | backend/ShopStream.Services/CartService.cs:51 | the line holding a product, present iff some line has that product |
| CartService.FindLineById | backend/ShopStream.Services/CartService.cs:84 | the first line with the given cart-item id, present iff one has it |
| CartService.WithCart | backend/ShopStream.Services/CartService.cs:133-154 | the carts are returned unchanged when the user has a cart, and otherwise with one new empty cart of the user appended; afterwards the user has a cart and one cart per user is preserved |
| CartService.WithCartIdempotent | backend/ShopStream.Services/CartService.cs:133-154 | a second lazy creation finds the first cart and creates nothing |
| CartService.AddLine | backend/ShopStream.Services/CartService.cs:50-71 | when the product has a line, that line keeps its id, cart, product and creation time, grows by the quantity and takes the current price, and the length is kept; otherwise exactly the new line (new id, the cart, the product, the quantity, the current price, now) is appended; lines of other products are untouched; one line per product is preserved |
| CartService.AddLineQuantities | backend/ShopStream.Services/CartService.cs:51-71 | adding raises the added product's units by exactly the requested quantity and leaves every other product's units unchanged |
| CartService.AddLineTotal | backend/ShopStream.Services/CartService.cs:55-71 | adding raises the cart total by quantity × current price, plus the repricing of the units already on a merged line |
| CartService.SetLineQuantity | backend/ShopStream.Services/CartService.cs:103 | only the chosen line's quantity changes |
| CartService.RemoveLine | backend/ShopStream.Services/CartService.cs:93 | exactly the chosen line is removed, the others keep their order |
| CartService.SetLineQuantityQuantities | backend/ShopStream.Services/CartService.cs:103 | the chosen line's product now has exactly the new quantity; other products keep theirs |
| CartService.RemoveLineQuantities | backend/ShopStream.Services/CartService.cs:93 | the removed line's product drops to zero units; other products keep theirs |
| CartService.MapToDto | backend/ShopStream.Services/CartService.cs:156-171 | one DTO line per cart line with its id, product, quantity, unit price and quantity × unit price; the total is the cart total |
| CartService.DtoTotalIsCartTotal | backend/ShopStream.Services/CartService.cs:158-168 | the sum of the DTO line totals equals the sum of quantity × unit price over the cart lines |
| CartService.GetOrCreateCart | backend/ShopStream.Services/CartService.cs:133-154 | the carts become `WithCart` of the old carts and the result is the user's cart; nothing else changes |
| CartService.GetCart | backend/ShopStream.Services/CartService.cs:29-33 | the user's (possibly new) cart as its DTO |
| CartService.AddToCart | backend/ShopStream.Services/CartService.cs:35-79 | unknown product → not found; stock below the requested quantity → "Insufficient stock"; otherwise the cart's lines become `AddLine` of the old ones with the current price and the cart's `UpdatedAt` is set; only carts change |
| CartService.UpdateCartItem | backend/ShopStream.Services/CartService.cs:81-110 | unknown item id → not found; quantity ≤ 0 removes the line; a positive quantity over the product's stock → "Insufficient stock"; otherwise exactly that line's quantity is set |
| CartService.RemoveFromCart | backend/ShopStream.Services/CartService.cs:112-123 | an absent id changes no line; a present id removes exactly that line |
| CartService.ClearCart | backend/ShopStream.Services/CartService.cs:125-131 | the user's cart is left with no lines, every other cart unchanged |
| PaymentService.MockTransactionId | backend/ShopStream.Services/PaymentService.cs:40 | a Mock transaction id starts with "MOCK-" and has 17 characters |
| PaymentService.StripeIntentId | backend/ShopStream.Services/PaymentService.cs:45 | a Stripe intent id starts with "pi_" and has no dash after it |
| PaymentService.PaymentFor | backend/ShopStream.Services/PaymentService.cs:24-57 | a payment exists iff the provider is Mock, Stripe or PayPal in any letter case, else NotSupported; it carries the payment id, order id, amount and provider given and is created now; it is Completed iff Mock, else Pending; Mock has a "MOCK-" transaction id, Stripe a "pi_" intent id, PayPal neither |
| PaymentService.ProviderCaseInsensitive | backend/ShopStream.Services/PaymentService.cs:37-52 | two provider names equal up to case are accepted alike and give the same status |
| PaymentService.ProcessPayment | backend/ShopStream.Services/PaymentService.cs:24-62 | returns `PaymentFor`; the payment is appended to the Payments table exactly when it exists; no other table changes and the store invariants are kept |
| PaymentService.HandleWebhook | backend/ShopStream.Services/PaymentService.cs:64-71 | always fails with not-implemented |
| OrderService.FirstShortLine | backend/ShopStream.Services/OrderService.cs:52-58 | none iff every line's quantity is within its product's stock, otherwise the first short line |
| OrderService.ValidateStock | backend/ShopStream.Services/OrderService.cs:52-58 | the loop over the cart lines reports the first line whose quantity exceeds stock, or none iff no line does |
| OrderService.StockAfter | backend/ShopStream.Services/OrderService.cs:73-87 | after the decrements each product's stock has dropped by the total quantity of that product over the lines, and nothing else about any product changed |
| OrderService.StockCheckSuffices | backend/ShopStream.Services/OrderService.cs:52-58 | with one line per product (merge at CartService.cs:51) and no short line, every ordered product's stock drops by exactly its line's quantity and stays ≥ 0; products not ordered keep their stock |
| OrderService.PerLineCheckNeedsOneLinePerProduct | backend/ShopStream.Services/OrderService.cs:54 | with two lines of the same product, the per-line check passes and the stock ends at -1 |
| OrderService.OrderLines | backend/ShopStream.Services/OrderService.cs:73-83 | one order item per cart line, in order, with the same product, quantity and unit price, belonging to the new order |
| OrderService.OrderLinesTotal | backend/ShopStream.Services/OrderService.cs:67 | the order items' total equals the cart total they were made from |
| OrderService.CheckoutCommitsIff | backend/ShopStream.Services/OrderService.cs:41-115 | checkout commits iff the user has a non-empty cart, no line is short, the shipping address is stored and the provider is supported; otherwise it rolls back with "Cart is empty", the insufficient-stock error naming the first short line's product, the shipping-address key violation raised by the save, or the payment error, in that order |
| OrderService.CommittedCart | backend/ShopStream.Services/OrderService.cs:41-97 | a committed checkout had a non-empty cart with one line per product referring to stored products, no short line, a stored shipping address and a supported provider |
| OrderService.CheckoutPlacesOrder | backend/ShopStream.Services/OrderService.cs:61-105 | a committed checkout appends exactly one order and one payment; the order is the user's, its items match the cart lines one to one, its total is the cart total and the items' total; the payment is for that order and amount; the order is PaymentReceived iff the payment is Completed and Pending otherwise |
| OrderService.CommittedParts | backend/ShopStream.Services/OrderService.cs:41-105 | the tables a committed checkout leaves are the stock after the decrements, the emptied cart, the new order (the cart lines, their total, the request's address, the status from the payment) and the new payment |
| OrderService.CheckoutTakesStock | backend/ShopStream.Services/OrderService.cs:52-86 | on success each ordered product's stock falls by exactly its ordered quantity and stays ≥ 0; the set of products and all other products are unchanged |
| OrderService.CheckoutEmptiesCart | backend/ShopStream.Services/OrderService.cs:92 | on success the user's cart keeps its identity and loses all its lines; every other cart is unchanged |
| OrderService.CheckoutKeepsConsistency | backend/ShopStream.Services/OrderService.cs:34-115 | a committed checkout leaves the store satisfying every schema invariant |
| OrderService.PlacedKeepsConsistency | backend/ShopStream.Services/OrderService.cs:73-92 | taking the stock, emptying one cart and appending an order whose items refer to stored products and whose shipping address is stored, and a payment, keeps every schema invariant |
| OrderService.PlaceLines | backend/ShopStream.Services/OrderService.cs:73-87 | the loop builds exactly `OrderLines` and leaves the products at `StockAfter` the cart lines; no other table changes |
| OrderService.StageOrder | backend/ShopStream.Services/OrderService.cs:60-92 | the pending order for the cart (its lines, their total, the request's address) is appended, the stock falls to `StockAfter` the lines and the cart is emptied; payments, users and addresses do not change |
| OrderService.PlaceOrder | backend/ShopStream.Services/OrderService.cs:61-114 | with a stored shipping address and a supported provider the store becomes the placed tables and the order is returned with its status set from the payment; an unknown address (the save at line 94 fails) or an unsupported provider restores the store and returns that error |
| OrderService.CreateOrder | backend/ShopStream.Services/OrderService.cs:34-115 | the store after the call is the committed tables of `Checkout` and the result is the new order's DTO, or the store is unchanged and the result is `Checkout`'s error; the invariants hold afterwards |
| OrderService.FindOrder | backend/ShopStream.Services/OrderService.cs:158-163 | the position of the order with the given id, none iff there is no such order |
| OrderService.UpdateOrderStatus | backend/ShopStream.Services/OrderService.cs:156-176 | an unknown id fails with not-found and changes nothing; otherwise that order gets the requested status, whatever it was before, and its `UpdatedAt`, and nothing else changes |
| OrderService.PaymentOf | backend/ShopStream.Services/OrderService.cs:208 | the order's payment, present iff some payment belongs to the order |
| OrderService.MapToDto | backend/ShopStream.Services/OrderService.cs:183-216 | the DTO carries the order's id, order number, total, status, creation time and shipping address id, one line per item with quantity × unit price, line totals summing to the order total, and a payment iff the order has one, whose id, provider, status, transaction id and amount are the order's payment's |
| OrderService.DtoTotalIsOrderTotal | backend/ShopStream.Services/OrderService.cs:200-207 | the DTO line totals sum to the order items' total |
| OrderService.CheckoutDtoTotals | backend/ShopStream.Services/OrderService.cs:67-207 | the DTO that checkout returns has a total and line totals that add up to the cart total |
| OrderService.OrdersNewestFirst | backend/ShopStream.Services/OrderService.cs:150 | a permutation of the orders, newest `CreatedAt` first |
| OrderService.UserOrdersNewestFirst | backend/ShopStream.Services/OrderService.cs:136-137 | exactly the user's orders, each as often as stored, newest first |
| OrderService.MapAll | backend/ShopStream.Services/OrderService.cs:140 | one DTO per order, in order |
| OrderService.GetUserOrders | backend/ShopStream.Services/OrderService.cs:129-141 | the DTOs of exactly the user's orders (`MapAll` of `UserOrdersNewestFirst`), one per order of the user, each the DTO of a stored order of that user, newest first |
| OrderService.GetAllOrders | backend/ShopStream.Services/OrderService.cs:143-154 | the DTOs of all orders (`MapAll` of `OrdersNewestFirst`), one per stored order, each the DTO of a stored order, newest first |
| OrderService.GetOrderById | backend/ShopStream.Services/OrderService.cs:117-127 | present iff an order has that id and belongs to that user, and then it is such an order's DTO |
| ProductService.WhereIf | backend/ShopStream.Services/ProductService.cs:41-62 | an inactive filter keeps every row; an active one keeps exactly the rows that pass it |
| ProductService.Filtered | backend/ShopStream.Services/ProductService.cs:41-62 | a row survives iff it passes every active filter (non-blank search in name or description, category, minimum and maximum price), as often as stored |
| ProductService.FilteredMembers | backend/ShopStream.Services/ProductService.cs:41-62 | a product is in the filtered list iff it is stored and passes every active filter |
| ProductService.LexLeTotal | backend/ShopStream.Services/ProductService.cs:74-75 | any two names are comparable |
| ProductService.LexLeTransitive | backend/ShopStream.Services/ProductService.cs:74-75 | the name order is transitive |
| ProductService.ProductOrderIsTotalPreorder | backend/ShopStream.Services/ProductService.cs:64-76 | each sort key and direction orders products by a total preorder |
| ProductService.Ordered | backend/ShopStream.Services/ProductService.cs:64-76 | the filtered rows, permuted and sorted by price, creation time or name (chosen by the key ignoring case), descending when asked |
| ProductService.Clamp | backend/ShopStream.Services/ProductService.cs:81-83 | the count n clamped to the range 0 … the sequence length, `Min(Max(n, 0), hi)`: 0 when n ≤ 0, the length when n is at or past it, n otherwise |
| ProductService.Skip | backend/ShopStream.Services/ProductService.cs:82 | `Skip(n)` drops the first n rows, none when n ≤ 0 and all when n is past the end |
| ProductService.Take | backend/ShopStream.Services/ProductService.cs:83 | `Take(n)` keeps the first n rows, none when n ≤ 0 and all when n is at or past the end |
| ProductService.PageOf | backend/ShopStream.Services/ProductService.cs:81-83 | the page is the slice starting at (page − 1) × pageSize with at most pageSize rows |
| ProductService.SliceSorted | backend/ShopStream.Services/ProductService.cs:81-83 | a slice of a sorted sequence is sorted and drawn from it |
| ProductService.PageCount | backend/ShopStream.Services/ProductService.cs:79 | the ceiling of count / pageSize: the least page count whose pages cover the count, and none for a zero page size |
| ProductService.PageRows | backend/ShopStream.Services/ProductService.cs:64-83 | the page is exactly `PageOf` the filtered, sorted rows: at most pageSize rows, each a stored product passing the filters, in the requested order |
| ProductService.PageRowsFromOrdered | backend/ShopStream.Services/ProductService.cs:64-83 | a page of the sorted filtered rows passes the filters and is sorted |
| ProductService.GetProducts | backend/ShopStream.Services/ProductService.cs:34-99 | the total count is the number of filtered rows before paging, page and size are echoed, total pages is the ceiling, and the items are the DTOs of the page rows, which are exactly the slice of the filtered, sorted rows starting at (page − 1) × pageSize |
| ProductService.PageStartsBeforeEndIff | backend/ShopStream.Services/ProductService.cs:79-82 | a page starts inside the rows iff its number is at most the page count |
| ProductService.PageNonEmptyIff | backend/ShopStream.Services/ProductService.cs:78-83 | a page has items iff its number is at most the total pages and some product passes the filters |
| ProductService.GetProductById | backend/ShopStream.Services/ProductService.cs:101-122 | present iff the id is stored, and then it is that product's DTO |
| ProductService.NewProduct | backend/ShopStream.Services/ProductService.cs:126-137 | a new product is active, has no update time and carries exactly the requested name, SKU, description, price, stock and category |
| ProductService.CreateProduct | backend/ShopStream.Services/ProductService.cs:124-144 | a taken SKU fails (unique index at ApplicationDbContext.cs:43) and changes nothing; otherwise exactly the new product is added under its id |
| ProductService.Updated | backend/ShopStream.Services/ProductService.cs:154-160 | the update overwrites name, description, price, stock, category and active flag and sets the update time; id, SKU and creation time are kept |
| ProductService.UpdateIdempotent | backend/ShopStream.Services/ProductService.cs:154-160 | applying the same update twice is applying it once |
| ProductService.UpdateProduct | backend/ShopStream.Services/ProductService.cs:146-167 | an unknown id fails with not-found and changes nothing; otherwise only that product is replaced by `Updated` |
| ProductService.DeleteProduct | backend/ShopStream.Services/ProductService.cs:169-179 | an unknown id fails with not-found; a product still in a cart or an order is refused (restrict keys at ApplicationDbContext.cs:104,140); otherwise exactly that product is removed |
| AuthService.FindUserByEmail | backend/ShopStream.Services/AuthService.cs:77-78 | the first user with the email, none iff no user has it |
| AuthService.FindUserByToken | backend/ShopStream.Services/AuthService.cs:114-118 | the first user whose token equals the given one and whose expiry is strictly after now, none iff there is no such user |
| AuthService.Response | backend/ShopStream.Services/AuthService.cs:64-72 | the login response carries the JWT, email, names and role name of the user |
| AuthService.NewUser | backend/ShopStream.Services/AuthService.cs:48-58 | a registered user is a Customer with a confirmed email, the hashed password, the requested names and no reset token |
| AuthService.Register | backend/ShopStream.Services/AuthService.cs:38-73 | a taken email fails and changes nothing; otherwise exactly one new user is appended and its login response returned |
| AuthService.Authenticate | backend/ShopStream.Services/AuthService.cs:75-94 | login succeeds iff a user has the email and the verifier returns true for the stored hash (a throwing verifier counts as false); otherwise it fails with "Invalid email or password" |
| AuthService.Login | backend/ShopStream.Services/AuthService.cs:75-94 | returns `Authenticate` on the stored users and changes nothing; the response's email is the one given |
| AuthService.RegisterThenLogin | backend/ShopStream.Services/AuthService.cs:38-94 | after registering, logging in with the same email and password succeeds |
| AuthService.WithResetToken | backend/ShopStream.Services/AuthService.cs:103-104 | the user gets the token and an expiry 24 hours from now and nothing else changes |
| AuthService.RequestPasswordReset | backend/ShopStream.Services/AuthService.cs:96-110 | an unknown email changes nothing; otherwise only that user gets the token with a 24-hour expiry |
| AuthService.AfterReset | backend/ShopStream.Services/AuthService.cs:125-128 | the user with the new hash stored, the token and expiry cleared and the update time set, and every other field as before |
| AuthService.ResetPassword | backend/ShopStream.Services/AuthService.cs:112-132 | no user holding the token unexpired → "Invalid or expired reset token" and nothing changes; otherwise only that user is reset |
| AuthService.IssuedTokenWorksUntilExpiry | backend/ShopStream.Services/AuthService.cs:101-118 | provided no earlier user holds the same token, a freshly issued token finds its user at every time before the 24-hour expiry, and no longer finds that user from then on |
| AuthService.ResetConsumesToken | backend/ShopStream.Services/AuthService.cs:114-127 | after a reset the same token never again finds the reset user; provided no other user holds the same token, it finds no user at any later time |
| AuthService.ResetThenLogin | backend/ShopStream.Services/AuthService.cs:75-128 | after a reset, logging in with the new password succeeds |

## Left out

- Persistence, `async`, `SaveChangesAsync` and the unit of work: a call that changes the store is one module method that takes the `Database` and runs to completion without interleaving; a reading call is a function of the tables it reads. Concurrent calls, and the commit and rollback of the database transaction as such, are not modelled; checkout is all-or-nothing by construction.
- `Guid.NewGuid()`, `DateTime.UtcNow`, BCrypt hashing and verification, JWT signing (including its "JWT Key not configured" exception) and the random reset token are parameters. Only `CreateProduct` requires its new id to be unused; the other generated ids (carts, cart lines, orders, order items, payments, users) are taken as given, with no primary-key check. The reset token's Base64 format is not modelled.
- Order-number formatting (OrderService.cs:178-181) is a parameter of checkout. The unique index on `OrderNumber` is not modelled, so a clash between two generated numbers is not an error here.
- AuthService.Register: the column maximum lengths (`Email` 256, `FirstName` and `LastName` 100 characters; ApplicationDbContext.cs:34-36) are not modelled. `RegisterRequest` has no validation, so in the program a longer email or name makes the save fail; the model registers the user.
- ProductService.CreateProduct: likewise the `Name` (200) and `SKU` (50) maximum lengths (ApplicationDbContext.cs:44-45) are not modelled, for `ProductService.UpdateProduct` too; a longer name or SKU makes the program's save fail, while the model stores it. The `OrderNumber` (50) and `Provider` (50) limits are not modelled either.
- `Product.cs` is not part of this model. The product's fields come from its DTOs and from what the service assigns. Category and image navigation is left out, and so is the category foreign key.
- DTO fields that come from navigation properties are left out: `ProductDto`'s category name and images, the cart line's product name and image URL, and the order's shipping address (only its id is kept). The order line's product name is modelled (`OrderService.ItemDto`); for a product that is not stored it is `""`, a case the Restrict key from order items to products rules out in a consistent store.
- The lazily created cart is saved before `AddToCart` or `UpdateCartItem` can fail (CartService.cs:150). The model follows the code: after a failing add or update, the new empty cart stays.
- AddToCart: the stock guard compares only the requested quantity with stock, not the merged line's total, exactly as the code does (CartService.cs:45); the model does not strengthen it.
- Quantities, stock and `(page − 1) × pageSize` are unbounded integers. 32-bit overflow of `int` is not modelled.
- Money is exact integer cents, and request amounts (`Price`, `MinPrice`, `MaxPrice`) arrive as whole cents. A request decimal with more than two fractional digits is not modelled: neither its rounding to the (18,2) precision of the columns when stored nor its exact comparison in the price filters.
- ProductService.PageCount: `Math.Ceiling` over `double` is modelled as exact integer ceiling division. A zero page size, where the double division gives infinity or NaN, is `None`.
- ProductService.Skip: PostgreSQL rejects a negative OFFSET or LIMIT. The model follows LINQ's `Skip`/`Take`, which treat them as zero.
- ProductService.Ordered: the model compares strings ordinally. Case-insensitive `ToLower` covers ASCII letters only. PostgreSQL's collation for the name sort and the search, and the database's order among equal keys, are not modelled, and no order among equal keys is stated.
- ProductService.SearchFilter: `Contains` is an ordinal substring match, and "blank" means empty or ASCII white space only.
- AuthService.FindUserByEmail: emails compare exactly, as the code's `==` does; database collation is not modelled.
- PaymentService.MockTransactionId: the GUID text is a 36-character parameter and upper-casing covers ASCII only.
- PaymentService.PaymentFor: the provider names are matched ignoring case for ASCII letters only; `OrdinalIgnoreCase` (PaymentService.cs:37-48) also folds non-ASCII letters.
- `Payment.UpdatedAt` and `User.EmailConfirmationToken` are not fields of the model: no modelled operation reads or writes them.
- The keys from `Carts.UserId` and `Orders.UserId` to Users are not modelled: the user id a service receives comes from the caller's token and is taken to be a stored user's.
- The order of cart lines and order items as read back: the program loads a cart's lines with `Include(c => c.Items)` and no `OrderBy` (CartService.cs:135-139; OrderService.cs:41-44, 119-126, 131-137), so the database decides their order. The model keeps a cart's lines in insertion order, builds the order's items in that order, and lists DTO lines in it. So `OrderService.FirstShortLine` names the first short line in insertion order, where the program reports whichever short line the query returns first, and the order of the lines in `CartService.MapToDto`, `OrderService.OrderLines` and `OrderService.MapToDto` may differ from the program's. Sets, totals and per-product quantities do not depend on this order.
- `CreateOrderRequest.PaymentProvider` defaults to "Mock" when a request omits it (OrderDtos.cs:23-26); that default is applied when the request is bound, before the service runs, so the model's `CreateOrderRequest` always carries a provider.
- Addresses are kept only as the set of their ids; their fields, their owner and the address book operations are not part of this model.
- CategoryService, the controllers, seed data and the frontend are not part of this model.
