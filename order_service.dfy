/** OrderService: checkout turns the user's cart into an order in one
    all-or-nothing step; orders are listed newest first and their status can
    be set by an administrator. */
module OrderService {
  import opened Common
  import opened Entities
  import opened Sequences
  import opened Data
  import opened CartService
  import opened PaymentService

  datatype CreateOrderRequest = CreateOrderRequest(shippingAddressId: Guid, paymentProvider: string)

  datatype OrderItemDto = OrderItemDto(
    id: Guid,
    productId: Guid,
    productName: string,
    quantity: int,
    unitPrice: Cents,
    totalPrice: Cents)

  datatype PaymentDto = PaymentDto(
    id: Guid,
    provider: string,
    status: PaymentStatus,
    transactionId: Option<string>,
    amount: Cents)

  /** The shipping address is carried by its id; its other fields are not modelled. */
  datatype OrderDto = OrderDto(
    id: Guid,
    orderNumber: string,
    totalAmount: Cents,
    status: OrderStatus,
    createdAt: Time,
    shippingAddressId: Option<Guid>,
    items: seq<OrderItemDto>,
    payment: Option<PaymentDto>)

  /** A checkout either commits, giving the new tables and the order placed,
      or rolls back with the error it threw. */
  datatype CheckoutOutcome =
    | Committed(after: Tables, order: Order)
    | RolledBack(error: Error)

  // ---------------------------------------------------------------------
  // The stock check
  // ---------------------------------------------------------------------

  /** A cart line asks for more units than its product has in stock. */
  predicate LineShort(products: map<Guid, Product>, line: CartItem)
  {
    line.productId in products && products[line.productId].stockQuantity < line.quantity
  }

  /** The line the stock check stops at: the first one that is short. */
  function FirstShortLine(products: map<Guid, Product>, items: seq<CartItem>): (r: Option<nat>)
    ensures r.None? <==> forall k :: 0 <= k < |items| ==> !LineShort(products, items[k])
    ensures r.Some? ==> r.value < |items| && LineShort(products, items[r.value])
    ensures r.Some? ==> forall k :: 0 <= k < r.value ==> !LineShort(products, items[k])
  {
    FirstIndex(items, (line: CartItem) => LineShort(products, line))
  }

  /** The validation loop of CreateOrderAsync: the first line whose quantity
      exceeds its product's stock, or None when every line is covered. */
  method ValidateStock(products: map<Guid, Product>, items: seq<CartItem>) returns (short: Option<nat>)
    ensures short.None? <==> forall k :: 0 <= k < |items| ==> !LineShort(products, items[k])
    ensures short.Some? ==> short.value < |items| && LineShort(products, items[short.value])
    ensures short.Some? ==> forall k :: 0 <= k < short.value ==> !LineShort(products, items[k])
  {
    for i := 0 to |items|
      invariant forall k :: 0 <= k < i ==> !LineShort(products, items[k])
    {
      if LineShort(products, items[i]) {
        return Some(i);
      }
    }
    return None;
  }

  // ---------------------------------------------------------------------
  // Stock
  // ---------------------------------------------------------------------

  /** `cartItem.Product.StockQuantity -= cartItem.Quantity` */
  function Decrement(products: map<Guid, Product>, line: CartItem): map<Guid, Product>
    requires line.productId in products
  {
    var p := products[line.productId];
    products[line.productId := p.(stockQuantity := p.stockQuantity - line.quantity)]
  }

  /** The products once every line's quantity is taken off its product's
      stock, in line order. */
  function StockAfter(products: map<Guid, Product>, items: seq<CartItem>): (r: map<Guid, Product>)
    requires LinesReferenceProducts(items, products)
    ensures r.Keys == products.Keys
    ensures forall p :: p in r ==>
      r[p] == products[p].(stockQuantity := products[p].stockQuantity - QuantityOf(items, p))
  {
    if items == [] then products
    else
      var init, line := items[..|items| - 1], items[|items| - 1];
      var rest := StockAfter(products, init);
      var r := Decrement(rest, line);
      forall p | p in r
        ensures r[p] == products[p].(stockQuantity := products[p].stockQuantity - QuantityOf(items, p))
      {
        assert QuantityOf(items, p) == QuantityOf(init, p) + UnitsOf(p)(line);
        var before := products[p].stockQuantity;
        assert rest[p] == products[p].(stockQuantity := before - QuantityOf(init, p));
        if p == line.productId {
          assert r[p] == rest[p].(stockQuantity := before - QuantityOf(init, p) - line.quantity);
        } else {
          assert r[p] == rest[p] && UnitsOf(p)(line) == 0;
        }
      }
      r
  }

  /** The merge rule makes the per-line check enough: with one line per
      product and no line short, every ordered product's stock falls by
      exactly its line's quantity and stays non-negative, and the products
      not in the cart keep their stock. */
  lemma StockCheckSuffices(products: map<Guid, Product>, items: seq<CartItem>)
    requires LinesReferenceProducts(items, products) && OneLinePerProduct(items)
    requires FirstShortLine(products, items).None?
    ensures forall k :: 0 <= k < |items| ==>
      var p := items[k].productId;
      && StockAfter(products, items)[p].stockQuantity == products[p].stockQuantity - items[k].quantity
      && StockAfter(products, items)[p].stockQuantity >= 0
    ensures forall p :: p in products && (forall k :: 0 <= k < |items| ==> items[k].productId != p) ==>
      StockAfter(products, items)[p] == products[p]
  {
    var after := StockAfter(products, items);
    forall k | 0 <= k < |items|
      ensures after[items[k].productId].stockQuantity
           == products[items[k].productId].stockQuantity - items[k].quantity
      ensures after[items[k].productId].stockQuantity >= 0
    {
      QuantityOfSingleLine(items, items[k].productId);
      assert !LineShort(products, items[k]);
    }
    forall p | p in products && (forall k :: 0 <= k < |items| ==> items[k].productId != p)
      ensures after[p] == products[p]
    {
      QuantityOfSingleLine(items, p);
    }
  }

  /** Without the merge rule the per-line check lets stock go negative: two
      lines of three units each pass against a stock of five. */
  lemma PerLineCheckNeedsOneLinePerProduct()
    ensures
      var products := map[1 := Product(1, "P", "P-1", "", 100, 5, 1, true, 0, None)];
      var line := CartItem(1, 1, 1, 3, 100, 0);
      var items := [line, line.(id := 2)];
      && !OneLinePerProduct(items)
      && FirstShortLine(products, items).None?
      && StockAfter(products, items)[1].stockQuantity == -1
  {
    var line := CartItem(1, 1, 1, 3, 100, 0);
    var items := [line, line.(id := 2)];
    assert items[..1] == [line] && [line][..0] == [];
    assert UnitsOf(1)(line) == 3 && UnitsOf(1)(line.(id := 2)) == 3;
    assert Sum([line][..0], UnitsOf(1)) == 0;
    assert QuantityOf([line], 1) == 3;
    assert QuantityOf(items, 1) == 6;
  }

  // ---------------------------------------------------------------------
  // Order lines and totals
  // ---------------------------------------------------------------------

  /** The order item snapshotting one cart line. */
  function OrderLine(orderId: Guid, line: CartItem, id: Guid, now: Time): OrderItem
  {
    OrderItem(id, orderId, line.productId, line.quantity, line.unitPrice, now)
  }

  /** The order items of a checkout, one per cart line in cart order; line k
      takes the (k+1)-th fresh id, the order the 0-th. */
  function OrderLines(orderId: Guid, items: seq<CartItem>, newId: nat -> Guid, now: Time): (r: seq<OrderItem>)
    ensures |r| == |items|
    ensures forall k :: 0 <= k < |items| ==>
      && r[k].orderId == orderId
      && r[k].productId == items[k].productId
      && r[k].quantity == items[k].quantity
      && r[k].unitPrice == items[k].unitPrice
      && r[k].id == newId(k + 1)
  {
    seq(|items|, k requires 0 <= k < |items| => OrderLine(orderId, items[k], newId(k + 1), now))
  }

  function OrderLineTotal(item: OrderItem): Cents
  {
    LineTotal(item.quantity, item.unitPrice)
  }

  function OrderTotal(items: seq<OrderItem>): Cents
  {
    Sum(items, OrderLineTotal)
  }

  /** The order lines total what the cart lines total. */
  lemma {:induction false} OrderLinesTotal(orderId: Guid, items: seq<CartItem>, newId: nat -> Guid, now: Time)
    ensures OrderTotal(OrderLines(orderId, items, newId, now)) == CartTotal(items)
  {
    if items != [] {
      var n := |items|;
      assert OrderLines(orderId, items, newId, now)[..n - 1] == OrderLines(orderId, items[..n - 1], newId, now);
      OrderLinesTotal(orderId, items[..n - 1], newId, now);
    }
  }

  // ---------------------------------------------------------------------
  // Checkout
  // ---------------------------------------------------------------------

  function CartEmpty(): Error { InvalidOperation("Cart is empty") }

  function InsufficientStock(product: Product): Error
  {
    InvalidOperation("Insufficient stock for product: " + product.name)
  }

  /** The save of the new order refused by the Restrict key from
      Orders.ShippingAddressId to Addresses (a DbUpdateException). */
  function AddressMissing(): Error
  {
    ConstraintViolation(ShippingAddressKey)
  }

  /** The Addresses table holds a row with this id. */
  predicate AddressStored(t: Tables, request: CreateOrderRequest)
  {
    request.shippingAddressId in t.addresses
  }

  /** The status an order takes from its payment. */
  function StatusAfterPayment(payment: Payment): OrderStatus
  {
    if payment.status == PaymentStatus.Completed then OrderStatus.PaymentReceived else OrderStatus.Pending
  }

  /** The tables once a validated cart is placed as an order and paid. */
  function Placed(t: Tables, ci: nat, order: Order, payment: Payment): Tables
    requires ci < |t.carts| && LinesReferenceProducts(t.carts[ci].items, t.products)
  {
    Tables(StockAfter(t.products, t.carts[ci].items),
           t.carts[ci := t.carts[ci].(items := [])],
           t.orders + [order],
           t.payments + [payment],
           t.addresses)
  }

  /** CreateOrderAsync as one transition of the tables. Fresh ids come from
      newId: the order takes newId(0), its k-th line newId(k + 1) and the
      payment newId(|lines| + 1). */
  function Checkout(t: Tables, userId: Guid, request: CreateOrderRequest, newId: nat -> Guid,
                    orderNumber: string, guidText: string, now: Time): (r: CheckoutOutcome)
    requires Consistent(t) && IsGuidText(guidText)
  {
    match FindCart(t.carts, userId)
    case None => RolledBack(CartEmpty())
    case Some(ci) =>
      var cart := t.carts[ci];
      assert cart in t.carts;
      if cart.items == [] then RolledBack(CartEmpty())
      else match FirstShortLine(t.products, cart.items)
        case Some(k) => RolledBack(InsufficientStock(t.products[cart.items[k].productId]))
        case None =>
          if !AddressStored(t, request) then RolledBack(AddressMissing())
          else
          var orderId := newId(0);
          var total := CartTotal(cart.items);
          match PaymentFor(orderId, total, request.paymentProvider, newId(|cart.items| + 1), guidText, now)
          case Err(e) => RolledBack(e)
          case Ok(payment) =>
            var order := Order(orderId, orderNumber, userId, total, StatusAfterPayment(payment),
                               Some(request.shippingAddressId), now, None,
                               OrderLines(orderId, cart.items, newId, now));
            Committed(Placed(t, ci, order, payment), order)
  }

  /** A checkout commits exactly when the user has a non-empty cart, no line
      is short of stock, the shipping address is stored and the provider is
      supported; every other checkout rolls back with the first of these
      errors that applies (for stock, the first short line's product). */
  lemma CheckoutCommitsIff(t: Tables, userId: Guid, request: CreateOrderRequest, newId: nat -> Guid,
                           orderNumber: string, guidText: string, now: Time)
    requires Consistent(t) && IsGuidText(guidText)
    ensures
      var r := Checkout(t, userId, request, newId, orderNumber, guidText, now);
      var found := FindCart(t.carts, userId);
      if found.None? || t.carts[found.value].items == [] then
        r == RolledBack(CartEmpty())
      else
        var items := t.carts[found.value].items;
        if exists k :: 0 <= k < |items| && LineShort(t.products, items[k]) then
          r == RolledBack(InsufficientStock(t.products[items[FirstShortLine(t.products, items).value].productId]))
        else if !AddressStored(t, request) then
          r == RolledBack(AddressMissing())
        else if !IsSupportedProvider(request.paymentProvider) then
          r == RolledBack(UnsupportedProvider(request.paymentProvider))
        else
          r.Committed?
  {
  }

  /** A committed checkout places an order for the user whose lines are the
      cart's lines and whose total is their sum; the payment is for that
      order and that amount, and the order is PaymentReceived exactly when
      the payment completed. */
  lemma CheckoutPlacesOrder(t: Tables, userId: Guid, request: CreateOrderRequest, newId: nat -> Guid,
                            orderNumber: string, guidText: string, now: Time)
    requires Consistent(t) && IsGuidText(guidText)
    requires Checkout(t, userId, request, newId, orderNumber, guidText, now).Committed?
    ensures
      var r := Checkout(t, userId, request, newId, orderNumber, guidText, now);
      var items := t.carts[FindCart(t.carts, userId).value].items;
      var order := r.order;
      var payment := r.after.payments[|t.payments|];
      && r.after.orders == t.orders + [order]
      && r.after.payments == t.payments + [payment]
      && order.userId == userId
      && |order.items| == |items|
      && (forall k :: 0 <= k < |items| ==>
            && order.items[k].productId == items[k].productId
            && order.items[k].quantity == items[k].quantity
            && order.items[k].unitPrice == items[k].unitPrice)
      && order.totalAmount == CartTotal(items)
      && order.totalAmount == OrderTotal(order.items)
      && payment.orderId == order.id && payment.amount == order.totalAmount
      && (order.status == OrderStatus.PaymentReceived <==> payment.status == PaymentStatus.Completed)
      && (order.status == OrderStatus.PaymentReceived || order.status == OrderStatus.Pending)
  {
    var ci := FindCart(t.carts, userId).value;
    OrderLinesTotal(newId(0), t.carts[ci].items, newId, now);
  }

  /** What a committed checkout found valid: the user's cart, non-empty,
      with no line short of stock, a stored shipping address and a
      supported provider. */
  lemma CommittedCart(t: Tables, userId: Guid, request: CreateOrderRequest, newId: nat -> Guid,
                      orderNumber: string, guidText: string, now: Time)
    requires Consistent(t) && IsGuidText(guidText)
    requires Checkout(t, userId, request, newId, orderNumber, guidText, now).Committed?
    ensures FindCart(t.carts, userId).Some?
    ensures
      var items := t.carts[FindCart(t.carts, userId).value].items;
      && items != []
      && OneLinePerProduct(items) && LinesReferenceProducts(items, t.products)
      && FirstShortLine(t.products, items).None?
      && AddressStored(t, request)
      && IsSupportedProvider(request.paymentProvider)
  {
    var ci := FindCart(t.carts, userId).value;
    assert t.carts[ci] in t.carts;
  }

  /** The tables a committed checkout leaves, named part by part. */
  lemma CommittedParts(t: Tables, userId: Guid, request: CreateOrderRequest, newId: nat -> Guid,
                       orderNumber: string, guidText: string, now: Time)
    requires Consistent(t) && IsGuidText(guidText)
    requires Checkout(t, userId, request, newId, orderNumber, guidText, now).Committed?
    ensures FindCart(t.carts, userId).Some?
    ensures
      var ci := FindCart(t.carts, userId).value;
      LinesReferenceProducts(t.carts[ci].items, t.products)
    ensures
      var r := Checkout(t, userId, request, newId, orderNumber, guidText, now);
      var ci := FindCart(t.carts, userId).value;
      var items := t.carts[ci].items;
      var payment := PaymentFor(newId(0), CartTotal(items), request.paymentProvider,
                                newId(|items| + 1), guidText, now);
      && payment.Ok?
      && r.order == Order(newId(0), orderNumber, userId, CartTotal(items), StatusAfterPayment(payment.value),
                          Some(request.shippingAddressId), now, None, OrderLines(newId(0), items, newId, now))
      && r.after.products == StockAfter(t.products, items)
      && r.after.carts == t.carts[ci := t.carts[ci].(items := [])]
      && r.after.orders == t.orders + [r.order]
      && r.after.payments == t.payments + [payment.value]
  {
    CommittedCart(t, userId, request, newId, orderNumber, guidText, now);
  }

  /** A committed checkout takes each ordered product's quantity off its
      stock, leaving it non-negative, and leaves every other product alone. */
  lemma CheckoutTakesStock(t: Tables, userId: Guid, request: CreateOrderRequest,
                           newId: nat -> Guid, orderNumber: string, guidText: string, now: Time)
    requires Consistent(t) && IsGuidText(guidText)
    requires Checkout(t, userId, request, newId, orderNumber, guidText, now).Committed?
    ensures FindCart(t.carts, userId).Some?
    ensures
      var after := Checkout(t, userId, request, newId, orderNumber, guidText, now).after.products;
      var items := t.carts[FindCart(t.carts, userId).value].items;
      && after.Keys == t.products.Keys
      && (forall k :: 0 <= k < |items| ==>
            var p := items[k].productId;
            && after[p] == t.products[p].(stockQuantity := t.products[p].stockQuantity - items[k].quantity)
            && after[p].stockQuantity >= 0)
      && (forall p :: p in t.products && (forall k :: 0 <= k < |items| ==> items[k].productId != p) ==>
            after[p] == t.products[p])
  {
    CommittedCart(t, userId, request, newId, orderNumber, guidText, now);
    CommittedParts(t, userId, request, newId, orderNumber, guidText, now);
    var items := t.carts[FindCart(t.carts, userId).value].items;
    StockCheckSuffices(t.products, items);
  }

  /** A committed checkout empties the user's cart, keeping the cart itself,
      and leaves every other cart alone. */
  lemma CheckoutEmptiesCart(t: Tables, userId: Guid, request: CreateOrderRequest,
                            newId: nat -> Guid, orderNumber: string, guidText: string, now: Time)
    requires Consistent(t) && IsGuidText(guidText)
    requires Checkout(t, userId, request, newId, orderNumber, guidText, now).Committed?
    ensures FindCart(t.carts, userId).Some?
    ensures
      var after := Checkout(t, userId, request, newId, orderNumber, guidText, now).after.carts;
      var ci := FindCart(t.carts, userId).value;
      && |after| == |t.carts|
      && after[ci] == t.carts[ci].(items := [])
      && (forall j :: 0 <= j < |t.carts| && j != ci ==> after[j] == t.carts[j])
  {
    CommittedParts(t, userId, request, newId, orderNumber, guidText, now);
  }

  /** A committed checkout keeps the tables consistent. */
  lemma CheckoutKeepsConsistency(t: Tables, userId: Guid, request: CreateOrderRequest, newId: nat -> Guid,
                                 orderNumber: string, guidText: string, now: Time)
    requires Consistent(t) && IsGuidText(guidText)
    requires Checkout(t, userId, request, newId, orderNumber, guidText, now).Committed?
    ensures Consistent(Checkout(t, userId, request, newId, orderNumber, guidText, now).after)
  {
    CommittedCart(t, userId, request, newId, orderNumber, guidText, now);
    CommittedParts(t, userId, request, newId, orderNumber, guidText, now);
    var r := Checkout(t, userId, request, newId, orderNumber, guidText, now);
    var ci := FindCart(t.carts, userId).value;
    var payment := r.after.payments[|t.payments|];
    assert r.after == Placed(t, ci, r.order, payment);
    PlacedKeepsConsistency(t, ci, r.order, payment);
  }

  /** Placing an order whose items refer to stored products keeps the tables
      consistent: the stock changes but no product's key or SKU does, and the
      emptied cart has no lines left to check. */
  lemma PlacedKeepsConsistency(t: Tables, ci: nat, order: Order, payment: Payment)
    requires Consistent(t) && ci < |t.carts| && LinesReferenceProducts(t.carts[ci].items, t.products)
    requires forall i :: 0 <= i < |order.items| ==> order.items[i].productId in t.products
    requires order.shippingAddressId.Some? ==> order.shippingAddressId.value in t.addresses
    ensures Consistent(Placed(t, ci, order, payment))
  {
    var after := Placed(t, ci, order, payment);
    assert after.products.Keys == t.products.Keys;
    forall c | c in after.carts
      ensures OneLinePerProduct(c.items) && LinesReferenceProducts(c.items, after.products)
    {
      var j :| 0 <= j < |after.carts| && after.carts[j] == c;
      if j != ci {
        assert t.carts[j] in t.carts;
      }
    }
    forall o, i | o in after.orders && 0 <= i < |o.items|
      ensures o.items[i].productId in after.products
    {
      if o != order {
        assert o in t.orders;
      }
    }
    forall o | o in after.orders && o.shippingAddressId.Some?
      ensures o.shippingAddressId.value in after.addresses
    {
      if o != order {
        assert o in t.orders;
      }
    }
  }

  /** One more line takes its quantity off the stock the lines before it
      left. */
  lemma StockAfterStep(products: map<Guid, Product>, items: seq<CartItem>, i: nat)
    requires i < |items| && LinesReferenceProducts(items, products)
    ensures LinesReferenceProducts(items[..i + 1], products)
    ensures items[i].productId in StockAfter(products, items[..i])
    ensures StockAfter(products, items[..i + 1]) == Decrement(StockAfter(products, items[..i]), items[i])
  {
    assert items[..i + 1][..i] == items[..i];
  }

  /** One more line adds its order item after those of the lines before
      it. */
  lemma OrderLinesStep(orderId: Guid, items: seq<CartItem>, newId: nat -> Guid, now: Time, i: nat)
    requires i < |items|
    ensures OrderLines(orderId, items[..i + 1], newId, now)
         == OrderLines(orderId, items[..i], newId, now) + [OrderLine(orderId, items[i], newId(i + 1), now)]
  {
    assert items[..i + 1][..i] == items[..i];
  }

  /** The loop of CreateOrderAsync that builds the order items and takes each
      line's quantity off its product's stock. */
  method PlaceLines(db: Database, orderId: Guid, items: seq<CartItem>, newId: nat -> Guid, now: Time)
    returns (orderItems: seq<OrderItem>)
    requires LinesReferenceProducts(items, db.products)
    modifies db
    ensures orderItems == OrderLines(orderId, items, newId, now)
    ensures db.products == StockAfter(old(db.products), items)
    ensures unchanged(db`carts, db`orders, db`payments, db`users, db`addresses)
  {
    ghost var stock := db.products;
    orderItems := [];
    var i := 0;
    while i < |items|
      invariant 0 <= i <= |items|
      invariant orderItems == OrderLines(orderId, items[..i], newId, now)
      invariant LinesReferenceProducts(items[..i], stock)
      invariant db.products == StockAfter(stock, items[..i])
      invariant unchanged(db`carts, db`orders, db`payments, db`users, db`addresses)
    {
      var line := items[i];
      StockAfterStep(stock, items, i);
      OrderLinesStep(orderId, items, newId, now, i);
      orderItems := orderItems + [OrderLine(orderId, line, newId(i + 1), now)];
      db.products := Decrement(db.products, line);
      i := i + 1;
    }
    assert items[..i] == items;
  }

  /** The first half of CreateOrderAsync after validation, before the save:
      builds the pending order and its lines, takes the stock and empties the
      cart. */
  method StageOrder(db: Database, ci: nat, userId: Guid, request: CreateOrderRequest, newId: nat -> Guid,
                    orderNumber: string, now: Time) returns (order: Order)
    requires ci < |db.carts| && LinesReferenceProducts(db.carts[ci].items, db.products)
    modifies db
    ensures
      var items := old(db.carts[ci].items);
      order == Order(newId(0), orderNumber, userId, CartTotal(items), OrderStatus.Pending,
                     Some(request.shippingAddressId), now, None, OrderLines(newId(0), items, newId, now))
    ensures db.products == StockAfter(old(db.products), old(db.carts[ci].items))
    ensures db.carts == old(db.carts[ci := db.carts[ci].(items := [])])
    ensures db.orders == old(db.orders) + [order]
    ensures unchanged(db`payments, db`users, db`addresses)
  {
    var cart := db.carts[ci];
    var items := cart.items;
    var orderId := newId(0);
    var orderItems := PlaceLines(db, orderId, items, newId, now);
    order := Order(orderId, orderNumber, userId, CartTotal(items), OrderStatus.Pending,
                   Some(request.shippingAddressId), now, None, orderItems);
    db.orders := db.orders + [order];
    db.carts := db.carts[ci := cart.(items := [])];
  }

  /** The part of CreateOrderAsync after validation: stages the order, saves,
      takes the payment and marks the order paid when it completed. A save
      refused for an unknown shipping address, or a payment error, rolls
      every table back. */
  method PlaceOrder(db: Database, ci: nat, userId: Guid, request: CreateOrderRequest, newId: nat -> Guid,
                    orderNumber: string, guidText: string, now: Time) returns (r: Result<Order>)
    requires ci < |db.carts| && LinesReferenceProducts(db.carts[ci].items, db.products)
    requires IsGuidText(guidText)
    modifies db
    ensures unchanged(db`users, db`addresses)
    ensures
      var items := old(db.carts[ci].items);
      var total := CartTotal(items);
      if !AddressStored(old(db.Store()), request) then
        r == Err(AddressMissing()) && db.Store() == old(db.Store())
      else match PaymentFor(newId(0), total, request.paymentProvider, newId(|items| + 1), guidText, now)
      case Err(e) => r == Err(e) && db.Store() == old(db.Store())
      case Ok(payment) =>
        var order := Order(newId(0), orderNumber, userId, total, StatusAfterPayment(payment),
                           Some(request.shippingAddressId), now, None, OrderLines(newId(0), items, newId, now));
        r == Ok(order) && db.Store() == Placed(old(db.Store()), ci, order, payment)
  {
    var saved := db.Store();
    var items := db.carts[ci].items;
    var order := StageOrder(db, ci, userId, request, newId, orderNumber, now);

    // SaveChangesAsync: the key from the order to its shipping address must hold.
    if !AddressStored(db.Store(), request) {
      db.products, db.carts, db.orders := saved.products, saved.carts, saved.orders;
      return Err(AddressMissing());
    }

    var payment := ProcessPayment(db, order.id, order.totalAmount, request.paymentProvider,
                                  newId(|items| + 1), guidText, now);
    if payment.Err? {
      db.products, db.carts, db.orders, db.payments := saved.products, saved.carts, saved.orders, saved.payments;
      return Err(payment.error);
    }
    if payment.value.status == PaymentStatus.Completed {
      order := order.(status := OrderStatus.PaymentReceived);
      db.orders := db.orders[|db.orders| - 1 := order];
    }
    r := Ok(order);
  }

  /** CreateOrderAsync: an empty or missing cart and a line short of stock
      are refused before anything changes; otherwise the cart is placed as an
      order. The result is the order as GetOrderByIdAsync shows it. */
  method CreateOrder(db: Database, userId: Guid, request: CreateOrderRequest, newId: nat -> Guid,
                     orderNumber: string, guidText: string, now: Time) returns (r: Result<OrderDto>)
    requires db.Valid() && IsGuidText(guidText)
    modifies db
    ensures db.Valid()
    ensures unchanged(db`users, db`addresses)
    ensures match Checkout(old(db.Store()), userId, request, newId, orderNumber, guidText, now)
      case Committed(after, order) =>
        db.Store() == after && r == Ok(MapToDto(order, after.products, after.payments))
      case RolledBack(e) =>
        db.Store() == old(db.Store()) && r == Err(e)
  {
    var found := FindCart(db.carts, userId);
    if found.None? || db.carts[found.value].items == [] {
      return Err(CartEmpty());
    }
    var ci := found.value;
    assert db.carts[ci] in db.carts;
    var items := db.carts[ci].items;

    var short := ValidateStock(db.products, items);
    assert short == FirstShortLine(db.products, items);
    if short.Some? {
      return Err(InsufficientStock(db.products[items[short.value].productId]));
    }

    ghost var saved := db.Store();
    var placed := PlaceOrder(db, ci, userId, request, newId, orderNumber, guidText, now);
    if placed.Err? {
      return Err(placed.error);
    }
    CheckoutKeepsConsistency(saved, userId, request, newId, orderNumber, guidText, now);
    r := Ok(MapToDto(placed.value, db.products, db.payments));
  }

  // ---------------------------------------------------------------------
  // Status updates
  // ---------------------------------------------------------------------

  /** Orders.FirstOrDefault(o => o.Id == orderId), as a position. */
  function FindOrder(orders: seq<Order>, orderId: Guid): (r: Option<nat>)
    ensures r.None? <==> forall k :: 0 <= k < |orders| ==> orders[k].id != orderId
    ensures r.Some? ==> r.value < |orders| && orders[r.value].id == orderId
  {
    FirstIndex(orders, (o: Order) => o.id == orderId)
  }

  /** UpdateOrderStatusAsync: any status may follow any other; only the
      status and the update time of the order change. */
  method UpdateOrderStatus(db: Database, orderId: Guid, status: OrderStatus, now: Time) returns (r: Result<OrderDto>)
    requires db.Valid()
    modifies db
    ensures db.Valid()
    ensures unchanged(db`products, db`carts, db`payments, db`users, db`addresses)
    ensures match FindOrder(old(db.orders), orderId)
      case None =>
        r == Err(NotFound("Order", orderId)) && db.orders == old(db.orders)
      case Some(k) =>
        var order := old(db.orders)[k].(status := status, updatedAt := Some(now));
        db.orders == old(db.orders)[k := order] && r == Ok(MapToDto(order, db.products, db.payments))
  {
    var found := FindOrder(db.orders, orderId);
    if found.None? {
      return Err(NotFound("Order", orderId));
    }
    var k := found.value;
    var order := db.orders[k];
    assert order in db.orders;
    order := order.(status := status);
    order := order.(updatedAt := Some(now));
    db.orders := db.orders[k := order];
    assert forall o :: o in db.orders ==> o == order || o in old(db.orders);
    r := Ok(MapToDto(order, db.products, db.payments));
  }

  // ---------------------------------------------------------------------
  // Queries
  // ---------------------------------------------------------------------

  /** The payment of an order (Order.Payment), if any. */
  function PaymentOf(payments: seq<Payment>, orderId: Guid): (r: Option<Payment>)
    ensures r.None? <==> forall k :: 0 <= k < |payments| ==> payments[k].orderId != orderId
    ensures r.Some? ==> r.value in payments && r.value.orderId == orderId
  {
    match FirstIndex(payments, (p: Payment) => p.orderId == orderId)
    case None => None
    case Some(k) => Some(payments[k])
  }

  function ItemDto(item: OrderItem, products: map<Guid, Product>): OrderItemDto
  {
    var name := if item.productId in products then products[item.productId].name else "";
    OrderItemDto(item.id, item.productId, name, item.quantity, item.unitPrice, item.quantity * item.unitPrice)
  }

  function DtoLineTotal(dto: OrderItemDto): Cents { dto.totalPrice }

  /** MapToDto: the order's fields, one DTO line per order line with its line
      total, and the order's payment. */
  function MapToDto(order: Order, products: map<Guid, Product>, payments: seq<Payment>): (r: OrderDto)
    ensures r.id == order.id && r.totalAmount == order.totalAmount && r.status == order.status
    ensures r.orderNumber == order.orderNumber && r.shippingAddressId == order.shippingAddressId
    ensures r.createdAt == order.createdAt
    ensures |r.items| == |order.items|
    ensures forall k :: 0 <= k < |order.items| ==>
      && r.items[k].id == order.items[k].id
      && r.items[k].productId == order.items[k].productId
      && r.items[k].quantity == order.items[k].quantity
      && r.items[k].unitPrice == order.items[k].unitPrice
      && r.items[k].totalPrice == LineTotal(order.items[k].quantity, order.items[k].unitPrice)
    ensures Sum(r.items, DtoLineTotal) == OrderTotal(order.items)
    ensures r.payment.Some? <==> exists k :: 0 <= k < |payments| && payments[k].orderId == order.id
    ensures r.payment.Some? ==>
      var p := PaymentOf(payments, order.id).value;
      && r.payment.value.id == p.id && r.payment.value.provider == p.provider
      && r.payment.value.status == p.status && r.payment.value.transactionId == p.transactionId
      && r.payment.value.amount == p.amount
  {
    var items := seq(|order.items|, k requires 0 <= k < |order.items| => ItemDto(order.items[k], products));
    DtoTotalIsOrderTotal(order.items, items, products);
    var payment := match PaymentOf(payments, order.id)
      case None => None
      case Some(p) => Some(PaymentDto(p.id, p.provider, p.status, p.transactionId, p.amount));
    OrderDto(order.id, order.orderNumber, order.totalAmount, order.status, order.createdAt,
             order.shippingAddressId, items, payment)
  }

  lemma {:induction false} DtoTotalIsOrderTotal(lines: seq<OrderItem>, dtos: seq<OrderItemDto>,
                                                products: map<Guid, Product>)
    requires |dtos| == |lines|
    requires forall k :: 0 <= k < |lines| ==> dtos[k] == ItemDto(lines[k], products)
    ensures Sum(dtos, DtoLineTotal) == OrderTotal(lines)
  {
    if lines != [] {
      var n := |lines|;
      DtoTotalIsOrderTotal(lines[..n - 1], dtos[..n - 1], products);
    }
  }

  /** The order displayed after a committed checkout: its line totals add up
      to its total, which is the cart's total. */
  lemma CheckoutDtoTotals(t: Tables, userId: Guid, request: CreateOrderRequest, newId: nat -> Guid,
                          orderNumber: string, guidText: string, now: Time)
    requires Consistent(t) && IsGuidText(guidText)
    requires Checkout(t, userId, request, newId, orderNumber, guidText, now).Committed?
    ensures
      var r := Checkout(t, userId, request, newId, orderNumber, guidText, now);
      var dto := MapToDto(r.order, r.after.products, r.after.payments);
      && Sum(dto.items, DtoLineTotal) == dto.totalAmount
      && dto.totalAmount == CartTotal(t.carts[FindCart(t.carts, userId).value].items)
      && dto.payment.Some?
  {
    CheckoutPlacesOrder(t, userId, request, newId, orderNumber, guidText, now);
    var r := Checkout(t, userId, request, newId, orderNumber, guidText, now);
    assert r.after.payments[|t.payments|].orderId == r.order.id;
  }

  /** OrderByDescending(o => o.CreatedAt) */
  predicate NewestFirst(a: Order, b: Order)
  {
    a.createdAt >= b.createdAt
  }

  lemma NewestFirstIsTotalPreorder()
    ensures TotalPreorder(NewestFirst)
  {
  }

  /** The orders newest first, all of them once each. */
  function OrdersNewestFirst(orders: seq<Order>): (r: seq<Order>)
    ensures |r| == |orders| && multiset(r) == multiset(orders)
    ensures forall i, j :: 0 <= i < j < |r| ==> r[i].createdAt >= r[j].createdAt
  {
    NewestFirstIsTotalPreorder();
    Sort(orders, NewestFirst)
  }

  /** o => o.UserId == userId */
  function PlacedBy(userId: Guid): Order -> bool
  {
    (o: Order) => o.userId == userId
  }

  /** A user's orders newest first: each of the user's orders once, and no
      other user's. */
  function UserOrdersNewestFirst(orders: seq<Order>, userId: Guid): (r: seq<Order>)
    ensures |r| == |Where(orders, PlacedBy(userId))|
    ensures forall o :: multiset(r)[o] == if o.userId == userId then multiset(orders)[o] else 0
    ensures forall k :: 0 <= k < |r| ==> r[k] in orders && r[k].userId == userId
    ensures forall i, j :: 0 <= i < j < |r| ==> r[i].createdAt >= r[j].createdAt
  {
    var placed := Where(orders, PlacedBy(userId));
    var r := OrdersNewestFirst(placed);
    forall o ensures multiset(r)[o] == if o.userId == userId then multiset(orders)[o] else 0 {
      assert PlacedBy(userId)(o) == (o.userId == userId);
    }
    forall k | 0 <= k < |r|
      ensures r[k] in orders && r[k].userId == userId
    {
      var o := r[k];
      assert o in multiset(r);
      assert o in multiset(placed);
      assert o in placed;
    }
    r
  }

  function MapAll(orders: seq<Order>, products: map<Guid, Product>, payments: seq<Payment>): (r: seq<OrderDto>)
    ensures |r| == |orders|
    ensures forall k :: 0 <= k < |orders| ==> r[k] == MapToDto(orders[k], products, payments)
  {
    seq(|orders|, k requires 0 <= k < |orders| => MapToDto(orders[k], products, payments))
  }

  /** GetUserOrdersAsync: one DTO per order of the user, newest first. */
  function GetUserOrders(orders: seq<Order>, products: map<Guid, Product>, payments: seq<Payment>,
                         userId: Guid): (r: seq<OrderDto>)
    ensures |r| == |Where(orders, PlacedBy(userId))|
    ensures forall k :: 0 <= k < |r| ==>
      exists o :: o in orders && o.userId == userId && r[k] == MapToDto(o, products, payments)
    ensures forall i, j :: 0 <= i < j < |r| ==> r[i].createdAt >= r[j].createdAt
    ensures r == MapAll(UserOrdersNewestFirst(orders, userId), products, payments)
  {
    var sorted := UserOrdersNewestFirst(orders, userId);
    var r := MapAll(sorted, products, payments);
    forall k | 0 <= k < |r|
      ensures exists o :: o in orders && o.userId == userId && r[k] == MapToDto(o, products, payments)
    {
      var o := sorted[k];
      assert o in orders && o.userId == userId && r[k] == MapToDto(o, products, payments);
    }
    r
  }

  /** GetAllOrdersAsync: one DTO per order, newest first. */
  function GetAllOrders(orders: seq<Order>, products: map<Guid, Product>, payments: seq<Payment>): (r: seq<OrderDto>)
    ensures |r| == |orders|
    ensures forall k :: 0 <= k < |r| ==> exists o :: o in orders && r[k] == MapToDto(o, products, payments)
    ensures forall i, j :: 0 <= i < j < |r| ==> r[i].createdAt >= r[j].createdAt
    ensures r == MapAll(OrdersNewestFirst(orders), products, payments)
  {
    var sorted := OrdersNewestFirst(orders);
    var r := MapAll(sorted, products, payments);
    forall k | 0 <= k < |r| ensures exists o :: o in orders && r[k] == MapToDto(o, products, payments) {
      var o := sorted[k];
      assert o in multiset(sorted);
      assert o in orders && r[k] == MapToDto(o, products, payments);
    }
    r
  }

  /** GetOrderByIdAsync: the order with that id, only if it belongs to the user. */
  function GetOrderById(orders: seq<Order>, products: map<Guid, Product>, payments: seq<Payment>,
                        userId: Guid, orderId: Guid): (r: Option<OrderDto>)
    ensures r.None? <==> forall k :: 0 <= k < |orders| ==> !(orders[k].id == orderId && orders[k].userId == userId)
    ensures r.Some? ==> exists o :: o in orders && o.id == orderId && o.userId == userId
                                 && r.value == MapToDto(o, products, payments)
  {
    match FirstIndex(orders, (o: Order) => o.id == orderId && o.userId == userId)
    case None => None
    case Some(k) =>
      assert orders[k] in orders;
      Some(MapToDto(orders[k], products, payments))
  }
}
