/** CartService: one lazily created cart per user, whose lines are merged
    by product, edited in place, and totalled for display. */
module CartService {
  import opened Common
  import opened Entities
  import opened Sequences
  import opened Data

  datatype AddToCartRequest = AddToCartRequest(productId: Guid, quantity: int)

  datatype CartItemDto = CartItemDto(
    id: Guid,
    productId: Guid,
    quantity: int,
    unitPrice: Cents,
    totalPrice: Cents)

  datatype CartDto = CartDto(id: Guid, items: seq<CartItemDto>, totalAmount: Cents)

  // ---------------------------------------------------------------------
  // Totals and quantities
  // ---------------------------------------------------------------------

  function CartLineTotal(line: CartItem): Cents
  {
    LineTotal(line.quantity, line.unitPrice)
  }

  /** Sum of quantity times unit price over the lines. */
  function CartTotal(items: seq<CartItem>): Cents
  {
    Sum(items, CartLineTotal)
  }

  /** The units of one product a line holds. */
  function UnitsOf(productId: Guid): CartItem -> int
  {
    (line: CartItem) => if line.productId == productId then line.quantity else 0
  }

  /** The units of a product the lines hold in all: the cart seen as a bag
      of products. */
  function QuantityOf(items: seq<CartItem>, productId: Guid): int
  {
    Sum(items, UnitsOf(productId))
  }

  /** With one line per product, a product's quantity is that of its line,
      and zero when it has none. */
  lemma {:induction false} QuantityOfSingleLine(items: seq<CartItem>, productId: Guid)
    requires OneLinePerProduct(items)
    ensures forall k :: 0 <= k < |items| && items[k].productId == productId ==>
      QuantityOf(items, productId) == items[k].quantity
    ensures (forall k :: 0 <= k < |items| ==> items[k].productId != productId) ==>
      QuantityOf(items, productId) == 0
  {
    if items != [] {
      var n := |items|;
      var init := items[..n - 1];
      assert OneLinePerProduct(init);
      QuantityOfSingleLine(init, productId);
      if items[n - 1].productId == productId {
        assert forall k :: 0 <= k < n - 1 ==> init[k].productId != productId;
      }
    }
  }

  // ---------------------------------------------------------------------
  // Lookups
  // ---------------------------------------------------------------------

  /** cart.Items.FirstOrDefault(i => i.ProductId == productId) */
  function FindLineByProduct(items: seq<CartItem>, productId: Guid): (r: Option<nat>)
    ensures r.None? <==> forall k :: 0 <= k < |items| ==> items[k].productId != productId
    ensures r.Some? ==> r.value < |items| && items[r.value].productId == productId
  {
    FirstIndex(items, (line: CartItem) => line.productId == productId)
  }

  /** cart.Items.FirstOrDefault(i => i.Id == cartItemId) */
  function FindLineById(items: seq<CartItem>, cartItemId: Guid): (r: Option<nat>)
    ensures r.None? <==> forall k :: 0 <= k < |items| ==> items[k].id != cartItemId
    ensures r.Some? ==> r.value < |items| && items[r.value].id == cartItemId
    ensures r.Some? ==> forall k :: 0 <= k < r.value ==> items[k].id != cartItemId
  {
    FirstIndex(items, (line: CartItem) => line.id == cartItemId)
  }

  // ---------------------------------------------------------------------
  // The cart table after GetOrCreateCartAsync
  // ---------------------------------------------------------------------

  /** The carts once the user is sure to have one: unchanged when the user
      has a cart, otherwise with a new empty cart for the user at the end. */
  function WithCart(carts: seq<Cart>, userId: Guid, newCartId: Guid, now: Time): (r: seq<Cart>)
    ensures FindCart(r, userId).Some?
    ensures |carts| <= |r| <= |carts| + 1 && r[..|carts|] == carts
    ensures OneCartPerUser(carts) ==> OneCartPerUser(r)
    ensures FindCart(carts, userId).None? ==> r[|carts|].items == []
    ensures FindCart(carts, userId).Some? ==> r == carts
    ensures FindCart(carts, userId).None? ==> r == carts + [Cart(newCartId, userId, [], now, None)]
  {
    if FindCart(carts, userId).Some? then carts
    else
      var r := carts + [Cart(newCartId, userId, [], now, None)];
      assert r[|carts|].userId == userId;
      r
  }

  /** A second GetOrCreateCartAsync finds the cart the first one returned,
      and creates nothing. */
  lemma WithCartIdempotent(carts: seq<Cart>, userId: Guid, id1: Guid, t1: Time, id2: Guid, t2: Time)
    ensures WithCart(WithCart(carts, userId, id1, t1), userId, id2, t2) == WithCart(carts, userId, id1, t1)
  {
  }

  // ---------------------------------------------------------------------
  // Line edits
  // ---------------------------------------------------------------------

  /** Adding `quantity` units of a product at its current price: the line
      holding that product, if any, grows by `quantity` and takes the current
      price; otherwise one new line is appended. */
  function AddLine(items: seq<CartItem>, productId: Guid, quantity: int, price: Cents,
                   newItemId: Guid, cartId: Guid, now: Time): (r: seq<CartItem>)
    ensures |r| == if FindLineByProduct(items, productId).Some? then |items| else |items| + 1
    ensures forall k :: 0 <= k < |items| && items[k].productId != productId ==> r[k] == items[k]
    ensures exists k :: 0 <= k < |r| && r[k].productId == productId && r[k].unitPrice == price
    ensures OneLinePerProduct(items) ==> OneLinePerProduct(r)
    ensures FindLineByProduct(items, productId).Some? ==>
      var k := FindLineByProduct(items, productId).value;
      && r[k].id == items[k].id && r[k].cartId == items[k].cartId
      && r[k].productId == productId && r[k].createdAt == items[k].createdAt
      && r[k].quantity == items[k].quantity + quantity && r[k].unitPrice == price
    ensures FindLineByProduct(items, productId).None? ==>
      r == items + [CartItem(newItemId, cartId, productId, quantity, price, now)]
  {
    match FindLineByProduct(items, productId)
    case Some(k) =>
      var r := items[k := items[k].(quantity := items[k].quantity + quantity, unitPrice := price)];
      assert r[k].productId == productId;
      r
    case None =>
      var r := items + [CartItem(newItemId, cartId, productId, quantity, price, now)];
      assert r[|items|].productId == productId;
      r
  }

  /** Adding changes the quantity of the added product by exactly `quantity`
      and no other product's quantity. */
  lemma AddLineQuantities(items: seq<CartItem>, productId: Guid, quantity: int, price: Cents,
                          newItemId: Guid, cartId: Guid, now: Time, other: Guid)
    ensures QuantityOf(AddLine(items, productId, quantity, price, newItemId, cartId, now), other)
         == QuantityOf(items, other) + (if other == productId then quantity else 0)
  {
    var line := CartItem(newItemId, cartId, productId, quantity, price, now);
    match FindLineByProduct(items, productId)
    case Some(k) =>
      SumUpdate(items, k, items[k].(quantity := items[k].quantity + quantity, unitPrice := price), UnitsOf(other));
    case None =>
      SumAppend(items, line, UnitsOf(other));
  }

  /** Adding raises the total by quantity times the current price, plus the
      repricing of the units already on the merged line. */
  lemma AddLineTotal(items: seq<CartItem>, productId: Guid, quantity: int, price: Cents,
                     newItemId: Guid, cartId: Guid, now: Time)
    ensures CartTotal(AddLine(items, productId, quantity, price, newItemId, cartId, now))
         == CartTotal(items) + quantity * price
            + match FindLineByProduct(items, productId)
              case Some(k) => items[k].quantity * (price - items[k].unitPrice)
              case None => 0
  {
    var line := CartItem(newItemId, cartId, productId, quantity, price, now);
    match FindLineByProduct(items, productId)
    case Some(k) =>
      var merged := items[k].(quantity := items[k].quantity + quantity, unitPrice := price);
      assert AddLine(items, productId, quantity, price, newItemId, cartId, now) == items[k := merged];
      SumUpdate(items, k, merged, CartLineTotal);
      RepricedLineTotal(items[k].quantity, quantity, items[k].unitPrice, price);
    case None =>
      assert AddLine(items, productId, quantity, price, newItemId, cartId, now) == items + [line];
      SumAppend(items, line, CartLineTotal);
  }

  /** A line of `held` units at `oldPrice` that gains `added` units and is
      repriced at `price` grows by the added units at the new price plus the
      repricing of the held ones. */
  lemma RepricedLineTotal(held: int, added: int, oldPrice: Cents, price: Cents)
    ensures LineTotal(held + added, price) - LineTotal(held, oldPrice)
         == added * price + held * (price - oldPrice)
  {
    assert (held + added) * price == held * price + added * price;
    assert held * (price - oldPrice) == held * price - held * oldPrice;
  }

  /** UpdateCartItemAsync with a positive quantity: the line's quantity
      becomes exactly `quantity`. */
  function SetLineQuantity(items: seq<CartItem>, k: nat, quantity: int): (r: seq<CartItem>)
    requires k < |items|
    ensures |r| == |items| && r[k].quantity == quantity
    ensures r[k] == items[k].(quantity := quantity)
    ensures forall j :: 0 <= j < |items| && j != k ==> r[j] == items[j]
    ensures OneLinePerProduct(items) ==> OneLinePerProduct(r)
  {
    items[k := items[k].(quantity := quantity)]
  }

  /** cart.Items.Remove(item): the line at k goes, the others keep their order. */
  function RemoveLine(items: seq<CartItem>, k: nat): (r: seq<CartItem>)
    requires k < |items|
    ensures |r| == |items| - 1
    ensures forall j :: 0 <= j < k ==> r[j] == items[j]
    ensures forall j :: k <= j < |r| ==> r[j] == items[j + 1]
    ensures OneLinePerProduct(items) ==> OneLinePerProduct(r)
  {
    items[..k] + items[k + 1..]
  }

  /** Removing a line keeps every remaining line's product stored. */
  lemma RemoveLineKeepsReferences(items: seq<CartItem>, k: nat, products: map<Guid, Product>)
    requires k < |items| && LinesReferenceProducts(items, products)
    ensures LinesReferenceProducts(RemoveLine(items, k), products)
  {
    var r := RemoveLine(items, k);
    forall j | 0 <= j < |r| ensures r[j].productId in products {
      if j < k {
        assert r[j] == items[j];
      } else {
        assert r[j] == items[j + 1];
      }
    }
  }

  /** Setting a line's quantity sets its product's quantity and leaves every
      other product's alone. */
  lemma SetLineQuantityQuantities(items: seq<CartItem>, k: nat, quantity: int, other: Guid)
    requires k < |items| && OneLinePerProduct(items)
    ensures QuantityOf(SetLineQuantity(items, k, quantity), other)
         == if other == items[k].productId then quantity else QuantityOf(items, other)
  {
    SumUpdate(items, k, items[k].(quantity := quantity), UnitsOf(other));
    if other == items[k].productId {
      QuantityOfSingleLine(items, other);
    }
  }

  /** Removing a line takes its product out of the cart and leaves every
      other product's quantity alone. */
  lemma RemoveLineQuantities(items: seq<CartItem>, k: nat, other: Guid)
    requires k < |items| && OneLinePerProduct(items)
    ensures QuantityOf(RemoveLine(items, k), other)
         == if other == items[k].productId then 0 else QuantityOf(items, other)
  {
    SumRemove(items, k, UnitsOf(other));
    if other == items[k].productId {
      QuantityOfSingleLine(items, other);
    }
  }

  // ---------------------------------------------------------------------
  // Display
  // ---------------------------------------------------------------------

  function ItemDto(line: CartItem): CartItemDto
  {
    CartItemDto(line.id, line.productId, line.quantity, line.unitPrice, line.quantity * line.unitPrice)
  }

  function DtoLineTotal(dto: CartItemDto): Cents { dto.totalPrice }

  /** MapToDto: one DTO line per cart line with its line total, and the sum
      of the DTO line totals as the cart total. */
  function MapToDto(cart: Cart): (r: CartDto)
    ensures r.id == cart.id && |r.items| == |cart.items|
    ensures forall k :: 0 <= k < |cart.items| ==>
      && r.items[k].id == cart.items[k].id
      && r.items[k].productId == cart.items[k].productId
      && r.items[k].quantity == cart.items[k].quantity
      && r.items[k].unitPrice == cart.items[k].unitPrice
      && r.items[k].totalPrice == LineTotal(cart.items[k].quantity, cart.items[k].unitPrice)
    ensures r.totalAmount == CartTotal(cart.items)
  {
    var items := seq(|cart.items|, k requires 0 <= k < |cart.items| => ItemDto(cart.items[k]));
    DtoTotalIsCartTotal(cart.items, items);
    CartDto(cart.id, items, Sum(items, DtoLineTotal))
  }

  lemma {:induction false} DtoTotalIsCartTotal(lines: seq<CartItem>, dtos: seq<CartItemDto>)
    requires |dtos| == |lines|
    requires forall k :: 0 <= k < |lines| ==> dtos[k] == ItemDto(lines[k])
    ensures Sum(dtos, DtoLineTotal) == CartTotal(lines)
  {
    if lines != [] {
      var n := |lines|;
      DtoTotalIsCartTotal(lines[..n - 1], dtos[..n - 1]);
    }
  }

  // ---------------------------------------------------------------------
  // The service operations
  // ---------------------------------------------------------------------

  /** GetOrCreateCartAsync: the position of the user's cart, created empty
      and saved when the user has none. */
  method GetOrCreateCart(db: Database, userId: Guid, newCartId: Guid, now: Time) returns (ci: nat)
    requires db.Valid()
    modifies db
    ensures db.Valid()
    ensures unchanged(db`products, db`orders, db`payments, db`users, db`addresses)
    ensures db.carts == WithCart(old(db.carts), userId, newCartId, now)
    ensures FindCart(db.carts, userId) == Some(ci)
  {
    var found := FindCart(db.carts, userId);
    if found.Some? {
      ci := found.value;
    } else {
      db.carts := db.carts + [Cart(newCartId, userId, [], now, None)];
      ci := |db.carts| - 1;
    }
  }

  /** GetCartAsync */
  method GetCart(db: Database, userId: Guid, newCartId: Guid, now: Time) returns (dto: CartDto)
    requires db.Valid()
    modifies db
    ensures db.Valid()
    ensures unchanged(db`products, db`orders, db`payments, db`users, db`addresses)
    ensures db.carts == WithCart(old(db.carts), userId, newCartId, now)
    ensures dto == MapToDto(db.carts[FindCart(db.carts, userId).value])
  {
    var ci := GetOrCreateCart(db, userId, newCartId, now);
    dto := MapToDto(db.carts[ci]);
  }

  /** AddToCartAsync */
  method AddToCart(db: Database, userId: Guid, request: AddToCartRequest,
                   newCartId: Guid, newItemId: Guid, now: Time) returns (r: Result<CartDto>)
    requires db.Valid()
    modifies db
    ensures db.Valid()
    ensures unchanged(db`products, db`orders, db`payments, db`users, db`addresses)
    ensures
      var carts := WithCart(old(db.carts), userId, newCartId, now);
      var ci := FindCart(carts, userId).value;
      var pid := request.productId;
      if pid !in db.products then
        r == Err(NotFound("Product", pid)) && db.carts == carts
      else if db.products[pid].stockQuantity < request.quantity then
        r == Err(InvalidOperation("Insufficient stock")) && db.carts == carts
      else
        var cart := carts[ci].(
          items := AddLine(carts[ci].items, pid, request.quantity, db.products[pid].price,
                           newItemId, carts[ci].id, now),
          updatedAt := Some(now));
        db.carts == carts[ci := cart] && r == Ok(MapToDto(cart))
  {
    var ci := GetOrCreateCart(db, userId, newCartId, now);
    var pid := request.productId;
    if pid !in db.products {
      return Err(NotFound("Product", pid));
    }
    var product := db.products[pid];
    if product.stockQuantity < request.quantity {
      return Err(InvalidOperation("Insufficient stock"));
    }
    var cart := db.carts[ci];
    assert cart in db.carts;
    var items := AddLine(cart.items, pid, request.quantity, product.price, newItemId, cart.id, now);
    assert LinesReferenceProducts(items, db.products) by {
      forall k | 0 <= k < |items| ensures items[k].productId in db.products {
        if k < |cart.items| && cart.items[k].productId != pid {
          assert items[k] == cart.items[k];
        }
      }
    }
    cart := cart.(items := items, updatedAt := Some(now));
    ReplaceCart(db.Store(), ci, cart);
    db.carts := db.carts[ci := cart];
    r := Ok(MapToDto(cart));
  }

  /** UpdateCartItemAsync: a quantity of zero or less removes the line; a
      positive one replaces the line's quantity unless the product's stock is
      below it. */
  method UpdateCartItem(db: Database, userId: Guid, cartItemId: Guid, quantity: int,
                        newCartId: Guid, now: Time) returns (r: Result<CartDto>)
    requires db.Valid()
    modifies db
    ensures db.Valid()
    ensures unchanged(db`products, db`orders, db`payments, db`users, db`addresses)
    ensures
      var carts := WithCart(old(db.carts), userId, newCartId, now);
      var ci := FindCart(carts, userId).value;
      var items := carts[ci].items;
      match FindLineById(items, cartItemId)
      case None =>
        r == Err(NotFound("Cart item", cartItemId)) && db.carts == carts
      case Some(k) =>
        var pid := items[k].productId;
        if quantity <= 0 then
          var cart := carts[ci].(items := RemoveLine(items, k), updatedAt := Some(now));
          db.carts == carts[ci := cart] && r == Ok(MapToDto(cart))
        else if pid in db.products && db.products[pid].stockQuantity < quantity then
          r == Err(InvalidOperation("Insufficient stock")) && db.carts == carts
        else
          var cart := carts[ci].(items := SetLineQuantity(items, k, quantity), updatedAt := Some(now));
          db.carts == carts[ci := cart] && r == Ok(MapToDto(cart))
  {
    var ci := GetOrCreateCart(db, userId, newCartId, now);
    var cart := db.carts[ci];
    assert cart in db.carts;
    var found := FindLineById(cart.items, cartItemId);
    if found.None? {
      return Err(NotFound("Cart item", cartItemId));
    }
    var k := found.value;
    var items;
    if quantity <= 0 {
      items := RemoveLine(cart.items, k);
      RemoveLineKeepsReferences(cart.items, k, db.products);
    } else {
      var pid := cart.items[k].productId;
      if pid in db.products && db.products[pid].stockQuantity < quantity {
        return Err(InvalidOperation("Insufficient stock"));
      }
      items := SetLineQuantity(cart.items, k, quantity);
      assert LinesReferenceProducts(items, db.products) by {
        assert forall j :: 0 <= j < |items| ==> items[j].productId == cart.items[j].productId;
      }
    }
    cart := cart.(items := items, updatedAt := Some(now));
    ReplaceCart(db.Store(), ci, cart);
    db.carts := db.carts[ci := cart];
    r := Ok(MapToDto(cart));
  }

  /** RemoveFromCartAsync: removing an id the cart does not hold is a no-op. */
  method RemoveFromCart(db: Database, userId: Guid, cartItemId: Guid, newCartId: Guid, now: Time)
    requires db.Valid()
    modifies db
    ensures db.Valid()
    ensures unchanged(db`products, db`orders, db`payments, db`users, db`addresses)
    ensures
      var carts := WithCart(old(db.carts), userId, newCartId, now);
      var ci := FindCart(carts, userId).value;
      var items := carts[ci].items;
      match FindLineById(items, cartItemId)
      case None => db.carts == carts
      case Some(k) =>
        db.carts == carts[ci := carts[ci].(items := RemoveLine(items, k), updatedAt := Some(now))]
  {
    var ci := GetOrCreateCart(db, userId, newCartId, now);
    var cart := db.carts[ci];
    assert cart in db.carts;
    var found := FindLineById(cart.items, cartItemId);
    if found.Some? {
      RemoveLineKeepsReferences(cart.items, found.value, db.products);
      cart := cart.(items := RemoveLine(cart.items, found.value), updatedAt := Some(now));
      ReplaceCart(db.Store(), ci, cart);
      db.carts := db.carts[ci := cart];
    }
  }

  /** ClearCartAsync: the user's cart keeps no lines. */
  method ClearCart(db: Database, userId: Guid, newCartId: Guid, now: Time)
    requires db.Valid()
    modifies db
    ensures db.Valid()
    ensures unchanged(db`products, db`orders, db`payments, db`users, db`addresses)
    ensures
      var carts := WithCart(old(db.carts), userId, newCartId, now);
      var ci := FindCart(carts, userId).value;
      db.carts == carts[ci := carts[ci].(items := [], updatedAt := Some(now))]
  {
    var ci := GetOrCreateCart(db, userId, newCartId, now);
    var cart := db.carts[ci].(items := [], updatedAt := Some(now));
    ReplaceCart(db.Store(), ci, cart);
    db.carts := db.carts[ci := cart];
  }
}
