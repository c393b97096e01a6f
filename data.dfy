/** The database the services share (ApplicationDbContext): one field per
    table, and the facts the schema and the services keep about them. */
module Data {
  import opened Common
  import opened Entities
  import opened Sequences

  /** The tables checkout reads and writes, as one value. */
  datatype Tables = Tables(
    products: map<Guid, Product>,
    carts: seq<Cart>,
    orders: seq<Order>,
    payments: seq<Payment>,
    addresses: set<Guid>)   // ids of the stored Addresses; the address book is written outside this model

  /** Primary key of Products: each product is stored under its own id. */
  predicate ProductsKeyed(products: map<Guid, Product>)
  {
    forall k :: k in products ==> products[k].id == k
  }

  /** The unique index on Products.SKU. */
  predicate SkusUnique(products: map<Guid, Product>)
  {
    forall p, q :: p in products && q in products && p != q ==> products[p].sku != products[q].sku
  }

  /** The unique index on Carts.UserId: no user has two carts. */
  predicate OneCartPerUser(carts: seq<Cart>)
  {
    forall i, j :: 0 <= i < j < |carts| ==> carts[i].userId != carts[j].userId
  }

  /** The cart rule that adding merges by product: no product has two lines. */
  predicate OneLinePerProduct(items: seq<CartItem>)
  {
    forall i, j :: 0 <= i < j < |items| ==> items[i].productId != items[j].productId
  }

  /** The Restrict foreign key from CartItems to Products. */
  predicate LinesReferenceProducts(items: seq<CartItem>, products: map<Guid, Product>)
  {
    forall i :: 0 <= i < |items| ==> items[i].productId in products
  }

  predicate CartsConsistent(carts: seq<Cart>, products: map<Guid, Product>)
  {
    forall c :: c in carts ==> OneLinePerProduct(c.items) && LinesReferenceProducts(c.items, products)
  }

  /** The Restrict foreign key from OrderItems to Products. */
  predicate OrdersReferenceProducts(orders: seq<Order>, products: map<Guid, Product>)
  {
    forall o, i :: o in orders && 0 <= i < |o.items| ==> o.items[i].productId in products
  }

  /** The Restrict foreign key from Orders.ShippingAddressId to Addresses. */
  predicate OrdersReferenceAddresses(orders: seq<Order>, addresses: set<Guid>)
  {
    forall o :: o in orders && o.shippingAddressId.Some? ==> o.shippingAddressId.value in addresses
  }

  predicate Consistent(t: Tables)
  {
    && ProductsKeyed(t.products)
    && SkusUnique(t.products)
    && OneCartPerUser(t.carts)
    && CartsConsistent(t.carts, t.products)
    && OrdersReferenceProducts(t.orders, t.products)
    && OrdersReferenceAddresses(t.orders, t.addresses)
  }

  /** Putting a cart of the same user, with one line per product and lines
      that refer to stored products, in place of another keeps the tables
      consistent. */
  lemma ReplaceCart(t: Tables, ci: nat, cart: Cart)
    requires Consistent(t) && ci < |t.carts|
    requires cart.userId == t.carts[ci].userId
    requires OneLinePerProduct(cart.items) && LinesReferenceProducts(cart.items, t.products)
    ensures Consistent(t.(carts := t.carts[ci := cart]))
  {
    var carts := t.carts[ci := cart];
    forall c | c in carts ensures OneLinePerProduct(c.items) && LinesReferenceProducts(c.items, t.products) {
      var j :| 0 <= j < |carts| && carts[j] == c;
      if j != ci {
        assert t.carts[j] in t.carts;
      }
    }
  }

  /** The unique index on Users.Email. */
  predicate EmailsUnique(users: seq<User>)
  {
    forall i, j :: 0 <= i < j < |users| ==> users[i].email != users[j].email
  }

  /** Carts.FirstOrDefault(c => c.UserId == userId), as a position. */
  function FindCart(carts: seq<Cart>, userId: Guid): (r: Option<nat>)
    ensures r.None? <==> forall i :: 0 <= i < |carts| ==> carts[i].userId != userId
    ensures r.Some? ==> r.value < |carts| && carts[r.value].userId == userId
    ensures r.Some? && OneCartPerUser(carts) ==>
      forall i :: 0 <= i < |carts| && carts[i].userId == userId ==> i == r.value
  {
    FirstIndex(carts, (c: Cart) => c.userId == userId)
  }

  class Database {
    var products: map<Guid, Product>
    var carts: seq<Cart>
    var orders: seq<Order>
    var payments: seq<Payment>
    var users: seq<User>
    var addresses: set<Guid>

    /** An empty database. */
    constructor ()
      ensures Valid()
      ensures products == map[] && carts == [] && orders == [] && payments == [] && users == []
      ensures addresses == {}
    {
      products, carts, orders, payments, users, addresses := map[], [], [], [], [], {};
    }

    function Store(): Tables
      reads this
    {
      Tables(products, carts, orders, payments, addresses)
    }

    ghost predicate Valid()
      reads this
    {
      Consistent(Store()) && EmailsUnique(users)
    }
  }
}
