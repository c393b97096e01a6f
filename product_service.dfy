/** ProductService: the catalogue query (filter, sort, page) and the
    administrator's create, update and delete of products. */
module ProductService {
  import opened Common
  import opened Entities
  import opened Sequences
  import opened Data

  /** Category name and images are not part of this model. */
  datatype ProductDto = ProductDto(
    id: Guid,
    name: string,
    sku: string,
    description: string,
    price: Cents,
    stockQuantity: int,
    categoryId: Guid,
    isActive: bool)

  datatype ProductListQuery = ProductListQuery(
    search: Option<string>,
    categoryId: Option<Guid>,
    minPrice: Option<Cents>,
    maxPrice: Option<Cents>,
    page: int,
    pageSize: int,
    sortBy: string,
    sortDescending: bool)

  /** The query's defaults: no filters, first page of 20, by name ascending. */
  function DefaultQuery(): ProductListQuery
  {
    ProductListQuery(None, None, None, None, 1, 20, "Name", false)
  }

  /** totalPages is None where the page size is zero: the quotient of the
      floating-point division is then infinite or not a number. */
  datatype PagedResult = PagedResult(
    items: seq<ProductDto>,
    totalCount: int,
    page: int,
    pageSize: int,
    totalPages: Option<int>)

  datatype CreateProductRequest = CreateProductRequest(
    name: string,
    sku: string,
    description: string,
    price: Cents,
    stockQuantity: int,
    categoryId: Guid)

  datatype UpdateProductRequest = UpdateProductRequest(
    name: string,
    description: string,
    price: Cents,
    stockQuantity: int,
    categoryId: Guid,
    isActive: bool)

  function ToDto(p: Product): ProductDto
  {
    ProductDto(p.id, p.name, p.sku, p.description, p.price, p.stockQuantity, p.categoryId, p.isActive)
  }

  // ---------------------------------------------------------------------
  // Filtering
  // ---------------------------------------------------------------------

  function SearchFilter(search: string): Product -> bool
  {
    (p: Product) => Contains(p.name, search) || Contains(p.description, search)
  }

  function CategoryFilter(categoryId: Guid): Product -> bool
  {
    (p: Product) => p.categoryId == categoryId
  }

  function MinPriceFilter(minPrice: Cents): Product -> bool
  {
    (p: Product) => p.price >= minPrice
  }

  function MaxPriceFilter(maxPrice: Cents): Product -> bool
  {
    (p: Product) => p.price <= maxPrice
  }

  /** A product passes every filter the query sets: a non-blank search occurs
      in its name or description, and category and price bounds hold. */
  predicate MatchesFilters(p: Product, q: ProductListQuery)
  {
    && (IsNullOrWhiteSpace(q.search) || Contains(p.name, q.search.value) || Contains(p.description, q.search.value))
    && (q.categoryId.None? || p.categoryId == q.categoryId.value)
    && (q.minPrice.None? || p.price >= q.minPrice.value)
    && (q.maxPrice.None? || p.price <= q.maxPrice.value)
  }

  /** A Where step that applies only when its filter is set. */
  function WhereIf(s: seq<Product>, on: bool, keep: Product -> bool): (r: seq<Product>)
    ensures forall p :: multiset(r)[p] == if on && !keep(p) then 0 else multiset(s)[p]
  {
    if on then Where(s, keep) else s
  }

  /** The filter steps of GetProductsAsync, one Where per filter set: exactly
      the products that pass every filter, each as often as in the table. */
  function Filtered(rows: seq<Product>, q: ProductListQuery): (r: seq<Product>)
    ensures forall p :: multiset(r)[p] == if MatchesFilters(p, q) then multiset(rows)[p] else 0
  {
    var search := if q.search.Some? then q.search.value else "";
    var categoryId := if q.categoryId.Some? then q.categoryId.value else 0;
    var minPrice := if q.minPrice.Some? then q.minPrice.value else 0;
    var maxPrice := if q.maxPrice.Some? then q.maxPrice.value else 0;
    var bySearch := WhereIf(rows, !IsNullOrWhiteSpace(q.search), SearchFilter(search));
    var byCategory := WhereIf(bySearch, q.categoryId.Some?, CategoryFilter(categoryId));
    var byMin := WhereIf(byCategory, q.minPrice.Some?, MinPriceFilter(minPrice));
    var r := WhereIf(byMin, q.maxPrice.Some?, MaxPriceFilter(maxPrice));
    forall p
      ensures multiset(r)[p] == if MatchesFilters(p, q) then multiset(rows)[p] else 0
    {
      assert multiset(r)[p] == if MaxPriceFilter(maxPrice)(p) || !q.maxPrice.Some? then multiset(byMin)[p] else 0;
      assert multiset(byMin)[p] == if MinPriceFilter(minPrice)(p) || !q.minPrice.Some? then multiset(byCategory)[p] else 0;
      assert multiset(byCategory)[p] == if CategoryFilter(categoryId)(p) || !q.categoryId.Some? then multiset(bySearch)[p] else 0;
      assert multiset(bySearch)[p] == if SearchFilter(search)(p) || IsNullOrWhiteSpace(q.search) then multiset(rows)[p] else 0;
    }
    r
  }

  /** The products the filters keep are those of the table that pass them. */
  lemma FilteredMembers(rows: seq<Product>, q: ProductListQuery)
    ensures forall p :: p in Filtered(rows, q) <==> p in rows && MatchesFilters(p, q)
  {
    var r := Filtered(rows, q);
    forall p
      ensures p in r <==> p in rows && MatchesFilters(p, q)
    {
      assert p in r <==> p in multiset(r);
      assert p in rows <==> p in multiset(rows);
    }
  }

  // ---------------------------------------------------------------------
  // Sorting
  // ---------------------------------------------------------------------

  datatype SortKey = ByPrice | ByCreatedAt | ByName

  /** query.SortBy.ToLower(): "price", "createdat", anything else by name. */
  function SortKeyOf(sortBy: string): SortKey
  {
    var key := ToLower(sortBy);
    if key == "price" then ByPrice
    else if key == "createdat" then ByCreatedAt
    else ByName
  }

  /** Ordinal string order: a prefix comes first, otherwise the first
      differing character decides. */
  predicate LexLe(a: string, b: string)
  {
    if a == [] then true
    else if b == [] then false
    else if a[0] != b[0] then a[0] < b[0]
    else LexLe(a[1..], b[1..])
  }

  lemma {:induction false} LexLeTotal(a: string, b: string)
    ensures LexLe(a, b) || LexLe(b, a)
  {
    if a != [] && b != [] && a[0] == b[0] {
      LexLeTotal(a[1..], b[1..]);
    }
  }

  lemma {:induction false} LexLeTransitive(a: string, b: string, c: string)
    requires LexLe(a, b) && LexLe(b, c)
    ensures LexLe(a, c)
  {
    if a != [] && b != [] && c != [] && a[0] == b[0] && b[0] == c[0] {
      LexLeTransitive(a[1..], b[1..], c[1..]);
    }
  }

  /** a comes no later than b in ascending order of the key. */
  predicate KeyLe(key: SortKey, a: Product, b: Product)
  {
    match key
    case ByPrice => a.price <= b.price
    case ByCreatedAt => a.createdAt <= b.createdAt
    case ByName => LexLe(a.name, b.name)
  }

  /** OrderBy or OrderByDescending on the key. */
  function ProductOrder(key: SortKey, descending: bool): (Product, Product) -> bool
  {
    (a: Product, b: Product) => if descending then KeyLe(key, b, a) else KeyLe(key, a, b)
  }

  lemma ProductOrderIsTotalPreorder(key: SortKey, descending: bool)
    ensures TotalPreorder(ProductOrder(key, descending))
  {
    var le := ProductOrder(key, descending);
    forall a: Product, b: Product ensures le(a, b) || le(b, a) {
      LexLeTotal(a.name, b.name);
    }
    forall a: Product, b: Product, c: Product | le(a, b) && le(b, c) ensures le(a, c) {
      if key == ByName {
        if descending {
          LexLeTransitive(c.name, b.name, a.name);
        } else {
          LexLeTransitive(a.name, b.name, c.name);
        }
      }
    }
  }

  /** The filtered products in the query's order. */
  function Ordered(rows: seq<Product>, q: ProductListQuery): (r: seq<Product>)
    ensures multiset(r) == multiset(Filtered(rows, q))
    ensures SortedBy(r, ProductOrder(SortKeyOf(q.sortBy), q.sortDescending))
  {
    ProductOrderIsTotalPreorder(SortKeyOf(q.sortBy), q.sortDescending);
    Sort(Filtered(rows, q), ProductOrder(SortKeyOf(q.sortBy), q.sortDescending))
  }

  // ---------------------------------------------------------------------
  // Paging
  // ---------------------------------------------------------------------

  /** n brought into the range 0 .. hi. */
  function Clamp(n: int, hi: nat): (r: nat)
    ensures r <= hi
    ensures r == Min(Max(n, 0), hi)
  {
    if n <= 0 then 0 else if n >= hi then hi else n
  }

  /** Enumerable.Skip: drops the first n elements; a negative n drops none. */
  function Skip<T>(s: seq<T>, n: int): (r: seq<T>)
    ensures |r| == |s| - Clamp(n, |s|)
    ensures forall i :: 0 <= i < |r| ==> r[i] == s[i + Clamp(n, |s|)]
  {
    s[Clamp(n, |s|)..]
  }

  /** Enumerable.Take: keeps the first n elements; a non-positive n keeps none. */
  function Take<T>(s: seq<T>, n: int): (r: seq<T>)
    ensures |r| == Clamp(n, |s|)
    ensures forall i :: 0 <= i < |r| ==> r[i] == s[i]
  {
    s[..Clamp(n, |s|)]
  }

  /** The number of products the requested page skips. */
  function PageStart(page: int, pageSize: int): int
  {
    (page - 1) * pageSize
  }

  /** Skip((page - 1) * pageSize).Take(pageSize): at most pageSize
      consecutive elements of s, from the page's start on. */
  function PageOf<T>(s: seq<T>, page: int, pageSize: int): (r: seq<T>)
    ensures |r| <= Max(pageSize, 0)
    ensures Clamp(PageStart(page, pageSize), |s|) + |r| <= |s|
    ensures forall k :: 0 <= k < |r| ==> r[k] == s[k + Clamp(PageStart(page, pageSize), |s|)]
    ensures var start := PageStart(page, pageSize);
      0 <= start && 0 <= pageSize ==>
        r == s[Min(start, |s|)..Min(start + pageSize, |s|)]
  {
    Take(Skip(s, PageStart(page, pageSize)), pageSize)
  }

  /** A run of consecutive elements of a sorted sequence is sorted. */
  lemma SliceSorted<T>(s: seq<T>, r: seq<T>, offset: nat, le: (T, T) -> bool)
    requires SortedBy(s, le) && offset + |r| <= |s|
    requires forall k :: 0 <= k < |r| ==> r[k] == s[k + offset]
    ensures SortedBy(r, le)
    ensures forall k :: 0 <= k < |r| ==> r[k] in s
  {
    forall i, j | 0 <= i < j < |r| ensures le(r[i], r[j]) {
      assert r[i] == s[i + offset] && r[j] == s[j + offset];
    }
  }

  /** (int)Math.Ceiling(count / (double)pageSize), as integer arithmetic: the
      least integer n with n * pageSize at least count (at most count when
      pageSize is negative). */
  function PageCount(count: nat, pageSize: int): (r: Option<int>)
    ensures r.None? <==> pageSize == 0
    ensures pageSize > 0 ==> r.value * pageSize >= count && (r.value - 1) * pageSize < count
    ensures pageSize < 0 ==> r.value * pageSize <= count && (r.value - 1) * pageSize > count
  {
    if pageSize > 0 then
      var n := (count + pageSize - 1) / pageSize;
      assert n * pageSize >= count && (n - 1) * pageSize < count by {
        DivisionBounds(count + pageSize - 1, pageSize);
      }
      Some(n)
    else if pageSize < 0 then
      var n := -(count / -pageSize);
      assert n * pageSize <= count && (n - 1) * pageSize > count by {
        DivisionBounds(count, -pageSize);
      }
      Some(n)
    else None
  }

  lemma DivisionBounds(a: nat, b: int)
    requires b > 0
    ensures (a / b) * b <= a < (a / b) * b + b
  {
  }

  // ---------------------------------------------------------------------
  // The query
  // ---------------------------------------------------------------------

  /** The products shown on the requested page: products of the table that
      pass the filters, in the requested order. */
  function PageRows(rows: seq<Product>, q: ProductListQuery): (r: seq<Product>)
    ensures |r| <= Max(q.pageSize, 0)
    ensures forall k :: 0 <= k < |r| ==> r[k] in rows && MatchesFilters(r[k], q)
    ensures SortedBy(r, ProductOrder(SortKeyOf(q.sortBy), q.sortDescending))
    ensures r == PageOf(Ordered(rows, q), q.page, q.pageSize)
  {
    var ordered := Ordered(rows, q);
    var r := PageOf(ordered, q.page, q.pageSize);
    PageRowsFromOrdered(rows, q, ordered, r);
    r
  }

  lemma PageRowsFromOrdered(rows: seq<Product>, q: ProductListQuery, ordered: seq<Product>, r: seq<Product>)
    requires ordered == Ordered(rows, q) && r == PageOf(ordered, q.page, q.pageSize)
    ensures forall k :: 0 <= k < |r| ==> r[k] in rows && MatchesFilters(r[k], q)
    ensures SortedBy(r, ProductOrder(SortKeyOf(q.sortBy), q.sortDescending))
  {
    SliceSorted(ordered, r, Clamp(PageStart(q.page, q.pageSize), |ordered|),
                ProductOrder(SortKeyOf(q.sortBy), q.sortDescending));
    DrawnFromFiltered(rows, q, ordered, r);
  }

  /** Rows drawn from a permutation of the filtered rows are stored rows
      that pass the filters. */
  lemma DrawnFromFiltered(rows: seq<Product>, q: ProductListQuery, ordered: seq<Product>, r: seq<Product>)
    requires multiset(ordered) == multiset(Filtered(rows, q))
    requires forall k :: 0 <= k < |r| ==> r[k] in ordered
    ensures forall k :: 0 <= k < |r| ==> r[k] in rows && MatchesFilters(r[k], q)
  {
    FilteredMembers(rows, q);
    forall k | 0 <= k < |r| ensures r[k] in rows && MatchesFilters(r[k], q) {
      var x := r[k];
      assert x in multiset(ordered);
      assert x in Filtered(rows, q);
    }
  }

  /** GetProductsAsync: the number of products passing the filters, the page
      count, and the requested page of them in the requested order. */
  function GetProducts(rows: seq<Product>, q: ProductListQuery): (r: PagedResult)
    ensures r.totalCount == |Filtered(rows, q)|
    ensures forall p :: p in rows && MatchesFilters(p, q) ==> r.totalCount > 0
    ensures r.page == q.page && r.pageSize == q.pageSize
    ensures r.totalPages == PageCount(r.totalCount, q.pageSize)
    ensures |r.items| == |PageRows(rows, q)| <= Max(q.pageSize, 0)
    ensures forall k :: 0 <= k < |r.items| ==> r.items[k] == ToDto(PageRows(rows, q)[k])
  {
    var count := |Filtered(rows, q)|;
    var page := PageRows(rows, q);
    var items := seq(|page|, k requires 0 <= k < |page| => ToDto(page[k]));
    PagedResult(items, count, q.page, q.pageSize, PageCount(count, q.pageSize))
  }

  lemma MulMonotone(a: int, b: int, k: int)
    requires a <= b && k >= 0
    ensures a * k <= b * k
  {
  }

  /** With a positive page size, page p (counted from 1) starts before the
      end of n items exactly when p is at most the page count. */
  lemma {:induction false} PageStartsBeforeEndIff(n: nat, page: int, pageSize: int)
    requires pageSize > 0 && page >= 1
    ensures PageStart(page, pageSize) < n <==> page <= PageCount(n, pageSize).value
  {
    var total := PageCount(n, pageSize).value;
    if page <= total {
      MulMonotone(page - 1, total - 1, pageSize);
    } else {
      MulMonotone(total, page - 1, pageSize);
    }
  }

  /** With a positive page size, page p (counted from 1) holds some products
      exactly when p is at most the page count. */
  lemma PageNonEmptyIff(rows: seq<Product>, q: ProductListQuery)
    requires q.pageSize > 0 && q.page >= 1
    ensures var r := GetProducts(rows, q);
      |r.items| > 0 <==> q.page <= r.totalPages.value
  {
    var ordered := Ordered(rows, q);
    assert |ordered| == |Filtered(rows, q)| by {
      assert |multiset(ordered)| == |multiset(Filtered(rows, q))|;
    }
    MulMonotone(0, q.page - 1, q.pageSize);
    PageStartsBeforeEndIff(|ordered|, q.page, q.pageSize);
  }

  /** GetProductByIdAsync */
  function GetProductById(products: map<Guid, Product>, id: Guid): (r: Option<ProductDto>)
    ensures r.Some? <==> id in products
    ensures r.Some? ==> r.value == ToDto(products[id])
  {
    if id in products then Some(ToDto(products[id])) else None
  }

  // ---------------------------------------------------------------------
  // Create, update, delete
  // ---------------------------------------------------------------------

  /** The product CreateProductAsync builds: active, with the request's
      fields and no update time. */
  function NewProduct(id: Guid, request: CreateProductRequest, now: Time): (p: Product)
    ensures p.id == id && p.isActive && p.updatedAt.None? && p.createdAt == now
    ensures p.name == request.name && p.sku == request.sku && p.description == request.description
    ensures p.price == request.price && p.stockQuantity == request.stockQuantity
    ensures p.categoryId == request.categoryId
  {
    Product(id, request.name, request.sku, request.description, request.price,
            request.stockQuantity, request.categoryId, true, now, None)
  }

  predicate SkuTaken(products: map<Guid, Product>, sku: string)
  {
    exists id :: id in products && products[id].sku == sku
  }

  function DuplicateSku(): Error
  {
    ConstraintViolation(UniqueSku)
  }

  /** CreateProductAsync: the new product is stored under its fresh id; the
      unique index on SKU refuses a second product with the same SKU. */
  method CreateProduct(db: Database, request: CreateProductRequest, newId: Guid, now: Time)
    returns (r: Result<ProductDto>)
    requires db.Valid() && newId !in db.products
    modifies db
    ensures db.Valid()
    ensures unchanged(db`carts, db`orders, db`payments, db`users, db`addresses)
    ensures SkuTaken(old(db.products), request.sku) ==>
      r == Err(DuplicateSku()) && db.products == old(db.products)
    ensures !SkuTaken(old(db.products), request.sku) ==>
      && db.products == old(db.products)[newId := NewProduct(newId, request, now)]
      && r == Ok(ToDto(NewProduct(newId, request, now)))
  {
    var product := NewProduct(newId, request, now);
    if SkuTaken(db.products, product.sku) {
      return Err(DuplicateSku());
    }
    db.products := db.products[newId := product];
    r := Ok(ToDto(product));
  }

  /** UpdateProductAsync overwrites name, description, price, stock,
      category and active flag, and stamps the update time; the id, SKU and
      creation time stay. */
  function Updated(p: Product, request: UpdateProductRequest, now: Time): (r: Product)
    ensures r.id == p.id && r.sku == p.sku && r.createdAt == p.createdAt
    ensures r.name == request.name && r.description == request.description
    ensures r.price == request.price && r.stockQuantity == request.stockQuantity
    ensures r.categoryId == request.categoryId && r.isActive == request.isActive
    ensures r.updatedAt == Some(now)
  {
    p.(name := request.name, description := request.description, price := request.price,
       stockQuantity := request.stockQuantity, categoryId := request.categoryId,
       isActive := request.isActive, updatedAt := Some(now))
  }

  /** Applying the same update twice is applying it once, at the later time. */
  lemma UpdateIdempotent(p: Product, request: UpdateProductRequest, t1: Time, t2: Time)
    ensures Updated(Updated(p, request, t1), request, t2) == Updated(p, request, t2)
  {
  }

  method UpdateProduct(db: Database, id: Guid, request: UpdateProductRequest, now: Time)
    returns (r: Result<ProductDto>)
    requires db.Valid()
    modifies db
    ensures db.Valid()
    ensures unchanged(db`carts, db`orders, db`payments, db`users, db`addresses)
    ensures id !in old(db.products) ==>
      r == Err(NotFound("Product", id)) && db.products == old(db.products)
    ensures id in old(db.products) ==>
      && db.products == old(db.products)[id := Updated(old(db.products)[id], request, now)]
      && r == Ok(ToDto(db.products[id]))
  {
    if id !in db.products {
      return Err(NotFound("Product", id));
    }
    var product := db.products[id];
    product := product.(name := request.name);
    product := product.(description := request.description);
    product := product.(price := request.price);
    product := product.(stockQuantity := request.stockQuantity);
    product := product.(categoryId := request.categoryId);
    product := product.(isActive := request.isActive);
    product := product.(updatedAt := Some(now));
    db.products := db.products[id := product];
    r := Ok(ToDto(product));
  }

  /** Some cart line refers to the product. */
  predicate InSomeCart(carts: seq<Cart>, id: Guid)
  {
    exists c, i :: c in carts && 0 <= i < |c.items| && c.items[i].productId == id
  }

  /** Some order line refers to the product. */
  predicate InSomeOrder(orders: seq<Order>, id: Guid)
  {
    exists o, i :: o in orders && 0 <= i < |o.items| && o.items[i].productId == id
  }

  function StillReferenced(): Error
  {
    ConstraintViolation(ProductReferenced)
  }

  /** DeleteProductAsync: an unknown id is not found; a product that a cart
      line or an order line still refers to is kept by the Restrict foreign
      keys; any other product is removed. */
  method DeleteProduct(db: Database, id: Guid) returns (r: Outcome)
    requires db.Valid()
    modifies db
    ensures db.Valid()
    ensures unchanged(db`carts, db`orders, db`payments, db`users, db`addresses)
    ensures id !in old(db.products) ==>
      r == Outcome.Failed(NotFound("Product", id)) && db.products == old(db.products)
    ensures id in old(db.products) && (InSomeCart(db.carts, id) || InSomeOrder(db.orders, id)) ==>
      r == Outcome.Failed(StillReferenced()) && db.products == old(db.products)
    ensures id in old(db.products) && !InSomeCart(db.carts, id) && !InSomeOrder(db.orders, id) ==>
      r == Done && db.products == old(db.products) - {id}
  {
    if id !in db.products {
      return Outcome.Failed(NotFound("Product", id));
    }
    if InSomeCart(db.carts, id) || InSomeOrder(db.orders, id) {
      return Outcome.Failed(StillReferenced());
    }
    db.products := db.products - {id};
    r := Done;
  }
}
