/**
 * The catalog handlers (server/controllers/productController.js) over an
 * in-memory product collection kept in store order: the category-filtered
 * listing with its skip/limit window and page flags, the featured list,
 * and lookup by id.
 */
module ProductController {
  import opened Common
  import opened ProductModel

  /** The listing's query: `{category}` only when a non-empty category was supplied. */
  predicate MatchesCategory(p: Product, category: Option<string>) {
    category.None? || category.value == "" || CategoryName(p.category) == category.value
  }

  /** `Product.find(query)`: the matching products in store order. */
  function FindByCategory(products: seq<Product>, category: Option<string>): seq<Product> {
    if |products| == 0 then []
    else (if MatchesCategory(products[0], category) then [products[0]] else [])
         + FindByCategory(products[1..], category)
  }

  /** The listing keeps exactly the matching products. */
  lemma {:induction false} FindByCategoryMembers(products: seq<Product>, category: Option<string>)
    ensures forall p :: p in FindByCategory(products, category) <==> p in products && MatchesCategory(p, category)
  {
    if |products| > 0 {
      FindByCategoryMembers(products[1..], category);
      assert products == [products[0]] + products[1..];
    }
  }

  /** Filtering distributes over concatenation, so the store order is kept. */
  lemma {:induction false} FindByCategoryConcat(a: seq<Product>, b: seq<Product>, category: Option<string>)
    ensures FindByCategory(a + b, category) == FindByCategory(a, category) + FindByCategory(b, category)
  {
    if |a| > 0 {
      assert (a + b)[1..] == a[1..] + b;
      FindByCategoryConcat(a[1..], b, category);
    } else {
      assert a + b == b;
    }
  }

  /** Without a category every product matches, in store order. */
  lemma {:induction false} NoCategoryMatchesAll(products: seq<Product>, category: Option<string>)
    requires category.None? || category.value == ""
    ensures FindByCategory(products, category) == products
  {
    if |products| > 0 {
      NoCategoryMatchesAll(products[1..], category);
      assert products == [products[0]] + products[1..];
    }
  }

  /** `Math.ceil(n / d)` on naturals. */
  function CeilDiv(n: nat, d: int): (q: nat)
    requires d >= 1
    ensures q * d >= n && (q - 1) * d < n
  {
    var q := (n + d - 1) / d;
    assert q * d <= n + d - 1 < q * d + d;
    q
  }

  /** The JSON body of a successful listing. */
  datatype ProductPage = ProductPage(
    data: seq<Product>,
    count: nat,
    total: nat,
    page: int,
    totalPages: nat,
    hasNextPage: bool,
    hasPrevPage: bool)

  /** `.skip(skip).limit(limit)` on a list. */
  function Window(s: seq<Product>, skip: nat, limit: nat): seq<Product> {
    s[Min(skip, |s|)..Min(skip + limit, |s|)]
  }

  /**
   * `getAllProducts`: absent `page` and `limit` default to 1 and 10. Only
   * `category`, `page` and `limit` are read; page and limit must be at least 1.
   */
  function GetAllProducts(products: seq<Product>, category: Option<string>, page: Option<int>, limit: Option<int>): ProductPage
    requires page.GetOr(1) >= 1 && limit.GetOr(10) >= 1
  {
    var pageNumber := page.GetOr(1);
    var limitNumber := limit.GetOr(10);
    var matching := FindByCategory(products, category);
    var data := Window(matching, (pageNumber - 1) * limitNumber, limitNumber);
    var totalPages := CeilDiv(|matching|, limitNumber);
    ProductPage(data, |data|, |matching|, pageNumber, totalPages, pageNumber < totalPages, pageNumber > 1)
  }

  lemma MulLe(a: int, b: int, c: int)
    requires a <= b && c >= 0
    ensures a * c <= b * c
  {
  }

  /** The fields of a page in terms of the matching list, with the window start named. */
  lemma PageShape(products: seq<Product>, category: Option<string>, page: int, limit: int)
    requires page >= 1 && limit >= 1
    ensures var r := GetAllProducts(products, category, Some(page), Some(limit));
      var matching := FindByCategory(products, category);
      var skip := (page - 1) * limit;
      && skip >= 0
      && r.data == Window(matching, skip, limit)
      && r.count == |r.data| && r.total == |matching| && r.page == page
      && r.totalPages == CeilDiv(|matching|, limit)
      && (r.hasNextPage <==> page < r.totalPages)
      && (r.hasPrevPage <==> page > 1)
  {
    MulLe(0, page - 1, limit);
  }

  /**
   * The page holds at most `limit` products, namely those of the matching list
   * from position (page - 1) * limit on; `total` counts the whole matching list
   * whatever the page, and `count` the products returned.
   */
  lemma GetAllProductsWindow(products: seq<Product>, category: Option<string>, page: int, limit: int)
    requires page >= 1 && limit >= 1
    ensures var r := GetAllProducts(products, category, Some(page), Some(limit));
      var matching := FindByCategory(products, category);
      && |r.data| <= limit
      && r.count == |r.data|
      && r.total == |matching|
      && r.page == page
      && (page - 1) * limit >= 0
      && (forall k :: 0 <= k < |r.data| ==> (page - 1) * limit + k < |matching| && r.data[k] == matching[(page - 1) * limit + k])
  {
    PageShape(products, category, page, limit);
  }

  /** Page flags: `totalPages` is the ceiling of total / limit, there is a next page exactly when products remain after this one, and a previous page exactly when page > 1. */
  lemma PageFlags(products: seq<Product>, category: Option<string>, page: int, limit: int)
    requires page >= 1 && limit >= 1
    ensures var r := GetAllProducts(products, category, Some(page), Some(limit));
      && r.totalPages * limit >= r.total
      && (r.totalPages - 1) * limit < r.total
      && (r.hasNextPage <==> page * limit < r.total)
      && (r.hasPrevPage <==> page > 1)
  {
    PageShape(products, category, page, limit);
    var r := GetAllProducts(products, category, Some(page), Some(limit));
    var q := r.totalPages;
    if page < q {
      MulLe(page, q - 1, limit);
    } else {
      MulLe(q, page, limit);
    }
  }

  /** A page that starts at or past the end of the matching list is empty and has no next page. */
  lemma PastLastPage(products: seq<Product>, category: Option<string>, page: int, limit: int)
    requires page >= 1 && limit >= 1
    requires (page - 1) * limit >= |FindByCategory(products, category)|
    ensures var r := GetAllProducts(products, category, Some(page), Some(limit));
      r.data == [] && r.count == 0 && !r.hasNextPage
  {
    PageShape(products, category, page, limit);
    PageFlags(products, category, page, limit);
    MulLe(page - 1, page, limit);
  }

  /** Every page before the last is full. */
  lemma FullPagesBeforeLast(products: seq<Product>, category: Option<string>, page: int, limit: int)
    requires page >= 1 && limit >= 1
    ensures var r := GetAllProducts(products, category, Some(page), Some(limit));
      r.hasNextPage ==> |r.data| == limit
  {
    PageShape(products, category, page, limit);
    PageFlags(products, category, page, limit);
    assert page * limit == (page - 1) * limit + limit;
  }

  /** Paging loses nothing: the product at position i of the matching list is on page i / limit + 1, at position i % limit. */
  lemma PagesCover(products: seq<Product>, category: Option<string>, limit: int, i: nat)
    requires limit >= 1
    requires i < |FindByCategory(products, category)|
    ensures var r := GetAllProducts(products, category, Some(i / limit + 1), Some(limit));
      i % limit < |r.data| && r.data[i % limit] == FindByCategory(products, category)[i]
  {
    var q, m := i / limit, i % limit;
    DivMod(i, limit);
    var skip := q * limit;
    assert skip + m == i;
    PageShape(products, category, q + 1, limit);
    WindowAt(FindByCategory(products, category), skip, limit, m);
  }

  /** Position m of a window is position skip + m of the list. */
  lemma WindowAt(s: seq<Product>, skip: nat, limit: nat, m: nat)
    requires m < limit && skip + m < |s|
    ensures m < |Window(s, skip, limit)| && Window(s, skip, limit)[m] == s[skip + m]
  {
  }

  lemma DivMod(i: nat, d: int)
    requires d >= 1
    ensures i / d >= 0 && i == (i / d) * d + i % d && 0 <= i % d < d
    ensures ((i / d + 1) - 1) * d == (i / d) * d
  {
  }

  /** Absent page and limit mean the first page of ten. */
  lemma ListingDefaults(products: seq<Product>, category: Option<string>)
    ensures GetAllProducts(products, category, None, None) == GetAllProducts(products, category, Some(1), Some(10))
  {
  }

  // ---- featured -------------------------------------------------------------

  /** `Product.find({ inStock: true })`: the in-stock products in store order. */
  function InStockProducts(products: seq<Product>): seq<Product> {
    if |products| == 0 then []
    else (if products[0].inStock then [products[0]] else []) + InStockProducts(products[1..])
  }

  /** `getFeaturedProducts`: `Product.find({ inStock: true }).limit(6)`. */
  function FeaturedProducts(products: seq<Product>): seq<Product> {
    var inStock := InStockProducts(products);
    inStock[..Min(6, |inStock|)]
  }

  lemma {:induction false} InStockProductsMembers(products: seq<Product>)
    ensures forall p :: p in InStockProducts(products) <==> p in products && p.inStock
  {
    if |products| > 0 {
      InStockProductsMembers(products[1..]);
      assert products == [products[0]] + products[1..];
    }
  }

  /** The featured list holds only in-stock products, at most six, the first six in store order when there are more. */
  lemma FeaturedSpec(products: seq<Product>)
    ensures |FeaturedProducts(products)| == Min(6, |InStockProducts(products)|)
    ensures FeaturedProducts(products) <= InStockProducts(products)
    ensures forall p :: p in FeaturedProducts(products) ==> p in products && p.inStock
  {
    InStockProductsMembers(products);
  }

  // ---- lookup by id ----------------------------------------------------------

  /** `Product.findById(id)`: the first product with that id. */
  function FindById(products: seq<Product>, id: ProductId): Option<Product> {
    if |products| == 0 then None
    else if products[0].id == id then Some(products[0])
    else FindById(products[1..], id)
  }

  /** `getProductById`: the product, or 404 when no product has the id. */
  function GetProductById(products: seq<Product>, id: ProductId): Result<Product, HttpStatus> {
    match FindById(products, id)
    case Some(p) => Ok(p)
    case None => Err(NotFound)
  }

  lemma {:induction false} GetProductByIdSpec(products: seq<Product>, id: ProductId)
    ensures GetProductById(products, id).Err? <==> forall p :: p in products ==> p.id != id
    ensures GetProductById(products, id).Err? ==> GetProductById(products, id).error.Code() == 404
    ensures GetProductById(products, id).Ok? ==>
      GetProductById(products, id).value in products && GetProductById(products, id).value.id == id
  {
    if |products| > 0 {
      GetProductByIdSpec(products[1..], id);
      assert products == [products[0]] + products[1..];
    }
  }
}
