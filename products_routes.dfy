/**
 * The bodies of the product routes (`/api/products/...`) over a snapshot of
 * the stored products.  They share the chatbot's matching and ranking, with
 * their own rules for the top-N limit and the stock lookup.
 */
module ProductRoutes {
  import opened Wrappers
  import opened Text
  import opened Tokens
  import opened Store
  import opened Ranking
  import opened ChatbotController

  /** `GET /api/products/:id`. */
  function ProductById(products: seq<Product>, id: string): RouteResult<Product>
  {
    match Find(products, (p: Product) => p.id == id)
    case None => NotFound("Product not found")
    case Some(p) => Ok(p)
  }

  /** The product is found by exact id, and the route answers 404 exactly when no stored product has it. */
  lemma ProductByIdOutcome(products: seq<Product>, id: string, r: RouteResult<Product>)
    requires r == ProductById(products, id)
    ensures r.Ok? || r.NotFound?
    ensures r.NotFound? <==> forall p :: p in products ==> p.id != id
    ensures r.Ok? ==> r.body in products && r.body.id == id
  {
  }

  // ---------------------------------------------------------------------------
  // Top sellers

  /** `parseInt(limit) || 5`: a parameter that is not a number, or is zero, means 5. */
  function TopLimit(param: string): int
  {
    match ParseInt(param)
    case None => 5
    case Some(n) => if n == 0 then 5 else n
  }

  /** Where `slice(0, end)` stops: a negative end counts back from the length. */
  function SliceEnd(length: nat, end: int): nat
  {
    if end < 0 then (if length + end < 0 then 0 else length + end)
    else if end > length then length
    else end
  }

  /** `Array.prototype.slice(0, end)`. */
  function SliceFront<T>(s: seq<T>, end: int): seq<T>
  {
    s[..SliceEnd(|s|, end)]
  }

  /**
   * `slice(0, n)` keeps the first `min(n, |s|)` elements for `n >= 0`, and
   * for `n < 0` drops the last `-n` elements, or all of them when there are
   * fewer.
   */
  lemma SliceFrontLength<T>(s: seq<T>, end: int)
    ensures SliceFront(s, end) == s[..|SliceFront(s, end)|]
    ensures end >= 0 ==> |SliceFront(s, end)| == Min(end, |s|)
    ensures end < 0 && -end <= |s| ==> |SliceFront(s, end)| + -end == |s|
    ensures end < 0 && -end > |s| ==> SliceFront(s, end) == []
  {
  }

  /** What `GET /api/products/top/:limit` lists. */
  function TopRoute(products: seq<Product>, param: string): seq<Product>
  {
    SliceFront(SortBySold(products), TopLimit(param))
  }

  /** `GET /api/products/top/:limit`: sorts the loaded array in place, then slices it. */
  method TopRouteInPlace(products: seq<Product>, param: string) returns (top: seq<Product>)
    ensures top == TopRoute(products, param)
  {
    var loaded := new Product[|products|](i requires 0 <= i < |products| => products[i]);
    assert loaded[..] == products;
    SortBySoldInPlace(loaded);
    var limit := TopLimit(param);
    top := loaded[..SliceEnd(loaded.Length, limit)];
  }

  /**
   * The route's list is a front part of the sales ranking, so it is in
   * descending order of `sold` and comes from the store; a parameter that is
   * not a number or is zero gives the top five.
   */
  lemma TopRouteProperties(products: seq<Product>, param: string, r: seq<Product>)
    requires r == TopRoute(products, param)
    ensures |SortBySold(products)| == |products| && |r| <= |products| && r == SortBySold(products)[..|r|]
    ensures SortedBySold(r)
    ensures multiset(r) <= multiset(products)
    ensures ParseInt(param).None? || ParseInt(param) == Some(0) ==> |r| == Min(5, |products|)
    ensures ParseInt(param).Some? && ParseInt(param).value > 0 ==> |r| == Min(ParseInt(param).value, |products|)
  {
    SortBySoldSorted(products);
    PrefixOfRanking(SortBySold(products), products, SliceEnd(|products|, TopLimit(param)));
  }

  /** A front part of a sorted permutation of the store is sorted and comes from the store. */
  lemma PrefixOfRanking(sorted: seq<Product>, products: seq<Product>, n: nat)
    requires SortedBySold(sorted) && multiset(sorted) == multiset(products) && n <= |sorted|
    ensures SortedBySold(sorted[..n])
    ensures multiset(sorted[..n]) <= multiset(products)
  {
    assert sorted == sorted[..n] + sorted[n..];
    assert multiset(sorted) == multiset(sorted[..n]) + multiset(sorted[n..]);
  }

  /** A negative limit `-n` drops the last `n` products of the ranking. */
  lemma TopRouteNegative(products: seq<Product>, n: nat)
    requires 0 < n <= |products|
    ensures |TopRoute(products, "-" + NatToString(n))| == |products| - n
  {
    ParseIntOfIntToString(-(n as int));
    SortBySoldSorted(products);
  }

  /**
   * The route and the chatbot agree on the top `n` for `n` from 1 to 10;
   * the route has no cap of ten, so for larger `n` it lists `min(n, |products|)`.
   */
  lemma TopRouteAgreesWithChatbot(products: seq<Product>, n: nat)
    requires n >= 1
    ensures n <= 10 ==> TopRoute(products, NatToString(n)) == TopBySold(products, Min(n, 10))
    ensures |TopRoute(products, NatToString(n))| == Min(n, |products|)
  {
    ParseIntOfIntToString(n);
    SortBySoldSorted(products);
  }

  /** The parameter "0" lists the top five, as no parameter number at all does. */
  lemma TopRouteZeroIsFive(products: seq<Product>)
    ensures TopRoute(products, "0") == TopRoute(products, "5")
  {
    ParseIntOfIntToString(0);
    ParseIntOfIntToString(5);
    assert NatToString(0) == "0";
    assert NatToString(5) == "5";
  }

  // ---------------------------------------------------------------------------
  // Search, category and stock

  /** `GET /api/products/search/:query`: every product matching the lowered query (`count` is their number). */
  function SearchRoute(products: seq<Product>, query: string): seq<Product>
  {
    MatchingProducts(products, Lower(query))
  }

  /**
   * The route lists exactly the matching products, each as often as it is
   * stored; for a lowered term the chatbot's search shows the first eight of
   * the route's list and counts all of it.
   */
  lemma SearchRouteAgrees(products: seq<Product>, term: string, r: Reply)
    requires Lower(term) == term && r == SearchResults(term, products)
    ensures forall p :: p in SearchRoute(products, term) <==> p in products && ProductMatches(p, term)
    ensures r.kind == ProductSearch ==>
              r.data.products == SearchRoute(products, term)[..Min(8, |SearchRoute(products, term)|)]
              && r.message == FoundMessage(|SearchRoute(products, term)|, term)
    ensures r.kind == NoResults <==> SearchRoute(products, term) == []
  {
  }

  /** `GET /api/products/category/:category`: the products whose category equals the parameter, both lowered. */
  function CategoryRoute(products: seq<Product>, category: string): seq<Product>
  {
    Filter(products, (p: Product) => Lower(p.category) == Lower(category))
  }

  /** The category list holds exactly the products of that category, ignoring case, each as often as it is stored. */
  lemma CategoryRouteExactly(products: seq<Product>, category: string, p: Product)
    ensures p in CategoryRoute(products, category) <==> p in products && Lower(p.category) == Lower(category)
    ensures multiset(CategoryRoute(products, category))[p] ==
            if Lower(p.category) == Lower(category) then multiset(products)[p] else 0
  {
    FilterCount(products, (p: Product) => Lower(p.category) == Lower(category), p);
  }

  /** The `data` of `GET /api/products/stock/:productName`. */
  datatype StockBody = StockBody(id: string, name: string, stock: int, inStock: bool, lowStock: bool, price: real)

  /** The 404 message of the stock route. */
  function ProductNotFoundMessage(name: string): string
  {
    "Product \"" + name + "\" not found"
  }

  /** `GET /api/products/stock/:productName`: the first product whose lowered name contains the lowered parameter. */
  function StockRoute(products: seq<Product>, productName: string): RouteResult<StockBody>
  {
    match Find(products, (p: Product) => Contains(Lower(p.name), Lower(productName)))
    case None => NotFound(ProductNotFoundMessage(productName))
    case Some(p) => Ok(StockBody(p.id, p.name, p.stock, p.stock > 0, p.stock < 10, p.price))
  }

  /**
   * The stock route reports the first product, in store order, whose lowered
   * name contains the lowered parameter, with `inStock` meaning `stock > 0`
   * and `lowStock` meaning `stock < 10`; it answers 404, naming the
   * parameter, exactly when no name contains it.
   */
  lemma StockRouteOutcome(products: seq<Product>, productName: string, r: RouteResult<StockBody>)
    requires r == StockRoute(products, productName)
    ensures r.Ok? || r.NotFound?
    ensures r.NotFound? <==> forall j :: 0 <= j < |products| ==> !Contains(Lower(products[j].name), Lower(productName))
    ensures r.NotFound? ==> Contains(r.message, productName)
    ensures r.Ok? ==> exists j :: (0 <= j < |products|
              && Contains(Lower(products[j].name), Lower(productName))
              && (forall e :: 0 <= e < j ==> !Contains(Lower(products[e].name), Lower(productName)))
              && r.body.id == products[j].id && r.body.name == products[j].name && r.body.stock == products[j].stock)
    ensures r.Ok? ==> (r.body.inStock <==> r.body.stock > 0) && (r.body.lowStock <==> r.body.stock < 10)
  {
    if r.NotFound? {
      NotFoundNamesProduct(productName);
    }
  }

  lemma NotFoundNamesProduct(productName: string)
    ensures Contains(ProductNotFoundMessage(productName), productName)
  {
    ContainsSelf(productName);
    ContainsPrepend("Product \"", productName, productName);
    ContainsAppend("Product \"" + productName, "\" not found", productName);
  }

  /** An empty product name is contained in every name, so it finds the first stored product. */
  lemma EmptyStockQueryFindsFirst(products: seq<Product>)
    requires |products| > 0
    ensures StockRoute(products, "").Ok? && StockRoute(products, "").body.id == products[0].id
  {
    assert Lower("") == "";
    ContainsEmpty(Lower(products[0].name));
  }
}
