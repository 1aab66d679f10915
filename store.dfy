/**
 * The records of the data store (products.json and orders.json) and the
 * `find`/`filter` operations the controller and the routes run over a
 * snapshot of them.  Each request loads a fresh snapshot; here a snapshot is
 * simply a sequence passed in (an unreadable file is the empty sequence).
 */
module Store {
  import opened Wrappers
  import opened Text

  /** `price` and `rating` are decimals in the store; they are never computed with except by the star display. */
  datatype Product = Product(
    id: string,
    name: string,
    category: string,
    description: string,
    price: real,
    stock: int,
    sold: int,
    rating: real,
    sizes: seq<string>,
    colors: seq<string>)

  datatype OrderItem = OrderItem(productName: string, quantity: int, price: real)

  /** Optional fields are `None` when the stored order has no such key. */
  datatype Order = Order(
    id: string,
    customerId: string,
    customerName: string,
    status: string,
    items: seq<OrderItem>,
    total: real,
    trackingNumber: Option<string>,
    estimatedDelivery: Option<string>,
    deliveredDate: Option<string>,
    cancelReason: Option<string>,
    shippingAddress: Option<string>)

  /** JavaScript truthiness of an optional string field: present and not empty. */
  predicate Truthy(field: Option<string>)
  {
    field.Some? && field.value != ""
  }

  /** The text a template literal produces for an optional field: `undefined` when it is absent. */
  function Interpolate(field: Option<string>): string
  {
    match field
    case Some(v) => v
    case None => "undefined"
  }

  // ---------------------------------------------------------------------------
  // `find` and `filter`

  /** `Array.prototype.findIndex`: the first index whose element satisfies `p`. */
  function FindFirst<T>(s: seq<T>, p: T -> bool): (r: Option<nat>)
    ensures r.Some? ==> r.value < |s| && p(s[r.value])
    ensures r.Some? ==> forall j :: 0 <= j < r.value ==> !p(s[j])
    ensures r.None? ==> forall j :: 0 <= j < |s| ==> !p(s[j])
    decreases |s|
  {
    if |s| == 0 then None
    else if p(s[0]) then Some(0)
    else
      match FindFirst(s[1..], p)
      case None => None
      case Some(i) => Some(i + 1)
  }

  /** `Array.prototype.find`: the first element that satisfies `p`. */
  function Find<T>(s: seq<T>, p: T -> bool): (r: Option<T>)
    ensures r.Some? <==> exists j :: 0 <= j < |s| && p(s[j])
    ensures r.Some? ==> exists j :: 0 <= j < |s| && s[j] == r.value && p(s[j]) && forall k :: 0 <= k < j ==> !p(s[k])
  {
    match FindFirst(s, p)
    case None => None
    case Some(i) => Some(s[i])
  }

  /** `Array.prototype.filter`: the elements that satisfy `p`, in their original order. */
  function Filter<T>(s: seq<T>, p: T -> bool): (r: seq<T>)
    ensures |r| <= |s|
    ensures forall k :: 0 <= k < |r| ==> r[k] in s && p(r[k])
    ensures forall k :: 0 <= k < |s| && p(s[k]) ==> s[k] in r
    decreases |s|
  {
    if |s| == 0 then []
    else
      assert s == [s[0]] + s[1..];
      (if p(s[0]) then [s[0]] else []) + Filter(s[1..], p)
  }

  /** Filtering distributes over concatenation: what is kept keeps its order. */
  lemma {:induction false} FilterAppend<T>(a: seq<T>, b: seq<T>, p: T -> bool)
    ensures Filter(a + b, p) == Filter(a, p) + Filter(b, p)
    decreases |a|
  {
    if |a| == 0 {
      assert a + b == b;
    } else {
      assert (a + b)[0] == a[0] && (a + b)[1..] == a[1..] + b;
      FilterAppend(a[1..], b, p);
    }
  }

  /** Every element kept by a filter keeps its multiplicity, and an element kept by no filter is dropped. */
  lemma {:induction false} FilterCount<T>(s: seq<T>, p: T -> bool, x: T)
    ensures multiset(Filter(s, p))[x] == if p(x) then multiset(s)[x] else 0
    decreases |s|
  {
    if |s| > 0 {
      FilterCount(s[1..], p, x);
      assert s == [s[0]] + s[1..];
    }
  }

  // ---------------------------------------------------------------------------
  // Product matching shared by the chatbot's search and the search route

  /** The colour list's `some(color => color.toLowerCase().includes(term))`. */
  predicate SomeColorContains(colors: seq<string>, term: string)
  {
    exists k | 0 <= k < |colors| :: Contains(Lower(colors[k]), term)
  }

  /** The search filter: the lowered name, category, description or some colour contains `term`. */
  predicate ProductMatches(p: Product, term: string)
  {
    || Contains(Lower(p.name), term)
    || Contains(Lower(p.category), term)
    || Contains(Lower(p.description), term)
    || SomeColorContains(p.colors, term)
  }

  /** The products matching `term`, in store order. */
  function MatchingProducts(products: seq<Product>, term: string): (r: seq<Product>)
    ensures forall p :: p in r <==> p in products && ProductMatches(p, term)
  {
    Filter(products, (p: Product) => ProductMatches(p, term))
  }

  /** `orders.find(o => o.id === id)`. */
  function OrderWithId(orders: seq<Order>, id: string): (r: Option<Order>)
    ensures r.Some? ==> r.value in orders && r.value.id == id
    ensures r.None? <==> forall o :: o in orders ==> o.id != id
  {
    Find(orders, (o: Order) => o.id == id)
  }
}
