/**
 * The chatbot engine (`ChatbotController`): a query is lowered, classified
 * by five keyword tests tried in a fixed order, and answered by the handler
 * of the first test that holds, from a snapshot of the products and orders.
 */
module ChatbotController {
  import opened Wrappers
  import opened Text
  import opened Tokens
  import opened Store
  import opened Ranking

  // ---------------------------------------------------------------------------
  // Replies

  /** The `type` of a reply, which the user interface uses to choose how to show it. */
  datatype ReplyType =
    | OrderStatus | OrderNotFound | OrderHelp
    | StockCheck | StockHelp
    | TopProducts
    | ProductSearch | SearchHelp | NoResults
    | Greeting | Unknown

  function TypeTag(t: ReplyType): string
  {
    match t
    case OrderStatus => "order_status"
    case OrderNotFound => "order_not_found"
    case OrderHelp => "order_help"
    case StockCheck => "stock_check"
    case StockHelp => "stock_help"
    case TopProducts => "top_products"
    case ProductSearch => "product_search"
    case SearchHelp => "search_help"
    case NoResults => "no_results"
    case Greeting => "greeting"
    case Unknown => "unknown"
  }

  /** The fields of an order that an `order_status` reply carries, with the status sentence. */
  datatype OrderStatusData = OrderStatusData(
    orderId: string,
    status: string,
    customerName: string,
    items: seq<OrderItem>,
    total: real,
    trackingNumber: Option<string>,
    estimatedDelivery: Option<string>,
    deliveredDate: Option<string>,
    statusMessage: string)

  /** The `data` of a reply. */
  datatype Payload =
    | NoData
    | OrderInfo(info: OrderStatusData)
    | StockInfo(product: Product, stock: int, inStock: bool, lowStock: bool)
    | ProductList(products: seq<Product>)

  /** A handler's result: `{type, success, data?, message, searchTerm?}`. */
  datatype Reply = Reply(kind: ReplyType, success: bool, data: Payload, message: string, searchTerm: Option<string>)

  /** `new Date(field).toLocaleDateString()`, left uninterpreted (it depends on the locale and time zone); `None` is an absent field, so `new Date(undefined)`. */
  type DateFormatter = Option<string> -> string

  // ---------------------------------------------------------------------------
  // Classification

  const OrderKeywords: seq<string> := ["order", "status", "track", "delivery", "shipped", "delivered"]
  const StockKeywords: seq<string> := ["stock", "available", "inventory", "left", "how many"]
  const TopKeywords: seq<string> := ["top", "best", "most sold", "popular", "bestseller"]
  const SearchKeywords: seq<string> := ["show", "find", "search", "look for", "what", "which"]
  const GreetingKeywords: seq<string> := ["hello", "hi", "hey", "help", "assist", "support"]

  /** `keywords.some(keyword => query.includes(keyword))`. */
  predicate MentionsAny(query: string, keywords: seq<string>)
  {
    exists k | 0 <= k < |keywords| :: Contains(query, keywords[k])
  }

  /** An order keyword, or a five-digit number standing alone. */
  predicate IsOrderQuery(query: string)
  {
    MentionsAny(query, OrderKeywords) || FindFiveDigitToken(query).Some?
  }

  predicate IsStockQuery(query: string) { MentionsAny(query, StockKeywords) }

  predicate IsTopProductsQuery(query: string) { MentionsAny(query, TopKeywords) }

  predicate IsProductSearchQuery(query: string) { MentionsAny(query, SearchKeywords) }

  predicate IsGreetingOrHelp(query: string) { MentionsAny(query, GreetingKeywords) }

  datatype Intent = OrderIntent | StockIntent | TopProductsIntent | SearchIntent | GreetingIntent | UnknownIntent

  /** The test `processQuery` runs for each intent. */
  predicate Detects(intent: Intent, query: string)
  {
    match intent
    case OrderIntent => IsOrderQuery(query)
    case StockIntent => IsStockQuery(query)
    case TopProductsIntent => IsTopProductsQuery(query)
    case SearchIntent => IsProductSearchQuery(query)
    case GreetingIntent => IsGreetingOrHelp(query)
    case UnknownIntent => false
  }

  /** The order in which `processQuery` tries the tests. */
  const Priority: seq<Intent> := [OrderIntent, StockIntent, TopProductsIntent, SearchIntent, GreetingIntent]

  /** The chain of `if`s in `processQuery`, applied to the lowered query. */
  function Classify(lowerQuery: string): Intent
  {
    if IsOrderQuery(lowerQuery) then OrderIntent
    else if IsStockQuery(lowerQuery) then StockIntent
    else if IsTopProductsQuery(lowerQuery) then TopProductsIntent
    else if IsProductSearchQuery(lowerQuery) then SearchIntent
    else if IsGreetingOrHelp(lowerQuery) then GreetingIntent
    else UnknownIntent
  }

  /**
   * Priority dispatch: the intent chosen is the first of the priority list
   * whose test holds, and `unknown` when none holds.  So an intent is chosen
   * only when its own test holds and every earlier test fails.
   */
  lemma ClassifyIsFirstMatch(lowerQuery: string)
    ensures Classify(lowerQuery) ==
      match FindFirst(Priority, (i: Intent) => Detects(i, lowerQuery))
      case Some(k) => Priority[k]
      case None => UnknownIntent
    ensures Classify(lowerQuery) != UnknownIntent ==> Detects(Classify(lowerQuery), lowerQuery)
    ensures forall k :: 0 <= k < |Priority| && Priority[k] == Classify(lowerQuery) ==>
              forall e :: 0 <= e < k ==> !Detects(Priority[e], lowerQuery)
    ensures Classify(lowerQuery) == UnknownIntent <==> forall k :: 0 <= k < |Priority| ==> !Detects(Priority[k], lowerQuery)
  {
  }

  // ---------------------------------------------------------------------------
  // Order status

  /** The entries of the status table of `getOrderStatusMessage`, and the default. */
  datatype StatusKind = Pending | Processing | Shipped | Delivered | Cancelled | OtherStatus

  /** `messages[status]`: the entry of the status table a status names, `OtherStatus` for none (the `||` default). */
  function StatusOf(status: string): StatusKind
  {
    if status == "pending" then Pending
    else if status == "processing" then Processing
    else if status == "shipped" then Shipped
    else if status == "delivered" then Delivered
    else if status == "cancelled" then Cancelled
    else OtherStatus
  }

  /** Each entry is named by its own status only, and every other string falls to the default. */
  lemma StatusOfNames(status: string)
    ensures StatusOf(status) == Pending <==> status == "pending"
    ensures StatusOf(status) == Processing <==> status == "processing"
    ensures StatusOf(status) == Shipped <==> status == "shipped"
    ensures StatusOf(status) == Delivered <==> status == "delivered"
    ensures StatusOf(status) == Cancelled <==> status == "cancelled"
    ensures StatusOf(status) == OtherStatus <==> status !in {"pending", "processing", "shipped", "delivered", "cancelled"}
  {
    assert "pending"[0] != "shipped"[0];
    assert "delivered"[0] != "cancelled"[0];
  }

  predicate KnownStatus(status: string)
  {
    StatusOf(status) != OtherStatus
  }

  /** `getOrderStatusMessage`: the sentence for each known status, a fixed one otherwise. */
  function GetOrderStatusMessage(order: Order, fmt: DateFormatter): string
  {
    match StatusOf(order.status)
    case Pending => "Your order is being processed and will be shipped soon."
    case Processing => "Your order is being prepared for shipment."
    case Shipped =>
      "Your order has been shipped"
      + (if Truthy(order.trackingNumber) then " with tracking number " + order.trackingNumber.value else "")
      + ". Expected delivery: " + fmt(order.estimatedDelivery) + "."
    case Delivered => "Your order was delivered on " + fmt(order.deliveredDate) + "."
    case Cancelled =>
      "Your order was cancelled" + (if Truthy(order.cancelReason) then ": " + order.cancelReason.value else ".")
    case OtherStatus => "Order status unknown."
  }

  /**
   * The shipped sentence names the tracking number when there is one, and
   * goes straight on to the expected delivery date otherwise.
   */
  lemma ShippedTrackingClause(order: Order, fmt: DateFormatter, m: string)
    requires order.status == "shipped" && m == GetOrderStatusMessage(order, fmt)
    ensures Truthy(order.trackingNumber) ==> Contains(m, " with tracking number " + order.trackingNumber.value)
    ensures !Truthy(order.trackingNumber) ==> |m| > 27 && m[27] == '.'
  {
    StatusOfNames(order.status);
    if Truthy(order.trackingNumber) {
      var clause := " with tracking number " + order.trackingNumber.value;
      var head := "Your order has been shipped" + clause + ". Expected delivery: ";
      var date := fmt(order.estimatedDelivery);
      ContainsSelf(clause);
      ContainsPrepend("Your order has been shipped", clause, clause);
      ContainsAppend("Your order has been shipped" + clause, ". Expected delivery: ", clause);
      ContainsAppend(head, date, clause);
      ContainsAppend(head + date, ".", clause);
    }
  }

  /** The shipped sentence gives the expected delivery date. */
  lemma ShippedDeliveryDate(order: Order, fmt: DateFormatter, m: string)
    requires order.status == "shipped" && m == GetOrderStatusMessage(order, fmt)
    ensures Contains(m, fmt(order.estimatedDelivery))
  {
    StatusOfNames(order.status);
    var clause := if Truthy(order.trackingNumber) then " with tracking number " + order.trackingNumber.value else "";
    var head := "Your order has been shipped" + clause + ". Expected delivery: ";
    var date := fmt(order.estimatedDelivery);
    ContainsSelf(date);
    ContainsPrepend(head, date, date);
    ContainsAppend(head + date, ".", date);
  }

  /** The delivered sentence gives the delivery date. */
  lemma DeliveredStatusMessage(order: Order, fmt: DateFormatter, m: string)
    requires order.status == "delivered" && m == GetOrderStatusMessage(order, fmt)
    ensures Contains(m, fmt(order.deliveredDate))
  {
    StatusOfNames(order.status);
    var date := fmt(order.deliveredDate);
    ContainsSelf(date);
    ContainsPrepend("Your order was delivered on ", date, date);
    ContainsAppend("Your order was delivered on " + date, ".", date);
  }

  /** The cancelled sentence ends in the reason when there is one, and in a full stop otherwise. */
  lemma CancelledStatusMessage(order: Order, fmt: DateFormatter)
    requires order.status == "cancelled"
    ensures Truthy(order.cancelReason) ==>
              GetOrderStatusMessage(order, fmt) == "Your order was cancelled" + ": " + order.cancelReason.value
    ensures !Truthy(order.cancelReason) ==> GetOrderStatusMessage(order, fmt) == "Your order was cancelled" + "."
  {
    StatusOfNames(order.status);
  }

  /** Every sentence of a known status is longer than the default sentence "Order status unknown.". */
  lemma KnownStatusSentence(order: Order, fmt: DateFormatter, m: string)
    requires KnownStatus(order.status) && m == GetOrderStatusMessage(order, fmt)
    ensures |m| > |"Order status unknown."|
  {
  }

  /**
   * The lookup is total with a default: the fixed sentence "Order status
   * unknown." is given exactly for the statuses outside the five known ones.
   */
  lemma UnknownStatusMessage(order: Order, fmt: DateFormatter)
    ensures GetOrderStatusMessage(order, fmt) == "Order status unknown."
            <==> order.status !in {"pending", "processing", "shipped", "delivered", "cancelled"}
  {
    StatusOfNames(order.status);
    if KnownStatus(order.status) {
      KnownStatusSentence(order, fmt, GetOrderStatusMessage(order, fmt));
    }
  }

  // ---------------------------------------------------------------------------
  // Handlers

  const OrderHelpMessage: string :=
    "To check your order status, please provide your 5-digit order ID (e.g., \"What's the status of order 12345?\")."

  /** The `order_status` data: the order's fields and its status sentence. */
  function OrderStatusInfo(order: Order, fmt: DateFormatter): OrderStatusData
  {
    OrderStatusData(order.id, order.status, order.customerName, order.items, order.total,
                    order.trackingNumber, order.estimatedDelivery, order.deliveredDate,
                    GetOrderStatusMessage(order, fmt))
  }

  /** `handleOrderQuery`: the first five-digit token of the original query picks the order. */
  function HandleOrderQuery(query: string, orders: seq<Order>, fmt: DateFormatter): Reply
  {
    match FindFiveDigitToken(query)
    case None => Reply(OrderHelp, true, NoData, OrderHelpMessage, None)
    case Some(i) =>
      var orderId := query[i..i + 5];
      match OrderWithId(orders, orderId)
      case Some(order) =>
        Reply(OrderStatus, true, OrderInfo(OrderStatusInfo(order, fmt)),
              "Here's the status for order " + orderId + ":", None)
      case None =>
        Reply(OrderNotFound, false, NoData,
              "I couldn't find an order with ID " + orderId + ". Please check the order number and try again.", None)
  }

  /**
   * The three outcomes of the order handler: help when the query has no
   * five-digit token; otherwise, with `t` the first such token, the status of
   * the stored order whose id is `t`, or a failure naming `t` when there is
   * none.
   */
  lemma OrderHandlerOutcomes(query: string, orders: seq<Order>, fmt: DateFormatter, r: Reply)
    requires r == HandleOrderQuery(query, orders, fmt)
    ensures r.kind in {OrderHelp, OrderStatus, OrderNotFound}
    ensures r.kind == OrderHelp <==> forall i :: !FiveDigitTokenAt(query, i)
    ensures r.kind == OrderHelp ==> r.success && r.message == OrderHelpMessage
    ensures r.kind != OrderHelp ==> FirstOrderIdHandled(query, orders, fmt, r)
  {
    match FindFiveDigitToken(query)
    case None =>
    case Some(i) =>
      var t := query[i..i + 5];
      if OrderWithId(orders, t).None? {
        ContainsPiece("I couldn't find an order with ID ", t, ". Please check the order number and try again.");
      }
  }

  /**
   * The reply for a query whose first five-digit token is `t`: the status of
   * the stored order whose id is `t` when there is one, and otherwise a
   * failure whose message names `t`.
   */
  predicate FirstOrderIdHandled(query: string, orders: seq<Order>, fmt: DateFormatter, r: Reply)
  {
    && FindFiveDigitToken(query).Some?
    && var i := FindFiveDigitToken(query).value;
    && i + 5 <= |query|
    && var t := query[i..i + 5];
    && AllDigits(t)
    && (r.kind == OrderStatus <==> exists o :: o in orders && o.id == t)
    && (r.kind == OrderStatus ==>
          && r.success && r.data.OrderInfo? && r.data.info.orderId == t
          && exists o :: o in orders && o.id == t && r.data.info == OrderStatusInfo(o, fmt))
    && (r.kind == OrderNotFound ==> !r.success && Contains(r.message, t))
  }

  const StockHelpMessage: string :=
    "I couldn't identify the specific product. Please try asking like \"How many Classic T-Shirts are left in stock?\""

  /** Some word of the product's lowered name, split on spaces, occurs in the lowered query. */
  predicate NameWordInQuery(p: Product, lowerQuery: string)
  {
    MentionsAny(lowerQuery, Split(Lower(p.name), ' '))
  }

  /** The reply for a product found by the stock handler. */
  function StockCheckReply(p: Product): Reply
  {
    Reply(StockCheck, true, StockInfo(p, p.stock, p.stock > 0, p.stock < 10),
          p.name + " has " + IntToString(p.stock) + " items in stock." + (if p.stock < 10 then " (Low stock!)" else ""),
          None)
  }

  /** What `handleStockQuery` answers: the first product, in store order, with a name word in the query. */
  function StockReply(products: seq<Product>, lowerQuery: string): Reply
  {
    match Find(products, (p: Product) => NameWordInQuery(p, lowerQuery))
    case Some(p) => StockCheckReply(p)
    case None => Reply(StockHelp, false, NoData, StockHelpMessage, None)
  }

  /** `handleStockQuery`: scans the products in order and stops at the first whose name shares a word with the query. */
  method HandleStockQuery(products: seq<Product>, lowerQuery: string) returns (r: Reply)
    ensures r == StockReply(products, lowerQuery)
  {
    var found: Option<Product> := None;
    var k := 0;
    while k < |products|
      invariant 0 <= k <= |products|
      invariant forall j :: 0 <= j < k ==> !NameWordInQuery(products[j], lowerQuery)
    {
      if NameWordInQuery(products[k], lowerQuery) {
        found := Some(products[k]);
        break;
      }
      k := k + 1;
    }
    var pick := (p: Product) => NameWordInQuery(p, lowerQuery);
    if found.Some? {
      assert k < |products| && pick(products[k]);
      assert FindFirst(products, pick) == Some(k);
      r := StockCheckReply(found.value);
    } else {
      assert FindFirst(products, pick).None?;
      r := Reply(StockHelp, false, NoData, StockHelpMessage, None);
    }
  }

  /**
   * The stock handler's answer: the product it reports is the first one in
   * store order having a name word in the query, no earlier product has one,
   * and if none has one the answer is `stock_help` and a failure.  The flags
   * are `stock > 0` and `stock < 10`, and the message ends in " (Low stock!)"
   * exactly when `stock < 10`.
   */
  lemma StockReplyFirstMatch(products: seq<Product>, lowerQuery: string, r: Reply)
    requires r == StockReply(products, lowerQuery)
    ensures r.kind == StockHelp <==> forall j :: 0 <= j < |products| ==> !NameWordInQuery(products[j], lowerQuery)
    ensures r.kind == StockHelp ==> !r.success
    ensures r.kind != StockHelp ==>
              && r.kind == StockCheck && r.success && r.data.StockInfo?
              && exists j :: 0 <= j < |products| && products[j] == r.data.product
                   && NameWordInQuery(products[j], lowerQuery)
                   && forall e :: 0 <= e < j ==> !NameWordInQuery(products[e], lowerQuery)
  {
  }

  lemma StockCheckFlags(p: Product, r: Reply)
    requires r == StockCheckReply(p)
    ensures r.data.StockInfo? && r.data.product == p && r.data.stock == p.stock
    ensures r.data.inStock <==> p.stock > 0
    ensures r.data.lowStock <==> p.stock < 10
    ensures EndsWith(r.message, " (Low stock!)") <==> p.stock < 10
  {
    var base := p.name + " has " + IntToString(p.stock) + " items in stock.";
    if p.stock >= 10 {
      assert r.message == base;
      assert r.message[|r.message| - 1] == '.';
    } else {
      assert r.message == base + " (Low stock!)";
      assert r.message[|r.message| - |" (Low stock!)"|..] == " (Low stock!)";
    }
  }

  /** `parseInt` of the first number standing alone in the query, or 5 without one. */
  function TopProductsLimit(query: string): nat
  {
    match FindNumberToken(query)
    case None => 5
    case Some(span) => DecimalValue(query[span.start..span.end])
  }

  /** What `handleTopProductsQuery` answers: the best sellers, at most ten. */
  function TopProductsReply(query: string, products: seq<Product>): Reply
  {
    var top := TopBySold(products, Min(TopProductsLimit(query), 10));
    Reply(TopProducts, true, ProductList(top), "Here are the top " + NatToString(|top|) + " most sold products:", None)
  }

  /** `handleTopProductsQuery`: sorts the freshly loaded array in place and slices off its front. */
  method HandleTopProductsQuery(query: string, products: seq<Product>) returns (r: Reply)
    ensures r == TopProductsReply(query, products)
  {
    var loaded := new Product[|products|](i requires 0 <= i < |products| => products[i]);
    assert loaded[..] == products;
    SortBySoldInPlace(loaded);
    var limit := TopProductsLimit(query);
    var top := loaded[..Min(Min(limit, 10), loaded.Length)];
    r := Reply(TopProducts, true, ProductList(top), "Here are the top " + NatToString(|top|) + " most sold products:", None);
  }

  /**
   * The top-products answer always succeeds; its list is the front of the
   * sales ranking, `min(limit, 10, |products|)` long, in descending order of
   * `sold`, with no product left out that sold more than one kept; the limit
   * is 5 when the query holds no number.
   */
  lemma TopProductsProperties(query: string, products: seq<Product>, r: Reply)
    requires r == TopProductsReply(query, products)
    ensures r.kind == TopProducts && r.success && r.data.ProductList?
    ensures |r.data.products| == Min(Min(TopProductsLimit(query), 10), |products|) <= 10
    ensures |SortBySold(products)| == |products| && r.data.products == SortBySold(products)[..|r.data.products|]
    ensures SortedBySold(r.data.products)
    ensures multiset(r.data.products) <= multiset(products)
    ensures forall p, q :: p in r.data.products && q in products && q !in r.data.products ==> p.sold >= q.sold
    ensures FindNumberToken(query).None? ==> TopProductsLimit(query) == 5
  {
    SortBySoldSorted(products);
    TopBySoldFromStore(products, Min(TopProductsLimit(query), 10));
    TopBySoldIsTop(products, Min(TopProductsLimit(query), 10));
  }

  const StopWords: seq<string> := ["show", "find", "search", "look for", "what", "which", "me", "the", "a", "an"]

  const SearchHelpMessage: string :=
    "What would you like to search for? Try asking like \"Show me dresses\" or \"Find running shoes\"."

  /** The words of the lowered query, split on spaces, that are not stop words. */
  function SearchTerms(lowerQuery: string): (terms: seq<string>)
    ensures forall k :: 0 <= k < |terms| ==> terms[k] in Split(lowerQuery, ' ') && terms[k] !in StopWords
    ensures forall k :: 0 <= k < |Split(lowerQuery, ' ')| && Split(lowerQuery, ' ')[k] !in StopWords ==>
              Split(lowerQuery, ' ')[k] in terms
  {
    Filter(Split(lowerQuery, ' '), (w: string) => w !in StopWords)
  }

  /** What `handleProductSearchQuery` answers. */
  function SearchReply(lowerQuery: string, products: seq<Product>): Reply
  {
    var terms := SearchTerms(lowerQuery);
    if |terms| == 0 then Reply(SearchHelp, false, NoData, SearchHelpMessage, None)
    else SearchResults(Join(terms, ' '), products)
  }

  /** The search handler's answer once it has a term. */
  function SearchResults(term: string, products: seq<Product>): Reply
  {
    var found := MatchingProducts(products, term);
    if |found| > 0 then
      Reply(ProductSearch, true, ProductList(found[..Min(8, |found|)]), FoundMessage(|found|, term), Some(term))
    else
      Reply(NoResults, false, NoData,
            "I couldn't find any products matching \"" + term
            + "\". Try searching for items like \"shirts\", \"jeans\", \"shoes\", or \"jackets\".", None)
  }

  /** Every word of the query, split on spaces, is a stop word. */
  predicate OnlyStopWords(lowerQuery: string)
  {
    forall k :: 0 <= k < |Split(lowerQuery, ' ')| ==> Split(lowerQuery, ' ')[k] in StopWords
  }

  /** The message of a successful search. */
  function FoundMessage(count: nat, term: string): string
  {
    "I found " + NatToString(count) + " products matching \"" + term + "\":"
  }

  /** The message gives the number of matches and the term. */
  lemma FoundMessageNames(count: nat, term: string)
    ensures Contains(FoundMessage(count, term), NatToString(count))
    ensures Contains(FoundMessage(count, term), term)
  {
    var n := NatToString(count);
    var head := "I found " + n + " products matching \"";
    ContainsSelf(n);
    ContainsPrepend("I found ", n, n);
    ContainsAppend("I found " + n, " products matching \"", n);
    ContainsAppend(head, term, n);
    ContainsAppend(head + term, "\":", n);
    ContainsSelf(term);
    ContainsPrepend(head, term, term);
    ContainsAppend(head + term, "\":", term);
  }

  /** The search asks for a term exactly when every word of the query is a stop word, and then fails. */
  lemma SearchHelpExactly(lowerQuery: string, products: seq<Product>)
    ensures SearchReply(lowerQuery, products).kind == SearchHelp <==> OnlyStopWords(lowerQuery)
    ensures SearchReply(lowerQuery, products).kind == SearchHelp ==> !SearchReply(lowerQuery, products).success
  {
    var words := Split(lowerQuery, ' ');
    var terms := SearchTerms(lowerQuery);
    if |terms| > 0 {
      assert terms[0] in words && terms[0] !in StopWords;
      var k :| 0 <= k < |words| && words[k] == terms[0];
      assert SearchResults(Join(terms, ' '), products).kind != SearchHelp;
    } else {
      assert forall k :: 0 <= k < |words| && words[k] !in StopWords ==> words[k] in terms;
    }
  }

  /**
   * With a search term (the words that are not stop words, joined by
   * spaces): the list is the first (at most eight) products, in store order,
   * that match the term, the message gives the number of all matches, and
   * `no_results` means that no product matches.
   */
  lemma SearchResultsProperties(term: string, products: seq<Product>, r: Reply, found: seq<Product>)
    requires r == SearchResults(term, products) && found == MatchingProducts(products, term)
    ensures r.kind in {ProductSearch, NoResults}
    ensures r.kind == ProductSearch <==> exists p :: p in products && ProductMatches(p, term)
    ensures r.kind == ProductSearch ==>
              && r.success && r.searchTerm == Some(term)
              && r.data == ProductList(found[..Min(8, |found|)])
              && |r.data.products| <= 8
              && r.message == FoundMessage(|found|, term)
    ensures r.kind == NoResults ==> !r.success
  {
    if |found| > 0 {
      assert found[0] in found;
    }
  }

  /**
   * The stop word "look for" can never be removed: the query is split on
   * single spaces, so no word contains a space.
   */
  lemma LookForNeverRemoved(lowerQuery: string)
    ensures forall k :: 0 <= k < |Split(lowerQuery, ' ')| ==> Split(lowerQuery, ' ')[k] != "look for"
  {
    var words := Split(lowerQuery, ' ');
    forall k | 0 <= k < |words| ensures words[k] != "look for" {
      assert "look for"[4] == ' ';
    }
  }

  const GreetingMessage: string :=
    "Hello! I'm your customer support assistant. I can help you with:\n\n"
    + "• Check order status (e.g., \"Status of order 12345\")\n"
    + "• Check product stock (e.g., \"How many Classic T-Shirts are left?\")\n"
    + "• Find top selling products (e.g., \"Show me top 5 products\")\n"
    + "• Search for products (e.g., \"Find running shoes\")\n\n"
    + "How can I assist you today?"

  const UnknownMessage: string :=
    "I'm sorry, I didn't understand that request. I can help you with order status, product stock, "
    + "top products, and product searches. Try asking something like:\n\n"
    + "• \"What's the status of order 12345?\"\n"
    + "• \"How many Classic T-Shirts are in stock?\"\n"
    + "• \"Show me the top 5 products\"\n"
    + "• \"Find summer dresses\""

  /** `handleGreeting`. */
  const GreetingReply: Reply := Reply(Greeting, true, NoData, GreetingMessage, None)

  /** `handleUnknownQuery`. */
  const UnknownReply: Reply := Reply(Unknown, false, NoData, UnknownMessage, None)

  // ---------------------------------------------------------------------------
  // processQuery

  /** What `processQuery` answers for a query, given the store snapshot. */
  function Respond(query: string, products: seq<Product>, orders: seq<Order>, fmt: DateFormatter): Reply
  {
    var lower := Lower(query);
    match Classify(lower)
    case OrderIntent => HandleOrderQuery(query, orders, fmt)
    case StockIntent => StockReply(products, lower)
    case TopProductsIntent => TopProductsReply(query, products)
    case SearchIntent => SearchReply(lower, products)
    case GreetingIntent => GreetingReply
    case UnknownIntent => UnknownReply
  }

  /** `processQuery`: the tests in priority order, each handing over to its handler. */
  method ProcessQuery(query: string, products: seq<Product>, orders: seq<Order>, fmt: DateFormatter)
    returns (r: Reply)
    ensures r == Respond(query, products, orders, fmt)
  {
    var lower := Lower(query);
    if IsOrderQuery(lower) {
      assert Classify(lower) == OrderIntent;
      r := HandleOrderQuery(query, orders, fmt);
    } else if IsStockQuery(lower) {
      assert Classify(lower) == StockIntent;
      r := HandleStockQuery(products, lower);
    } else if IsTopProductsQuery(lower) {
      assert Classify(lower) == TopProductsIntent;
      r := HandleTopProductsQuery(query, products);
    } else if IsProductSearchQuery(lower) {
      assert Classify(lower) == SearchIntent;
      r := SearchReply(lower, products);
    } else if IsGreetingOrHelp(lower) {
      assert Classify(lower) == GreetingIntent;
      r := GreetingReply;
    } else {
      assert Classify(lower) == UnknownIntent;
      r := UnknownReply;
    }
  }

  /** The family of reply types each intent's handler can produce. */
  predicate ReplyOf(intent: Intent, t: ReplyType)
  {
    match intent
    case OrderIntent => t in {OrderStatus, OrderNotFound, OrderHelp}
    case StockIntent => t in {StockCheck, StockHelp}
    case TopProductsIntent => t == TopProducts
    case SearchIntent => t in {ProductSearch, SearchHelp, NoResults}
    case GreetingIntent => t == Greeting
    case UnknownIntent => t == Unknown
  }

  /**
   * Priority dispatch, end to end: the reply comes from the handler of the
   * classified intent, so its type tells which intent won, and an order
   * query is answered as one whatever else it mentions.
   */
  lemma RespondDispatch(query: string, products: seq<Product>, orders: seq<Order>, fmt: DateFormatter, r: Reply)
    requires r == Respond(query, products, orders, fmt)
    ensures ReplyOf(Classify(Lower(query)), r.kind)
    ensures IsOrderQuery(Lower(query)) ==> r == HandleOrderQuery(query, orders, fmt)
  {
    var lower := Lower(query);
    match Classify(lower)
    case OrderIntent => OrderHandlerOutcomes(query, orders, fmt, r);
    case StockIntent =>
    case TopProductsIntent =>
    case SearchIntent =>
      if |SearchTerms(lower)| > 0 {
        var term := Join(SearchTerms(lower), ' ');
        SearchResultsProperties(term, products, r, MatchingProducts(products, term));
      }
    case GreetingIntent =>
    case UnknownIntent =>
  }

  /** Each reply type belongs to one intent only, so the type of the reply names the intent that won. */
  lemma ReplyTypeNamesIntent(i: Intent, j: Intent, t: ReplyType)
    requires ReplyOf(i, t) && ReplyOf(j, t)
    ensures i == j
  {
  }

  /** The reply is `unknown`, and a failure, exactly when none of the five tests detects the lowered query. */
  lemma UnknownExactly(query: string, products: seq<Product>, orders: seq<Order>, fmt: DateFormatter, r: Reply)
    requires r == Respond(query, products, orders, fmt)
    ensures r.kind == Unknown <==> forall k :: 0 <= k < |Priority| ==> !Detects(Priority[k], Lower(query))
    ensures r.kind == Unknown ==> !r.success
  {
    RespondDispatch(query, products, orders, fmt, r);
    ClassifyIsFirstMatch(Lower(query));
  }

  /**
   * The greeting is the answer exactly when the lowered query mentions a
   * greeting word and none of the four earlier tests holds; it is a success
   * and carries the fixed greeting text.
   */
  lemma GreetingExactly(query: string, products: seq<Product>, orders: seq<Order>, fmt: DateFormatter, r: Reply)
    requires r == Respond(query, products, orders, fmt)
    ensures r.kind == Greeting <==>
              IsGreetingOrHelp(Lower(query)) && !IsOrderQuery(Lower(query)) && !IsStockQuery(Lower(query))
              && !IsTopProductsQuery(Lower(query)) && !IsProductSearchQuery(Lower(query))
    ensures r.kind == Greeting ==> r.success && r.message == GreetingMessage
  {
    RespondDispatch(query, products, orders, fmt, r);
  }

  /** The empty string mentions no keyword of a list of non-empty keywords. */
  lemma EmptyMentionsNothing(keywords: seq<string>)
    requires forall k :: 0 <= k < |keywords| ==> |keywords[k]| > 0
    ensures !MentionsAny("", keywords)
  {
    forall k | 0 <= k < |keywords|
      ensures !Contains("", keywords[k])
    {
      ContainsInEmpty(keywords[k]);
    }
  }

  /** The empty query (what a whitespace-only message becomes once trimmed) mentions nothing and is `unknown`. */
  lemma EmptyQueryIsUnknown(products: seq<Product>, orders: seq<Order>, fmt: DateFormatter)
    ensures Respond("", products, orders, fmt) == UnknownReply
  {
    assert Lower("") == "";
    EmptyMentionsNothing(OrderKeywords);
    EmptyMentionsNothing(StockKeywords);
    EmptyMentionsNothing(TopKeywords);
    EmptyMentionsNothing(SearchKeywords);
    EmptyMentionsNothing(GreetingKeywords);
    assert FindFiveDigitToken("").None?;
    assert Classify("") == UnknownIntent;
  }
}
