/**
 * The chatbot routes (`/api/chatbot/...`): `POST /query` checks the request's
 * `message`, hands its trimmed text to the controller and merges the reply
 * into the response; `GET /suggestions` picks five of a fixed list of
 * example questions in a random order.
 */
module ChatbotRoutes {
  import opened Wrappers
  import opened Text
  import opened Store
  import opened ChatbotController

  /** The `message` field of the request body, as far as the route looks at it. */
  datatype MessageField = Absent | StringValue(text: string) | OtherValue

  /** The 400 message of `POST /query`. */
  const InvalidMessage: string := "Please provide a valid message"

  /**
   * The response of `POST /query`: `{ success: true, query, timestamp, ...reply }`.
   * The spread comes last, so the reply's own `success` replaces the `true`.
   */
  datatype QueryBody = QueryBody(success: bool, query: string, timestamp: string, reply: Reply)

  /**
   * `POST /query`.  A missing, empty or non-string message is refused before
   * the controller runs; `timestamp` is the ISO time of the request.
   */
  function QueryRoute(message: MessageField, products: seq<Product>, orders: seq<Order>,
                      fmt: DateFormatter, timestamp: string): RouteResult<QueryBody>
  {
    match message
    case StringValue(m) =>
      if m == "" then BadRequest(InvalidMessage)
      else
        var reply := Respond(Trim(m), products, orders, fmt);
        Ok(QueryBody(reply.success, m, timestamp, reply))
    case _ => BadRequest(InvalidMessage)
  }

  /**
   * Exactly the non-empty strings pass the check; the response echoes the
   * message as sent, and its `success` is the handler's, not the route's.
   */
  lemma QueryRouteOutcome(message: MessageField, products: seq<Product>, orders: seq<Order>,
                          fmt: DateFormatter, timestamp: string, r: RouteResult<QueryBody>)
    requires r == QueryRoute(message, products, orders, fmt, timestamp)
    ensures r.Ok? || r.BadRequest?
    ensures r.BadRequest? <==> !(message.StringValue? && message.text != "")
    ensures r.BadRequest? ==> r.message == InvalidMessage
    ensures r.Ok? ==> r.body.query == message.text && r.body.timestamp == timestamp
    ensures r.Ok? ==> r.body.reply == Respond(Trim(message.text), products, orders, fmt)
    ensures r.Ok? ==> r.body.success == r.body.reply.success
  {
  }

  /** A message of whitespace only passes the check and is answered as not understood. */
  lemma WhitespaceMessageIsUnknown(m: string, products: seq<Product>, orders: seq<Order>,
                                   fmt: DateFormatter, timestamp: string)
    requires m != "" && forall k :: 0 <= k < |m| ==> IsJsWhitespace(m[k])
    ensures QueryRoute(StringValue(m), products, orders, fmt, timestamp).Ok?
    ensures QueryRoute(StringValue(m), products, orders, fmt, timestamp).body.reply == UnknownReply
    ensures !QueryRoute(StringValue(m), products, orders, fmt, timestamp).body.success
  {
    TrimEmpty(m);
    EmptyQueryIsUnknown(products, orders, fmt);
  }

  /**
   * Whitespace around a message changes only the echoed `query`: the reply is
   * the one for the bare message.
   */
  lemma SurroundingWhitespaceIgnored(before: string, m: string, after: string, products: seq<Product>,
                                     orders: seq<Order>, fmt: DateFormatter, timestamp: string)
    requires m != "" && !IsJsWhitespace(m[0]) && !IsJsWhitespace(m[|m| - 1])
    requires forall k :: 0 <= k < |before| ==> IsJsWhitespace(before[k])
    requires forall k :: 0 <= k < |after| ==> IsJsWhitespace(after[k])
    ensures QueryRoute(StringValue(before + m + after), products, orders, fmt, timestamp).Ok?
    ensures QueryRoute(StringValue(before + m + after), products, orders, fmt, timestamp).body.reply
         == QueryRoute(StringValue(m), products, orders, fmt, timestamp).body.reply
  {
    TrimAround(before, m, after);
    TrimKeeps(m);
    assert Trim(before + m + after) == Trim(m);
  }

  // ---------------------------------------------------------------------------
  // Suggestions

  /** The example questions `GET /suggestions` chooses from. */
  const Suggestions: seq<string> := [
    "What's the status of order 12345?",
    "Show me the top 5 most sold products",
    "How many Classic T-Shirts are left in stock?",
    "Find summer dresses",
    "Search for running shoes",
    "Check stock for Hoodie Sweatshirt",
    "What are the most popular products?",
    "Track my order",
    "Show me jackets",
    "Help me find yoga pants"
  ]

  predicate Distinct(s: seq<string>)
  {
    forall i, j :: 0 <= i < j < |s| ==> s[i] != s[j]
  }

  /** No question is listed twice. */
  lemma SuggestionsDistinct()
    ensures |Suggestions| == 10 && Distinct(Suggestions)
  {
    assert Suggestions[0][0] != Suggestions[5][0];
    forall i, j | 0 <= i < j < 10 && !(i == 0 && j == 5)
      ensures Suggestions[i] != Suggestions[j]
    {
      assert |Suggestions[i]| != |Suggestions[j]|;
    }
  }

  /**
   * `sort(() => 0.5 - Math.random())`: a comparator that answers at random
   * leaves the elements in some order nobody can predict.  Here that order is
   * reached by swapping each position with a freely chosen later one, which
   * can produce every order.
   */
  method ShuffleInPlace(a: array<string>)
    modifies a
    ensures multiset(a[..]) == multiset(old(a[..]))
    ensures Distinct(old(a[..])) ==> Distinct(a[..])
  {
    var i := 0;
    while i < a.Length
      invariant 0 <= i <= a.Length
      invariant multiset(a[..]) == multiset(old(a[..]))
      invariant Distinct(old(a[..])) ==> Distinct(a[..])
    {
      var j :| i <= j < a.Length;
      ghost var before := a[..];
      a[i], a[j] := a[j], a[i];
      SwapKeepsDistinct(before, a[..], i, j);
      i := i + 1;
    }
  }

  lemma SwapKeepsDistinct(before: seq<string>, after: seq<string>, i: nat, j: nat)
    requires i < |before| && j < |before| && |after| == |before|
    requires after[i] == before[j] && after[j] == before[i]
    requires forall k :: 0 <= k < |before| && k != i && k != j ==> after[k] == before[k]
    ensures Distinct(before) ==> Distinct(after)
  {
    if Distinct(before) {
      forall x, y | 0 <= x < y < |after|
        ensures after[x] != after[y]
      {
        var fromX := if x == i then j else if x == j then i else x;
        var fromY := if y == i then j else if y == j then i else y;
        assert after[x] == before[fromX] && after[y] == before[fromY];
        assert fromX != fromY;
      }
    }
  }

  /** Shuffles a fresh array holding `list` and keeps its first `n` elements. */
  method ShuffledPrefix(list: seq<string>, n: nat) returns (picked: seq<string>)
    requires n <= |list|
    ensures |picked| == n
    ensures forall k :: 0 <= k < n ==> picked[k] in list
    ensures Distinct(list) ==> Distinct(picked)
  {
    var shuffled := new string[|list|](i requires 0 <= i < |list| => list[i]);
    assert shuffled[..] == list;
    ShuffleInPlace(shuffled);
    picked := shuffled[..n];
    forall k | 0 <= k < n
      ensures picked[k] in list
    {
      assert picked[k] == shuffled[..][k];
      assert picked[k] in multiset(shuffled[..]);
    }
  }

  /** `GET /suggestions`: five different questions of the list. */
  method SuggestionsRoute() returns (picked: seq<string>)
    ensures |picked| == 5
    ensures forall k :: 0 <= k < 5 ==> picked[k] in Suggestions
    ensures Distinct(picked)
  {
    SuggestionsDistinct();
    picked := ShuffledPrefix(Suggestions, 5);
  }
}
