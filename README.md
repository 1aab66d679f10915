# Customer-support chatbot: a Dafny model

This project models the backend of a small clothing-shop support chatbot,
together with the display rules of its product card.

- **Chatbot controller.** It classifies a free-text question as one of six
  intents: order status, stock check, top sellers, product search, greeting
  or unknown. It tests keyword lists in a fixed priority order and then
  answers from a snapshot of the product and order store.
- **Order and product routes.** These are the REST routes over the same
  store: look-ups by id, filters by customer, status and category, the top
  sellers, search, stock, and tracking.
- **Chatbot route.** It validates and trims the incoming message and merges
  the controller's reply into the response. It also picks five random
  suggestions from a fixed list.
- **Product card.** It computes the stock badge, the star string for a
  rating, the category label and icon, and the size and colour tags with a
  "+n" marker.

The modules follow the program:

| module | file | models |
|---|---|---|
| `Wrappers` | `wrappers.dfy` | `Option` and `RouteResult` (200 body, 404 or 400 message) |
| `Text` | `text.dfy` | `toLowerCase` and `toUpperCase` (ASCII only), `includes`, `split(' ')`, `join(' ')`, `trim`, and decimal numerals |
| `Tokens` | `tokens.dfy` | the regular expressions `\b\d{5}\b` and `\b(\d+)\b` as explicit predicates, plus `parseInt` |
| `Store` | `store.dfy` | product and order records, `find`, `filter`, the shared product-matching test |
| `Ranking` | `ranking.dfy` | `sort((a, b) => b.sold - a.sold)`, as a function and as an in-place insertion sort on an array |
| `ChatbotController` | `controller.dfy` | `processQuery`, the five intent tests, the handlers, and `getOrderStatusMessage` |
| `OrderRoutes` | `orders_routes.dfy` | the `/api/orders` routes and their own `getStatusMessage` |
| `ProductRoutes` | `products_routes.dfy` | the `/api/products` routes |
| `ChatbotRoutes` | `chatbot_routes.dfy` | `POST /api/chatbot/query` and `GET /api/chatbot/suggestions` |
| `ProductCard` | `product_card.dfy` | `getStockStatus`, `renderStars`, the category label and icon, and the tag rows |

How the model represents things:

- **Requests and the store.** Each request reads the store afresh. Here the
  store is a snapshot sequence passed in, and an unreadable file is the
  empty sequence.
- **Functions and methods.** Pure code is written as functions. Where the
  source changes state step by step, the model uses a method:
  - the stock scan's loop with `break`, proved equal to a function;
  - the in-place sorts of the top-sellers handler and route, proved equal
    to a function;
  - the two loops of `renderStars`, whose result is characterised symbol by
    symbol;
  - the suggestions shuffle. It makes nondeterministic choices, so it is
    proved only to permute the array and to keep distinct elements
    distinct, and no function gives its result.
- **Stable sort.** `Array.prototype.sort` is stable from ECMAScript 2019
  onwards. Products that sold equally therefore keep their store order, and
  the sort has a single result, `Ranking.SortBySold`.

Behaviours of the code that the model keeps and a reader might not
expect:

- Names and queries are split on single spaces (`split(' ')`). Tabs and
  newlines do not separate words, and a run of spaces gives empty words.
- `POST /query` refuses a missing, non-string or empty message with 400.
- The order routes' shipped sentence always has the tracking clause, with
  the text `undefined` when there is no tracking number. Only the chatbot
  drops the clause.
- A cancelled order with a reason reads "Your order was cancelled: reason",
  with no final period.
- An order id is a five-digit word (`\b\d{5}\b`). "123456" holds no
  order id.
- The product and order routes answer a missing id or name with 404.
- `/top/:limit` treats 0 and a non-number as 5 (`|| 5`), and a negative
  limit counts back from the end (`slice`). The chatbot's own limit has no
  such default for 0, and it caps the count at 10.

## Model

| member | source | states |
|---|---|---|
| Store.FindFirst | Backend/Controller/Controllerchot_bot.js:94 | `find` returns the first index whose element satisfies the test; no earlier element does; `None` exactly when none does |
| Store.Find | Backend/Routes/products.js:39 | the element found satisfies the test and no earlier one does; found exactly when some element satisfies it |
| Store.Filter | Backend/Routes/orders.js:73 | `filter` keeps only elements that satisfy the test, and every element that satisfies it is kept |
| Store.FilterAppend | Backend/Routes/orders.js:73 | filtering a concatenation is concatenating the filtered parts, so store order is kept |
| Store.FilterCount | Backend/Routes/orders.js:73 | a kept element keeps its multiplicity; a rejected one disappears |
| Store.MatchingProducts | Backend/Controller/Controllerchot_bot.js:201-206 | a product is listed exactly when its lowered name, category, description or some colour contains the term |
| Store.Interpolate | Backend/Routes/orders.js:153 | a template literal's text for an optional field, `undefined` when absent; its contract is stated by `OrderRoutes.ShippedWithoutTrackingSaysUndefined` |
| Store.OrderWithId | Backend/Controller/Controllerchot_bot.js:94 | an order is found exactly when some stored order has that id, and the one found has it |
| Text.Lower | Backend/Controller/Controllerchot_bot.js:29 | `toLowerCase` keeps the length and lowers each letter |
| Text.LowerIdempotent | Backend/Routes/orders.js:94-95 | lowering twice is lowering once |
| Text.LowerKeepsClasses | Backend/Controller/Controllerchot_bot.js:63 | lowering keeps digits and regex word characters as they are |
| Text.LowerAppend | Backend/Controller/Controllerchot_bot.js:29 | lowering distributes over concatenation |
| Text.Contains | Backend/Controller/Controllerchot_bot.js:64 | `includes` holds exactly when the text occurs at some position |
| Text.ContainsPiece | Backend/Controller/Controllerchot_bot.js:214 | a text contains any piece it is built around |
| Text.ContainsInEmpty | Backend/Controller/Controllerchot_bot.js:64 | the empty string contains only the empty string |
| Text.Join | Backend/Controller/Controllerchot_bot.js:200 | `join(' ')`; its contract is stated by `Text.Split` and `Text.SplitJoin` |
| Text.Split | Backend/Controller/Controllerchot_bot.js:189 | `split(' ')` gives at least one piece, no piece holds a space, and joining the pieces with spaces gives back the text |
| Text.SplitJoin | Backend/Controller/Controllerchot_bot.js:189-200 | splitting a space-joined list of space-free words gives back the words |
| Text.TrimStart | Backend/Routes/chatbot.js:17 | what is dropped is whitespace, and what is kept starts with non-whitespace |
| Text.TrimEnd | Backend/Routes/chatbot.js:17 | what is dropped is whitespace, and what is kept ends with non-whitespace |
| Text.Trim | Backend/Routes/chatbot.js:17 | `trim` drops leading and trailing JavaScript whitespace; its contract is stated by `Text.TrimEmpty` and `Text.TrimAround`, and `TrimStart`/`TrimEnd` state each side |
| Text.TrimEmpty | Backend/Routes/chatbot.js:17 | `trim` gives the empty string exactly for whitespace-only text |
| Text.TrimAround | Backend/Routes/chatbot.js:17 | `trim` removes exactly the whitespace around a text that neither starts nor ends with whitespace |
| Text.IntToString | Backend/Controller/Controllerchot_bot.js:154 | `${stock}` for an integer: a minus sign before the numeral of a negative value, the numeral of `Text.NatToString` otherwise; `Tokens.ParseIntOfIntToString` states that `parseInt` reads it back |
| Text.NatToString | Backend/Controller/Controllerchot_bot.js:180 | a number prints as a digit string of that value, without leading zeros |
| Tokens.FindFiveDigitToken | Backend/Controller/Controllerchot_bot.js:89 | `\b(\d{5})\b` finds the leftmost five-digit word; no match exactly when there is none |
| Tokens.FiveDigitTokenIgnoresCase | Backend/Controller/Controllerchot_bot.js:63-64 | the order-id test on the lowered query and the match on the original query find the same id |
| Tokens.FindNumberToken | Backend/Controller/Controllerchot_bot.js:169 | `\b(\d+)\b` finds the leftmost digit word, whole; no match exactly when there is none |
| Tokens.FiveDigitTokenIsNumberToken | Backend/Controller/Controllerchot_bot.js:169 | a query with an order id also has a number, starting no later |
| Tokens.ParseInt | Backend/Routes/products.js:65 | `parseInt` skips leading whitespace, takes a sign and the longest digit prefix, and is `None` (`NaN`) without digits; its contract is stated by `Tokens.ParseIntOfIntToString` |
| Tokens.ParseIntOfIntToString | Backend/Routes/products.js:65 | `parseInt` of a printed integer is that integer |
| Ranking.SortBySold | Backend/Controller/Controllerchot_bot.js:172-173 | the stable descending sort by `sold`; its contract is stated by `Ranking.SortBySoldSorted`, and `Ranking.SortBySoldInPlace` is proved equal to it |
| Ranking.SortBySoldSorted | Backend/Controller/Controllerchot_bot.js:172-173 | the sort puts products in descending order of `sold` and is a permutation |
| Ranking.InsertBySoldSorted | Backend/Controller/Controllerchot_bot.js:173 | inserting into a sorted list keeps it sorted |
| Ranking.InsertBySoldMultiset | Backend/Controller/Controllerchot_bot.js:173 | inserting adds exactly the inserted element |
| Ranking.InsertIntoPrefix | Backend/Controller/Controllerchot_bot.js:173 | one in-place step moves the next element into the sorted front part and leaves the rest alone |
| Ranking.SortBySoldInPlace | Backend/Controller/Controllerchot_bot.js:172-173 | the in-place sort leaves the array holding the stable descending sort of its old contents |
| Ranking.TopBySold | Backend/Controller/Controllerchot_bot.js:174 | `slice(0, n)` of the ranking holds `min(n, count)` products |
| Ranking.TopBySoldFromStore | Backend/Controller/Controllerchot_bot.js:172-174 | the top list is sorted and drawn from the store |
| Ranking.TopBySoldIsTop | Backend/Controller/Controllerchot_bot.js:172-174 | every product left out sold no more than any product listed |
| ChatbotController.MentionsAny | Backend/Controller/Controllerchot_bot.js:64 | `keywords.some(keyword => query.includes(keyword))`: some keyword occurs in the query; its contract is stated by `ChatbotController.ClassifyIsFirstMatch` and `ChatbotController.EmptyMentionsNothing` |
| ChatbotController.IsOrderQuery | Backend/Controller/Controllerchot_bot.js:61-65 | `isOrderQuery`: an order keyword or a five-digit word; its contract is stated by `ChatbotController.ClassifyIsFirstMatch`, with the five-digit word characterised by `Tokens.FindFiveDigitToken` |
| ChatbotController.IsStockQuery | Backend/Controller/Controllerchot_bot.js:67-70 | `isStockQuery`: a stock keyword; its contract is stated by `ChatbotController.ClassifyIsFirstMatch` |
| ChatbotController.IsTopProductsQuery | Backend/Controller/Controllerchot_bot.js:72-75 | `isTopProductsQuery`: a top-sellers keyword; its contract is stated by `ChatbotController.ClassifyIsFirstMatch` |
| ChatbotController.IsProductSearchQuery | Backend/Controller/Controllerchot_bot.js:77-80 | `isProductSearchQuery`: a search keyword; its contract is stated by `ChatbotController.ClassifyIsFirstMatch` |
| ChatbotController.IsGreetingOrHelp | Backend/Controller/Controllerchot_bot.js:82-85 | `isGreetingOrHelp`: a greeting keyword; its contract is stated by `ChatbotController.ClassifyIsFirstMatch` and `ChatbotController.GreetingExactly` |
| ChatbotController.Classify | Backend/Controller/Controllerchot_bot.js:28-58 | the tests of `processQuery` in priority order; its contract is stated by `ChatbotController.ClassifyIsFirstMatch` |
| ChatbotController.ClassifyIsFirstMatch | Backend/Controller/Controllerchot_bot.js:28-58 | the intent is the first of order, stock, top, search, greeting whose test holds; earlier tests fail; unknown exactly when all fail |
| ChatbotController.GetOrderStatusMessage | Backend/Controller/Controllerchot_bot.js:241-251 | the sentence for each of the five statuses and "Order status unknown." otherwise; its contract is stated by `StatusOfNames`, `ShippedTrackingClause`, `ShippedDeliveryDate`, `DeliveredStatusMessage`, `CancelledStatusMessage`, `KnownStatusSentence` and `UnknownStatusMessage` |
| ChatbotController.StatusOf | Backend/Controller/Controllerchot_bot.js:242-250 | `messages[order.status]`: which entry of the status table a status names, the default for any other; its contract is stated by `ChatbotController.StatusOfNames` |
| ChatbotController.StatusOfNames | Backend/Controller/Controllerchot_bot.js:242-250 | each of the five statuses is recognised exactly by its own name, and every other string is unknown |
| ChatbotController.ShippedTrackingClause | Backend/Controller/Controllerchot_bot.js:245 | a shipped order with a tracking number names it; without one the sentence goes straight on to its period |
| ChatbotController.ShippedDeliveryDate | Backend/Controller/Controllerchot_bot.js:245 | the shipped sentence contains the formatted expected delivery date |
| ChatbotController.DeliveredStatusMessage | Backend/Controller/Controllerchot_bot.js:246 | the delivered sentence contains the formatted delivery date |
| ChatbotController.CancelledStatusMessage | Backend/Controller/Controllerchot_bot.js:247 | a cancelled order gives ": reason" after the sentence when there is a reason, and a period otherwise |
| ChatbotController.KnownStatusSentence | Backend/Controller/Controllerchot_bot.js:242-250 | every known status gets a sentence other than the unknown-status one |
| ChatbotController.UnknownStatusMessage | Backend/Controller/Controllerchot_bot.js:250 | "Order status unknown." is given exactly for a status outside the five |
| ChatbotController.HandleOrderQuery | Backend/Controller/Controllerchot_bot.js:88-127 | the order handler: help without a five-digit id, the order's status when it is stored, a failure naming the id otherwise; its contract is stated by `ChatbotController.OrderHandlerOutcomes` |
| ChatbotController.OrderHandlerOutcomes | Backend/Controller/Controllerchot_bot.js:88-127 | help exactly when the original query has no five-digit id; otherwise the first id is looked up; status exactly when an order has it, with that order's data; not-found names the id |
| ChatbotController.StockReply | Backend/Controller/Controllerchot_bot.js:129-162 | the stock handler's answer for the first product with a name word in the query; its contract is stated by `ChatbotController.StockReplyFirstMatch` and `ChatbotController.StockCheckFlags` |
| ChatbotController.HandleStockQuery | Backend/Controller/Controllerchot_bot.js:129-162 | the scan with `break` returns the reply for the first product with a name word in the query |
| ChatbotController.StockReplyFirstMatch | Backend/Controller/Controllerchot_bot.js:129-162 | help exactly when no product's name word occurs in the query; otherwise the first such product in store order is reported |
| ChatbotController.StockCheckFlags | Backend/Controller/Controllerchot_bot.js:145-155 | `inStock` is `stock > 0`, `lowStock` is `stock < 10`, and the message ends with " (Low stock!)" exactly when stock is below 10 |
| ChatbotController.TopProductsLimit | Backend/Controller/Controllerchot_bot.js:169-170 | the number standing alone in the query, or 5 without one; its contract is stated by `ChatbotController.TopProductsProperties` |
| ChatbotController.TopProductsReply | Backend/Controller/Controllerchot_bot.js:165-182 | the top-sellers handler's answer; its contract is stated by `ChatbotController.TopProductsProperties` |
| ChatbotController.HandleTopProductsQuery | Backend/Controller/Controllerchot_bot.js:165-182 | sorting the loaded array in place and slicing gives the specified reply |
| ChatbotController.TopProductsProperties | Backend/Controller/Controllerchot_bot.js:165-182 | at most 10 products, `min(limit, 10, count)` of them, the front of the ranking, sorted, from the store and the best sellers; limit 5 without a number |
| ChatbotController.SearchReply | Backend/Controller/Controllerchot_bot.js:184-222 | the search handler: help when only stop words are left, otherwise the results for the joined words; its contract is stated by `ChatbotController.SearchHelpExactly` and `ChatbotController.SearchTerms` |
| ChatbotController.SearchTerms | Backend/Controller/Controllerchot_bot.js:188-190 | the search words are exactly the query's words that are not stop words |
| ChatbotController.FoundMessageNames | Backend/Controller/Controllerchot_bot.js:214 | the found message names the count and the term |
| ChatbotController.SearchHelpExactly | Backend/Controller/Controllerchot_bot.js:192-198 | search help, unsuccessful, exactly when every word of the query is a stop word |
| ChatbotController.SearchResults | Backend/Controller/Controllerchot_bot.js:200-222 | the search answer once the term is known; its contract is stated by `ChatbotController.SearchResultsProperties` |
| ChatbotController.SearchResultsProperties | Backend/Controller/Controllerchot_bot.js:200-222 | results exactly when some product matches: the first eight matches in store order, the full count in the message; otherwise no results, unsuccessful |
| ChatbotController.LookForNeverRemoved | Backend/Controller/Controllerchot_bot.js:188-190 | no word of a space-split query is "look for", so that stop word never removes anything |
| ChatbotController.Respond | Backend/Controller/Controllerchot_bot.js:28-58 | what `processQuery` answers; its contract is stated by `ChatbotController.RespondDispatch`, `UnknownExactly` and `EmptyQueryIsUnknown`, and `ChatbotController.ProcessQuery` is proved equal to it |
| ChatbotController.ProcessQuery | Backend/Controller/Controllerchot_bot.js:28-58 | the if-chain of tests and handlers gives the specified reply |
| ChatbotController.RespondDispatch | Backend/Controller/Controllerchot_bot.js:28-58 | the reply's type belongs to the classified intent, and an order query is answered by the order handler |
| ChatbotController.ReplyTypeNamesIntent | Backend/Controller/Controllerchot_bot.js:28-58 | no reply type belongs to two intents, so the type tells which handler answered |
| ChatbotController.GreetingExactly | Backend/Controller/Controllerchot_bot.js:225-231 | `handleGreeting` (the constant `GreetingReply`) answers exactly when a greeting word is mentioned and no earlier test holds; it is a success with the greeting text |
| ChatbotController.UnknownExactly | Backend/Controller/Controllerchot_bot.js:233-238 | `handleUnknownQuery` (the constant `UnknownReply`) answers, unsuccessfully, exactly when none of the five tests holds |
| ChatbotController.EmptyMentionsNothing | Backend/Controller/Controllerchot_bot.js:61-85 | the empty query contains no keyword |
| ChatbotController.EmptyQueryIsUnknown | Backend/Controller/Controllerchot_bot.js:28-58 | the empty query gets the unknown reply |
| OrderRoutes.TotalQuantity | Backend/Routes/orders.js:52 | the `reduce` sum of the quantities; its contract is stated by `OrderRoutes.TotalQuantityAppend` and `OrderRoutes.TotalQuantityAtLeastCount` |
| OrderRoutes.TotalQuantityAppend | Backend/Routes/orders.js:52 | the unit total of joined item lists is the sum of their totals |
| OrderRoutes.TotalQuantityAtLeastCount | Backend/Routes/orders.js:51-52 | with every quantity at least one, `totalItems` is at least `itemCount` |
| OrderRoutes.GetStatusMessage | Backend/Routes/orders.js:149-159 | the route's own status sentences; its contract is stated by `OrderRoutes.StatusMessagesAgree` and `OrderRoutes.ShippedWithoutTrackingSaysUndefined` |
| OrderRoutes.StatusMessagesAgree | Backend/Routes/orders.js:149-159 | the route's sentence equals the chatbot's except for shipped orders without a tracking number, where it is longer |
| OrderRoutes.ShippedWithoutTrackingSaysUndefined | Backend/Routes/orders.js:153 | a shipped order without a tracking number is reported "with tracking number undefined" |
| OrderRoutes.GetOrder | Backend/Routes/orders.js:36-59 | `GET /api/orders/:id`; its contract is stated by `OrderRoutes.GetOrderOutcome` |
| OrderRoutes.GetOrderOutcome | Backend/Routes/orders.js:36-59 | 404 naming the id exactly when no order has it; otherwise that order with its line count, unit total and status sentence |
| OrderRoutes.NotFoundNamesId | Backend/Routes/orders.js:44 | the 404 message names the id |
| OrderRoutes.CustomerOrders | Backend/Routes/orders.js:70-80 | `GET /api/orders/customer/:customerId`; its contract is stated by `OrderRoutes.CustomerOrdersExactly` |
| OrderRoutes.CustomerOrdersExactly | Backend/Routes/orders.js:70-80 | exactly the customer's orders, each as often as stored |
| OrderRoutes.StatusOrders | Backend/Routes/orders.js:91-102 | `GET /api/orders/status/:status`; its contract is stated by `OrderRoutes.StatusOrdersExactly` |
| OrderRoutes.StatusOrdersExactly | Backend/Routes/orders.js:91-102 | exactly the orders whose status matches ignoring case, each as often as stored; the parameter's case does not matter |
| OrderRoutes.TrackOrder | Backend/Routes/orders.js:113-138 | `GET /api/orders/:id/track`; its contract is stated by `OrderRoutes.TrackOrderAgrees` |
| OrderRoutes.TrackOrderAgrees | Backend/Routes/orders.js:113-138 | tracking fails exactly when the order look-up does, with the same message; otherwise its fields are that order's |
| ProductRoutes.ProductById | Backend/Routes/products.js:36-50 | `GET /api/products/:id`; its contract is stated by `ProductRoutes.ProductByIdOutcome` |
| ProductRoutes.ProductByIdOutcome | Backend/Routes/products.js:36-50 | 404 exactly when no product has the id; otherwise a stored product with it |
| ProductRoutes.TopLimit | Backend/Routes/products.js:65 | `parseInt(limit) || 5`; its contract is stated by `ProductRoutes.TopRouteProperties`, `TopRouteNegative` and `TopRouteZeroIsFive` |
| ProductRoutes.SliceFront | Backend/Routes/products.js:69 | `slice(0, limit)`; its contract is stated by `ProductRoutes.SliceFrontLength` |
| ProductRoutes.SliceFrontLength | Backend/Routes/products.js:69 | `slice(0, n)` keeps `min(n, count)` for `n >= 0`, and drops the last `-n` (or everything) for `n < 0` |
| ProductRoutes.TopRoute | Backend/Routes/products.js:62-74 | `GET /api/products/top/:limit`; its contract is stated by `ProductRoutes.TopRouteProperties`, and `ProductRoutes.TopRouteInPlace` is proved equal to it |
| ProductRoutes.TopRouteInPlace | Backend/Routes/products.js:62-74 | sorting the loaded array in place and slicing gives the specified list |
| ProductRoutes.TopRouteProperties | Backend/Routes/products.js:62-74 | the list is the front of the ranking, sorted and from the store; 5 for a non-number or 0; `min(n, count)` for positive `n` |
| ProductRoutes.PrefixOfRanking | Backend/Routes/products.js:67-69 | any front part of the ranking is sorted and drawn from the store |
| ProductRoutes.TopRouteNegative | Backend/Routes/products.js:65-69 | a limit of `-n` drops the `n` lowest sellers |
| ProductRoutes.TopRouteAgreesWithChatbot | Backend/Routes/products.js:65-69 | for 1 to 10 the route lists the same products as the chatbot; above 10 it is not capped |
| ProductRoutes.TopRouteZeroIsFive | Backend/Routes/products.js:65 | limit "0" lists the top five |
| ProductRoutes.SearchRoute | Backend/Routes/products.js:86-102 | `GET /api/products/search/:query`; its contract is stated by `ProductRoutes.SearchRouteAgrees` |
| ProductRoutes.SearchRouteAgrees | Backend/Routes/products.js:86-102 | exactly the matching products; the chatbot shows the first eight of them and counts them all |
| ProductRoutes.CategoryRoute | Backend/Routes/products.js:114-127 | `GET /api/products/category/:category`; its contract is stated by `ProductRoutes.CategoryRouteExactly` |
| ProductRoutes.CategoryRouteExactly | Backend/Routes/products.js:114-127 | exactly the products of that category ignoring case, each as often as stored |
| ProductRoutes.StockRoute | Backend/Routes/products.js:139-165 | `GET /api/products/stock/:productName`; its contract is stated by `ProductRoutes.StockRouteOutcome` and `ProductRoutes.EmptyStockQueryFindsFirst` |
| ProductRoutes.StockRouteOutcome | Backend/Routes/products.js:139-165 | the first product whose lowered name contains the lowered parameter, with its stock flags; otherwise 404 naming the parameter |
| ProductRoutes.NotFoundNamesProduct | Backend/Routes/products.js:151 | the stock 404 message names the parameter |
| ProductRoutes.EmptyStockQueryFindsFirst | Backend/Routes/products.js:144-146 | an empty name finds the first stored product |
| ChatbotRoutes.QueryRoute | Backend/Routes/chatbot.js:6-24 | `POST /api/chatbot/query`; its contract is stated by `ChatbotRoutes.QueryRouteOutcome`, `WhitespaceMessageIsUnknown` and `SurroundingWhitespaceIgnored` |
| ChatbotRoutes.QueryRouteOutcome | Backend/Routes/chatbot.js:8-24 | 400 exactly for a missing, empty or non-string message; otherwise the untrimmed message echoed, the reply for the trimmed one, and the handler's `success` |
| ChatbotRoutes.WhitespaceMessageIsUnknown | Backend/Routes/chatbot.js:10-17 | a whitespace-only message passes the check and gets the unknown reply |
| ChatbotRoutes.SurroundingWhitespaceIgnored | Backend/Routes/chatbot.js:17 | whitespace around a message does not change the reply |
| ChatbotRoutes.SuggestionsDistinct | Backend/Routes/chatbot.js:100-111 | the ten suggestions are all different |
| ChatbotRoutes.ShuffleInPlace | Backend/Routes/chatbot.js:114-115 | the random sort permutes the array and keeps distinct elements distinct |
| ChatbotRoutes.ShuffledPrefix | Backend/Routes/chatbot.js:114-116 | the first `n` after shuffling are `n` elements of the list, distinct if the list is |
| ChatbotRoutes.SuggestionsRoute | Backend/Routes/chatbot.js:98-121 | five different questions, all from the list |
| ProductCard.GetStockStatus | Frontend/src/components/productcart.js:11-15 | `getStockStatus`; its contract is stated by `ProductCard.StockStatusBands` |
| ProductCard.StockStatusBands | Frontend/src/components/productcart.js:11-15 | "Out of Stock" exactly at 0, "Low Stock" for any other count below 10 (negatives too), "In Stock" from 10 |
| ProductCard.BadgeTextsDiffer | Frontend/src/components/productcart.js:11-15 | the three badge texts are different |
| ProductCard.RenderStars | Frontend/src/components/productcart.js:19-34 | `max(5, full + half)` symbols: the first `floor(rating)` are '★', the rest '☆' |
| ProductCard.StarsForRating | Frontend/src/components/productcart.js:19-34 | a rating from 0 to 5 draws exactly five symbols with `floor(rating)` full; 6 or more draws over five full stars |
| ProductCard.CategoryLabel | Frontend/src/components/productcart.js:57 | the capitalised category; its contract is stated by `ProductCard.CategoryLabelProperties` |
| ProductCard.CategoryLabelProperties | Frontend/src/components/productcart.js:57 | the label is the category with its first letter capitalised: same length, same rest, same ignoring case, idempotent |
| ProductCard.CategoryIcon | Frontend/src/components/productcart.js:41-47 | the seven icon parts side by side; its contract is stated by `ProductCard.CategoryIconFromTable` |
| ProductCard.CategoryIconFromTable | Frontend/src/components/productcart.js:41-47 | exactly one icon shows: the category's own, or the default for any other category |
| ProductCard.Tags | Frontend/src/components/productcart.js:79-92 | the shown tags and the "+n" marker; its contract is stated by `ProductCard.TagsAccountForAll` |
| ProductCard.TagsAccountForAll | Frontend/src/components/productcart.js:79-92 | at most `limit` tags in order; "+n" exactly when some are hidden, where n is how many are hidden |

## Left out

- Loading `products.json` and `orders.json` from disk is not modelled. Every operation takes the snapshot as a sequence.
- Express plumbing is not modelled:
  - request parsing;
  - status codes other than 404 and 400 (those two are `RouteResult` cases);
  - the 500 paths of every route, with their logging;
  - `Backend/server.js`, including `/health`.
- The CORS middleware is not part of this model: `Backend/Middleware/cros.js`.
- `GET /api/products`, `GET /api/orders` and `GET /api/chatbot/help` are not modelled. They return the snapshot, or a constant payload, unchanged.
- The React client is not part of this model: `Frontend/src/components/chatbot.js`, `messagelist.js`, `messageinput.js` and `Frontend/src/services/app.js`. The same goes for the JSX and CSS of `productcart.js`.
- A stored `null` in an optional field (`trackingNumber`, `estimatedDelivery`, `deliveredDate`, `cancelReason`) is not modelled: `None` means the key is absent, that is `undefined`. With `null`, the template of `orders.js:153` would print "null" and `new Date(null)` would be the epoch rather than an invalid date.
- `new Date(...).toLocaleDateString()` is a parameter `fmt` of type `DateFormatter`, left uninterpreted. The response timestamp `new Date().toISOString()` is a parameter too.
- The product card's `Intl.NumberFormat` price (`productcart.js:4-9`) is not modelled, nor `sold.toLocaleString()`.
- Floating point is not modelled:
  - prices, totals and ratings are `real`, and no arithmetic is done on prices and totals;
  - `rating % 1` and `Math.floor` are exact on reals;
  - the digits of a number that `parseInt` cannot hold exactly are not modelled.
- Case mapping is ASCII only. `toLowerCase` and `toUpperCase` of non-ASCII letters, and `\b`/`\d` under Unicode, are not modelled.
- `sold` is an integer. A comparator over missing or non-numeric `sold` values (`NaN`) is not modelled.
- `ChatbotRoutes.ShuffleInPlace`: it proves the result is a permutation. It does not capture the distribution of `sort(() => 0.5 - Math.random())` (which is biased) or the engine's comparison order. Any order is allowed.
- `messages[status]` is an object lookup. A status such as `constructor` or `toString` would find an inherited property rather than the default sentence. `ChatbotController.StatusOf` and `OrderRoutes.GetStatusMessage` treat every status outside the five as unknown.
- The chatbot route imports the controller from `../controllers/chatbotController`, but the file is `Backend/Controller/Controllerchot_bot.js`. The model connects the two as evidently intended.
- Records hold only the fields the code reads. Other keys carried along by `...order` and `...response` are not modelled.
- `ChatbotController.ShippedTrackingClause`: without a tracking number it states only that the period follows "Your order has been shipped" directly. It does not state that the clause text appears nowhere: the formatted date is arbitrary and could contain it.
- `ChatbotController.KnownStatusSentence`: it states only that a known status's sentence is longer than, and so different from, the unknown-status sentence.
- `ProductRoutes.SearchRouteAgrees`: it requires the term to be lower case already. That the chatbot's term, joined from the words of a lowered query, is always lower case is not proved.
