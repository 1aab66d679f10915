/**
 * The display rules of the product card in the web client: the stock badge,
 * the star string for the rating, the category label and icon, and the size
 * and colour tags cut down to a few with a "+n" marker for the rest.
 */
module ProductCard {
  import opened Wrappers
  import opened Text
  import opened Store

  // ---------------------------------------------------------------------------
  // Stock badge

  /** The three badges `getStockStatus` chooses between. */
  datatype StockLevel = OutOfStock | LowStock | InStock

  /** The badge's text. */
  function BadgeText(level: StockLevel): string
  {
    match level
    case OutOfStock => "Out of Stock"
    case LowStock => "Low Stock"
    case InStock => "In Stock"
  }

  /** The badge's CSS class. */
  function BadgeClass(level: StockLevel): string
  {
    match level
    case OutOfStock => "out-of-stock"
    case LowStock => "low-stock"
    case InStock => "in-stock"
  }

  /** `getStockStatus(stock)`. */
  function GetStockStatus(stock: int): StockLevel
  {
    if stock == 0 then OutOfStock
    else if stock < 10 then LowStock
    else InStock
  }

  /**
   * Out of stock exactly at zero, low for every other count below ten
   * (negative counts included), in stock from ten up; so the card calls a
   * product low exactly when the stock route's `lowStock` is set and it is
   * not at zero, and a negative count shows "Low Stock" although the route
   * says it is not in stock.
   */
  lemma StockStatusBands(stock: int)
    ensures GetStockStatus(stock) == OutOfStock <==> stock == 0
    ensures GetStockStatus(stock) == LowStock <==> stock != 0 && stock < 10
    ensures GetStockStatus(stock) == InStock <==> stock >= 10
    ensures stock < 0 ==> GetStockStatus(stock) == LowStock && !(stock > 0)
  {
  }

  /** The badges have different texts, so the text alone tells the level. */
  lemma BadgeTextsDiffer(a: StockLevel, b: StockLevel)
    ensures BadgeText(a) == BadgeText(b) <==> a == b
  {
    assert |BadgeText(OutOfStock)| == 12 && |BadgeText(LowStock)| == 9 && |BadgeText(InStock)| == 8;
  }

  // ---------------------------------------------------------------------------
  // Stars

  const FullStar: char := '★'
  const EmptyStar: char := '☆'

  /** `Math.floor(rating)` stars are drawn full, none when it is negative. */
  function FullStars(rating: real): nat
  {
    if rating.Floor < 0 then 0 else rating.Floor
  }

  /** `rating % 1 !== 0`: the rating is not a whole number (the remainder keeps the sign, but is zero only for whole numbers). */
  predicate HasHalfStar(rating: real)
  {
    rating != rating.Floor as real
  }

  /** How many symbols come before the padding: the full stars and the half star. */
  function Drawn(rating: real): nat
  {
    FullStars(rating) + if HasHalfStar(rating) then 1 else 0
  }

  /**
   * `renderStars(rating)`: full stars, a half star, then empty stars up to
   * five.  The half star is drawn with the same symbol as an empty one, and
   * nothing caps the full stars at five.
   */
  method RenderStars(rating: real) returns (stars: string)
    ensures |stars| == if Drawn(rating) > 5 then Drawn(rating) else 5
    ensures forall k :: 0 <= k < |stars| ==> stars[k] == if k < FullStars(rating) then FullStar else EmptyStar
  {
    var fullStars := rating.Floor;
    stars := [];
    var i := 0;
    while i < fullStars
      invariant 0 <= i <= FullStars(rating)
      invariant |stars| == i
      invariant forall k :: 0 <= k < i ==> stars[k] == FullStar
    {
      stars := stars + [FullStar];
      i := i + 1;
    }
    assert |stars| == FullStars(rating);
    if rating != rating.Floor as real {
      stars := stars + [EmptyStar];
    }
    assert |stars| == Drawn(rating);
    var j := |stars|;
    while j < 5
      invariant |stars| == j
      invariant j == Drawn(rating) || (Drawn(rating) < j <= 5)
      invariant forall k :: 0 <= k < |stars| ==> stars[k] == if k < FullStars(rating) then FullStar else EmptyStar
    {
      stars := stars + [EmptyStar];
      j := j + 1;
    }
  }

  /**
   * A rating from 0 to 5 is drawn as exactly five symbols, the first
   * `floor(rating)` full; a rating of 6 or more draws more than five full
   * stars.
   */
  lemma StarsForRating(rating: real)
    ensures 0.0 <= rating <= 5.0 ==> Drawn(rating) <= 5 && FullStars(rating) == rating.Floor
    ensures rating >= 6.0 ==> FullStars(rating) > 5
    ensures rating > 5.0 ==> Drawn(rating) > 5
  {
  }

  // ---------------------------------------------------------------------------
  // Category label and icon

  /** `category.charAt(0).toUpperCase() + category.slice(1)`. */
  function CategoryLabel(category: string): string
  {
    if category == "" then "" else [ToUpperChar(category[0])] + category[1..]
  }

  /**
   * The label is the category with its first letter capitalised: the same
   * length, the same text ignoring case, and capitalising again changes
   * nothing.
   */
  lemma CategoryLabelProperties(category: string)
    ensures |CategoryLabel(category)| == |category|
    ensures category != "" ==> CategoryLabel(category)[0] == ToUpperChar(category[0])
    ensures category != "" ==> CategoryLabel(category)[1..] == category[1..]
    ensures Lower(CategoryLabel(category)) == Lower(category)
    ensures CategoryLabel(CategoryLabel(category)) == CategoryLabel(category)
  {
    if category != "" {
      var capitalised := CategoryLabel(category);
      assert ToLowerChar(capitalised[0]) == ToLowerChar(category[0]);
      assert forall k :: 1 <= k < |capitalised| ==> capitalised[k] == category[k];
    }
  }

  /** The categories that have an icon of their own, and the icons. */
  const IconTable: map<string, string> := map[
    "shirts" := "👕", "pants" := "👖", "dresses" := "👗",
    "shoes" := "👟", "jackets" := "🧥", "hoodies" := "👕"]

  const DefaultIcon: string := "👔"

  /** What the icon span renders: each `category === ... && icon` part, side by side. */
  function CategoryIcon(category: string): string
  {
    (if category == "shirts" then "👕" else "")
    + (if category == "pants" then "👖" else "")
    + (if category == "dresses" then "👗" else "")
    + (if category == "shoes" then "👟" else "")
    + (if category == "jackets" then "🧥" else "")
    + (if category == "hoodies" then "👕" else "")
    + (if category !in ["shirts", "pants", "dresses", "shoes", "jackets", "hoodies"] then DefaultIcon else "")
  }

  /** Exactly one of the parts renders: the category's own icon, or the default one. */
  lemma CategoryIconFromTable(category: string)
    ensures CategoryIcon(category) == if category in IconTable then IconTable[category] else DefaultIcon
  {
    assert "pants"[0] != "shoes"[0];
    assert "dresses"[0] != "jackets"[0] && "dresses"[0] != "hoodies"[0] && "jackets"[0] != "hoodies"[0];
  }

  // ---------------------------------------------------------------------------
  // Size and colour tags

  /** The tags shown for a list, and the "+n" marker for the ones left out. */
  datatype TagRow = TagRow(shown: seq<string>, more: Option<string>)

  /** `items.slice(0, limit)` and `items.length > limit && "+" + (items.length - limit)`. */
  function Tags(items: seq<string>, limit: nat): TagRow
  {
    TagRow(items[..Min(limit, |items|)], if |items| > limit then Some("+" + NatToString(|items| - limit)) else None)
  }

  /** Four size tags at most. */
  function SizeTags(p: Product): TagRow
  {
    Tags(p.sizes, 4)
  }

  /** Three colour tags at most. */
  function ColorTags(p: Product): TagRow
  {
    Tags(p.colors, 3)
  }

  /**
   * The row shows the first `limit` items at most, in order; the marker
   * appears exactly when some are left out, and the number it shows is how
   * many, so the shown tags and the marker account for every item.
   */
  lemma TagsAccountForAll(items: seq<string>, limit: nat)
    ensures |Tags(items, limit).shown| <= limit && Tags(items, limit).shown == items[..|Tags(items, limit).shown|]
    ensures Tags(items, limit).more.Some? <==> |items| > limit
    ensures Tags(items, limit).more.None? ==> Tags(items, limit).shown == items
    ensures Tags(items, limit).more.Some? ==>
              |Tags(items, limit).more.value| >= 2 && Tags(items, limit).more.value[0] == '+'
              && AllDigits(Tags(items, limit).more.value[1..])
              && |Tags(items, limit).shown| + DecimalValue(Tags(items, limit).more.value[1..]) == |items|
  {
    if |items| > limit {
      var digits := NatToString(|items| - limit);
      assert ("+" + digits)[1..] == digits;
    }
  }
}
