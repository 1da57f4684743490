/** The catalogue page of `src/pages/Shop.tsx`: the category list, the four
    filters (search query, categories, occasions, price range), the sort
    orders, and the filter state the sidebar edits. */
module Shop {

  import opened Types
  import opened Text
  import opened Seqs
  import opened Sorting
  import opened Pricing

  const Occasions: seq<string> := ["Birthday", "Anniversary", "Love", "Wedding", "Kids", "Corporate"]

  /** The initial upper bound of the price slider. */
  const MaxSliderPrice: int := 10000

  /** `calculatePrice(product).final`: no extra heads, no options chosen. */
  function ListPrice(p: Product): int
  {
    CalculatePrice(p, 0, []).final
  }

  // ------------------------------------------------------------ categories

  /** `Array.from(new Set(xs))`: each value once, in first-occurrence order. */
  function Distinct(xs: seq<string>): (r: seq<string>)
    ensures forall x :: x in r <==> x in xs
    ensures NoDuplicates(r)
  {
    if xs == [] then []
    else
      var d := Distinct(xs[..|xs| - 1]);
      var x := xs[|xs| - 1];
      assert xs == xs[..|xs| - 1] + [x];
      if x in d then d else d + [x]
  }

  /** The sidebar's category list. */
  function Categories(products: seq<Product>): (r: seq<string>)
    ensures forall c :: c in r <==> exists i :: 0 <= i < |products| && products[i].category == c
    ensures NoDuplicates(r)
  {
    var cats := seq(|products|, i requires 0 <= i < |products| => products[i].category);
    assert forall c :: c in cats <==> exists i :: 0 <= i < |products| && products[i].category == c by {
      forall c ensures c in cats <==> exists i :: 0 <= i < |products| && products[i].category == c {
        if c in cats {
          var i :| 0 <= i < |cats| && cats[i] == c;
          assert products[i].category == c;
        }
        if exists i :: 0 <= i < |products| && products[i].category == c {
          var i :| 0 <= i < |products| && products[i].category == c;
          assert cats[i] == c;
        }
      }
    }
    Distinct(cats)
  }

  /** Categories are listed in order of first appearance: the list for a
      catalogue begins with the list for any prefix of it. */
  lemma {:induction false} DistinctKeepsFirstOrder(xs: seq<string>, ys: seq<string>)
    ensures Distinct(xs) <= Distinct(xs + ys)
    decreases |ys|
  {
    if ys == [] {
      assert xs + ys == xs;
    } else {
      var zs := xs + ys[..|ys| - 1];
      assert (xs + ys)[..|xs + ys| - 1] == zs;
      DistinctKeepsFirstOrder(xs, ys[..|ys| - 1]);
    }
  }

  // -------------------------------------------------------------- filters

  /** `initialQuery.toLowerCase().trim()`. */
  function NormalizeQuery(initialQuery: string): string
  {
    Trim(Lower(initialQuery))
  }

  /** `!query || name, category or (non-empty) sku contains the query`,
      each compared in lower case. */
  predicate MatchesSearch(p: Product, query: string)
  {
    query == []
    || Includes(Lower(p.name), query)
    || Includes(Lower(p.category), query)
    || (p.sku.Some? && p.sku.value != "" && Includes(Lower(p.sku.value), query))
  }

  predicate MatchesCategory(p: Product, categories: seq<string>)
  {
    |categories| == 0 || p.category in categories
  }

  predicate MatchesPrice(p: Product, low: int, high: int)
  {
    low <= ListPrice(p) <= high
  }

  /** The occasion keyword appears in the name, category or description. */
  predicate MentionsOccasion(p: Product, occasion: string)
  {
    var keyword := Lower(occasion);
    Includes(Lower(p.name), keyword) || Includes(Lower(p.category), keyword) || Includes(Lower(p.description), keyword)
  }

  predicate MatchesOccasion(p: Product, occasions: seq<string>)
  {
    |occasions| == 0 || exists i :: 0 <= i < |occasions| && MentionsOccasion(p, occasions[i])
  }

  /** All four filters of the page. */
  datatype Filters = Filters(query: string, categories: seq<string>, occasions: seq<string>, low: int, high: int)

  predicate Shown(p: Product, f: Filters)
  {
    MatchesSearch(p, NormalizeQuery(f.query)) && MatchesCategory(p, f.categories)
    && MatchesPrice(p, f.low, f.high) && MatchesOccasion(p, f.occasions)
  }

  function KeepShown(f: Filters): Product -> bool
  {
    (p: Product) => Shown(p, f)
  }

  // ------------------------------------------------------------- sorting

  /** The values of the sort menu; `Other` is any other string, including
      the initial 'popularity'. */
  datatype SortKey = PriceLow | PriceHigh | Newest | Other

  function AscendingPrice(p: Product): int { ListPrice(p) }
  function DescendingPrice(p: Product): int { 0 - ListPrice(p) }
  function NoOrder(p: Product): int { 0 }

  /** `filteredProducts`: the catalogue products the filters keep, sorted by
      the chosen order. */
  function Listing(products: seq<Product>, f: Filters, sortBy: SortKey): (r: seq<Product>)
    requires sortBy != Newest
    ensures multiset(r) == multiset(Filter(products, KeepShown(f)))
    ensures |r| <= |products|
  {
    var kept := Filter(products, KeepShown(f));
    match sortBy
    case PriceLow => SortBy(kept, AscendingPrice)
    case PriceHigh => SortBy(kept, DescendingPrice)
    case Other => SortBy(kept, NoOrder)
  }

  /** A product is listed exactly when it is in the catalogue and passes all
      four filters. */
  lemma ListingMembership(products: seq<Product>, f: Filters, sortBy: SortKey, p: Product)
    requires sortBy != Newest
    ensures p in Listing(products, f, sortBy) <==> p in products && Shown(p, f)
  {
    var r := Listing(products, f, sortBy);
    assert p in r <==> p in multiset(r);
  }

  /** Low to high lists the cheapest first. */
  lemma PriceLowAscending(products: seq<Product>, f: Filters)
    ensures var r := Listing(products, f, PriceLow);
      forall i, j :: 0 <= i < j < |r| ==> ListPrice(r[i]) <= ListPrice(r[j])
  {
    SortBySorted(Filter(products, KeepShown(f)), AscendingPrice);
  }

  /** High to low lists the dearest first. */
  lemma PriceHighDescending(products: seq<Product>, f: Filters)
    ensures var r := Listing(products, f, PriceHigh);
      forall i, j :: 0 <= i < j < |r| ==> ListPrice(r[i]) >= ListPrice(r[j])
  {
    var r := Listing(products, f, PriceHigh);
    SortBySorted(Filter(products, KeepShown(f)), DescendingPrice);
    assert forall i, j :: 0 <= i < j < |r| ==> DescendingPrice(r[i]) <= DescendingPrice(r[j]);
  }

  /** Products of equal price keep their catalogue order under a price sort. */
  lemma PriceSortStable(products: seq<Product>, f: Filters, c: int)
    ensures Filter(Listing(products, f, PriceLow), KeyIs(AscendingPrice, c))
      == Filter(Filter(products, KeepShown(f)), KeyIs(AscendingPrice, c))
    ensures Filter(Listing(products, f, PriceHigh), KeyIs(DescendingPrice, c))
      == Filter(Filter(products, KeepShown(f)), KeyIs(DescendingPrice, c))
  {
    SortByStable(Filter(products, KeepShown(f)), AscendingPrice, c);
    SortByStable(Filter(products, KeepShown(f)), DescendingPrice, c);
  }

  /** The default order is the catalogue order. */
  lemma DefaultOrderIsCatalogue(products: seq<Product>, f: Filters)
    ensures Listing(products, f, Other) == Filter(products, KeepShown(f))
  {
    SortByConstantKey(Filter(products, KeepShown(f)), NoOrder);
  }

  /** With no query and no category or occasion chosen, the filters reduce
      to the price range. */
  lemma UnfilteredShowsPriceRange(p: Product, f: Filters)
    requires f.query == "" && f.categories == [] && f.occasions == []
    ensures Shown(p, f) <==> MatchesPrice(p, f.low, f.high)
  {
    EmptyQueryMatchesAll(p, f.query);
  }

  /** The empty query does not filter. */
  lemma EmptyQueryMatchesAll(p: Product, q: string)
    requires q == ""
    ensures MatchesSearch(p, NormalizeQuery(q))
  {
    assert |Lower(q)| == 0;
    BlankQueryMatchesAll(p, q);
  }

  /** A blank query (spaces only) does not filter. */
  lemma BlankQueryMatchesAll(p: Product, q: string)
    requires IsBlank(Lower(q))
    ensures MatchesSearch(p, NormalizeQuery(q))
  {
  }

  /** Choosing categories never lists a product of another category. */
  lemma CategoryFilterRestricts(products: seq<Product>, f: Filters, sortBy: SortKey, p: Product)
    requires sortBy != Newest
    requires |f.categories| > 0
    requires p in Listing(products, f, sortBy)
    ensures p.category in f.categories
  {
    ListingMembership(products, f, sortBy, p);
  }

  // --------------------------------------------------------- sidebar state

  /** The filter state of the page, edited by the sidebar. */
  class ShopFilters {
    var sortBy: SortKey
    var low: int
    var high: int
    var selectedCategories: seq<string>
    var selectedOccasions: seq<string>

    constructor ()
      ensures sortBy == Other && low == 0 && high == MaxSliderPrice
      ensures selectedCategories == [] && selectedOccasions == []
    {
      sortBy, low, high := Other, 0, MaxSliderPrice;
      selectedCategories, selectedOccasions := [], [];
    }

    /** The filters as the listing sees them for a given URL query. */
    function Current(query: string): Filters
      reads this
    {
      Filters(query, selectedCategories, selectedOccasions, low, high)
    }

    /** `toggleCategory`. */
    method ToggleCategory(category: string)
      modifies this
      ensures selectedCategories == Toggle(old(selectedCategories), category)
      ensures selectedOccasions == old(selectedOccasions)
      ensures sortBy == old(sortBy) && low == old(low) && high == old(high)
    {
      selectedCategories := Toggle(selectedCategories, category);
    }

    /** `toggleOccasion`. */
    method ToggleOccasion(occasion: string)
      modifies this
      ensures selectedOccasions == Toggle(old(selectedOccasions), occasion)
      ensures selectedCategories == old(selectedCategories)
      ensures sortBy == old(sortBy) && low == old(low) && high == old(high)
    {
      selectedOccasions := Toggle(selectedOccasions, occasion);
    }

    /** The sort menu. */
    method SetSortBy(key: SortKey)
      modifies this
      ensures sortBy == key
      ensures selectedCategories == old(selectedCategories) && selectedOccasions == old(selectedOccasions)
      ensures low == old(low) && high == old(high)
    {
      sortBy := key;
    }

    /** The price slider: `setPriceRange([0, parseInt(value)])`, so the lower
        bound always returns to 0. */
    method SetMaxPrice(value: int)
      modifies this
      ensures low == 0 && high == value
      ensures selectedCategories == old(selectedCategories) && selectedOccasions == old(selectedOccasions)
      ensures sortBy == old(sortBy)
    {
      low, high := 0, value;
    }

    /** "Reset All Filters": clears both selections and the price range but
        keeps the sort order. */
    method Reset()
      modifies this
      ensures selectedCategories == [] && selectedOccasions == []
      ensures low == 0 && high == MaxSliderPrice
      ensures sortBy == old(sortBy)
    {
      selectedCategories, selectedOccasions := [], [];
      low, high := 0, MaxSliderPrice;
    }
  }

  /** After a reset, with no search, exactly the catalogue products priced
      from 0 to 10000 are listed. */
  lemma ResetListsPriceBand(products: seq<Product>, sortBy: SortKey, p: Product)
    requires sortBy != Newest
    ensures p in Listing(products, Filters("", [], [], 0, MaxSliderPrice), sortBy)
      <==> p in products && 0 <= ListPrice(p) <= MaxSliderPrice
  {
    ListingMembership(products, Filters("", [], [], 0, MaxSliderPrice), sortBy, p);
    UnfilteredShowsPriceRange(p, Filters("", [], [], 0, MaxSliderPrice));
  }
}
