/** The search box and badges of `src/components/Navbar.tsx`: live
    suggestions, the list of recent searches, and the cart and wishlist
    counters. Sign-in, the mobile menu and the click-outside listener are
    not part of this model. */
module Navbar {

  import opened Types
  import opened Text
  import opened Seqs

  /** At most this many live suggestions. */
  const MaxSuggestions: nat := 6
  /** At most this many recent searches are kept. */
  const MaxRecent: nat := 5

  /** The suggestion test: name, category or (non-empty) sku contains the
      lower-cased query. The query is not trimmed here. */
  predicate Suggests(p: Product, query: string)
  {
    Includes(Lower(p.name), query)
    || Includes(Lower(p.category), query)
    || (p.sku.Some? && p.sku.value != "" && Includes(Lower(p.sku.value), query))
  }

  function KeepSuggested(query: string): Product -> bool
  {
    (p: Product) => Suggests(p, query)
  }

  /** The suggestion effect: nothing for a blank query, otherwise the first
      six catalogue products that match it, in catalogue order. */
  function Suggestions(products: seq<Product>, searchQuery: string): (r: seq<Product>)
    ensures IsBlank(searchQuery) ==> r == []
    ensures |r| <= MaxSuggestions
    ensures forall p :: p in r ==> p in products && Suggests(p, Lower(searchQuery))
    ensures !IsBlank(searchQuery) ==> r <= Filter(products, KeepSuggested(Lower(searchQuery)))
  {
    if IsBlank(searchQuery) then []
    else
      var all := Filter(products, KeepSuggested(Lower(searchQuery)));
      var r := Take(all, MaxSuggestions);
      assert forall p :: p in r ==> p in all;
      r
  }

  /** Fewer than six suggestions means there are no further matches. */
  lemma SuggestionsComplete(products: seq<Product>, searchQuery: string, p: Product)
    requires !IsBlank(searchQuery)
    requires |Suggestions(products, searchQuery)| < MaxSuggestions
    requires p in products && Suggests(p, Lower(searchQuery))
    ensures p in Suggestions(products, searchQuery)
  {
    var all := Filter(products, KeepSuggested(Lower(searchQuery)));
    assert p in all;
    assert Suggestions(products, searchQuery) == all;
  }

  lemma MugSuggested(p: Product)
    requires p.name == "Mug"
    ensures Suggests(p, "mug")
  {
    assert Lower("Mug") == "mug";
    assert Includes("mug", "mug");
  }

  lemma MugSpaceNotSuggested(p: Product)
    requires p.name == "Mug" && p.category == "Gifts" && p.sku.None?
    ensures !Suggests(p, "mug ")
  {
    assert Lower("Mug") == "mug";
    assert Lower("Gifts") == "gifts";
    IncludesNotLonger("mug", "mug ");
    assert !Includes("gifts", "mug ") by {
      IncludesNotLonger("fts", "mug ");
      assert "gifts"[1..] == "ifts" && "ifts"[1..] == "fts";
      assert !Includes("ifts", "mug ") by { assert "mug "[0] != "ifts"[0]; }
      assert "mug "[0] != "gifts"[0];
    }
  }

  /** The suggestion query keeps its surrounding spaces: a name is suggested
      for "mug" but not for "mug ". */
  lemma SuggestionsDoNotTrim(p: Product)
    requires p.name == "Mug" && p.category == "Gifts" && p.sku.None?
    ensures Suggestions([p], "mug") == [p]
    ensures Suggestions([p], "mug ") == []
  {
    assert Lower("mug") == "mug";
    assert Lower("mug ") == "mug ";
    assert !IsBlank("mug") by { assert !IsJsSpace("mug"[0]); }
    assert !IsBlank("mug ") by { assert !IsJsSpace("mug "[0]); }
    MugSuggested(p);
    MugSpaceNotSuggested(p);
  }

  // ------------------------------------------------------ recent searches

  function KeepOtherTerms(term: string): string -> bool
  {
    (s: string) => s != term
  }

  /** `saveRecentSearch(term)`: a blank term changes nothing; otherwise the
      term moves to the front, earlier copies of it are dropped, and the list
      is cut to five. */
  function SaveRecent(recent: seq<string>, term: string): seq<string>
  {
    if IsBlank(term) then recent
    else Take([term] + Filter(recent, KeepOtherTerms(term)), MaxRecent)
  }

  /** A saved term comes first, occurs once, and the other terms follow in
      their previous order; the list never exceeds five entries. */
  lemma SaveRecentFront(recent: seq<string>, term: string)
    requires !IsBlank(term)
    ensures var r := SaveRecent(recent, term);
      && |r| <= MaxRecent
      && r[0] == term
      && term !in r[1..]
      && r[1..] <= Filter(recent, KeepOtherTerms(term))
      && |r| == Min(MaxRecent, |Filter(recent, KeepOtherTerms(term))| + 1)
  {
    var rest := Filter(recent, KeepOtherTerms(term));
    var r := SaveRecent(recent, term);
    assert r == ([term] + rest)[..Min(MaxRecent, |rest| + 1)];
    assert r[1..] == rest[..|r| - 1];
    assert term !in rest;
    assert forall x :: x in r[1..] ==> x in rest;
  }

  /** A duplicate-free list stays duplicate-free. */
  lemma SaveRecentNoDuplicates(recent: seq<string>, term: string)
    requires NoDuplicates(recent)
    ensures NoDuplicates(SaveRecent(recent, term))
  {
    if !IsBlank(term) {
      var rest := Filter(recent, KeepOtherTerms(term));
      FilterNoDuplicates(recent, KeepOtherTerms(term));
      var all := [term] + rest;
      assert NoDuplicates(all) by {
        forall i, j | 0 <= i < j < |all| ensures all[i] != all[j] {
          if i == 0 {
            assert all[j] == rest[j - 1] && all[j] in rest;
          } else {
            assert all[i] == rest[i - 1] && all[j] == rest[j - 1];
          }
        }
      }
    }
  }

  /** Searching the same term twice in a row leaves the list as after the
      first search. */
  lemma SaveRecentIdempotent(recent: seq<string>, term: string)
    ensures SaveRecent(SaveRecent(recent, term), term) == SaveRecent(recent, term)
  {
    if !IsBlank(term) {
      var keep := KeepOtherTerms(term);
      var rest := Filter(recent, keep);
      var first := SaveRecent(recent, term);
      var kept := rest[..Min(MaxRecent - 1, |rest|)];
      assert first == [term] + kept;
      FilterAppend([term], kept, keep);
      assert Filter([term], keep) == [];
      assert forall x :: x in kept ==> x in rest;
      FilterKeepsAll(kept, keep);
      assert Filter(first, keep) == kept;
    }
  }

  /** The cart badge: the sum of the rows' quantities, shown only when the
      cart has rows. */
  function QuantitySum(cart: seq<CartItem>): int
  {
    if cart == [] then 0 else QuantitySum(cart[..|cart| - 1]) + cart[|cart| - 1].quantity
  }

  function CartBadge(cart: seq<CartItem>): (r: Option<int>)
    ensures r.None? <==> cart == []
    ensures r.Some? ==> r.value == QuantitySum(cart)
  {
    if |cart| > 0 then Some(QuantitySum(cart)) else None
  }

  /** Rows added from the product page have quantity one, so the badge then
      counts the rows. */
  lemma {:induction false} BadgeCountsRows(cart: seq<CartItem>)
    requires forall i :: 0 <= i < |cart| ==> cart[i].quantity == 1
    ensures QuantitySum(cart) == |cart|
    ensures cart != [] ==> CartBadge(cart) == Some(|cart|)
  {
    if cart != [] {
      BadgeCountsRows(cart[..|cart| - 1]);
    }
  }

  /** The wishlist badge: its length, shown only when non-zero. */
  function WishlistBadge(wishlist: seq<Product>): (r: Option<int>)
    ensures r.None? <==> wishlist == []
    ensures r.Some? ==> r.value == |wishlist| > 0
  {
    if |wishlist| > 0 then Some(|wishlist|) else None
  }

  // ------------------------------------------------------------ box state

  /** The search box's state. */
  class SearchBox {
    var searchQuery: string
    var suggestions: seq<Product>
    var showSuggestions: bool
    var recentSearches: seq<string>
    var isMenuOpen: bool

    constructor (saved: seq<string>)
      ensures searchQuery == "" && suggestions == [] && !showSuggestions
      ensures recentSearches == saved && !isMenuOpen
    {
      searchQuery, suggestions, showSuggestions := "", [], false;
      recentSearches, isMenuOpen := saved, false;
    }

    /** Typing into the box. */
    method SetSearchQuery(text: string)
      modifies this
      ensures searchQuery == text
      ensures suggestions == old(suggestions) && showSuggestions == old(showSuggestions)
      ensures recentSearches == old(recentSearches) && isMenuOpen == old(isMenuOpen)
    {
      searchQuery := text;
    }

    /** The effect that follows a change of query or catalogue: recompute the
        suggestions and open the dropdown. */
    method RefreshSuggestions(products: seq<Product>)
      modifies this
      ensures suggestions == Suggestions(products, searchQuery)
      ensures showSuggestions
      ensures ShowsRecent() <==> searchQuery == "" && recentSearches != []
      ensures searchQuery == old(searchQuery)
      ensures recentSearches == old(recentSearches) && isMenuOpen == old(isMenuOpen)
    {
      if !IsBlank(searchQuery) {
        var query := Lower(searchQuery);
        suggestions := Take(Filter(products, KeepSuggested(query)), MaxSuggestions);
      } else {
        suggestions := [];
      }
      showSuggestions := true;
    }

    /** `saveRecentSearch`. */
    method SaveRecentSearch(term: string)
      modifies this
      ensures recentSearches == SaveRecent(old(recentSearches), term)
      ensures searchQuery == old(searchQuery) && suggestions == old(suggestions)
      ensures showSuggestions == old(showSuggestions) && isMenuOpen == old(isMenuOpen)
    {
      if !IsBlank(term) {
        recentSearches := Take([term] + Filter(recentSearches, KeepOtherTerms(term)), MaxRecent);
      }
    }

    /** `handleSearch`: on Enter with a non-blank query, saves and searches
        the trimmed query (returned as the shop's `q` parameter) and closes
        the menu and the dropdown; otherwise nothing happens. */
    method HandleSearch(key: string) returns (q: Option<string>)
      modifies this
      ensures key == "Enter" && !IsBlank(old(searchQuery)) ==>
        q == Some(Trim(old(searchQuery)))
        && recentSearches == SaveRecent(old(recentSearches), Trim(old(searchQuery)))
        && !isMenuOpen && !showSuggestions
      ensures !(key == "Enter" && !IsBlank(old(searchQuery))) ==>
        q.None? && recentSearches == old(recentSearches)
        && isMenuOpen == old(isMenuOpen) && showSuggestions == old(showSuggestions)
      ensures searchQuery == old(searchQuery) && suggestions == old(suggestions)
    {
      q := None;
      if key == "Enter" && !IsBlank(searchQuery) {
        var term := Trim(searchQuery);
        SaveRecentSearch(term);
        q := Some(term);
        isMenuOpen := false;
        showSuggestions := false;
      }
    }

    /** `handleRecentSearchClick`: puts the term back in the box, saves it
        (untrimmed) and searches it. */
    method HandleRecentSearchClick(term: string) returns (q: string)
      modifies this
      ensures q == term && searchQuery == term
      ensures recentSearches == SaveRecent(old(recentSearches), term)
      ensures !showSuggestions
      ensures suggestions == old(suggestions) && isMenuOpen == old(isMenuOpen)
    {
      searchQuery := term;
      SaveRecentSearch(term);
      q := term;
      showSuggestions := false;
    }

    /** `handleSuggestionClick`: empties the box and closes the dropdown and
        the menu; the product id is the route taken. */
    method HandleSuggestionClick(productId: string) returns (route: string)
      modifies this
      ensures route == productId
      ensures searchQuery == "" && !showSuggestions && !isMenuOpen
      ensures recentSearches == old(recentSearches) && suggestions == old(suggestions)
    {
      searchQuery := "";
      showSuggestions := false;
      isMenuOpen := false;
      route := productId;
    }

    /** `clearRecentSearches`. */
    method ClearRecentSearches()
      modifies this
      ensures recentSearches == [] && !ShowsRecent()
      ensures searchQuery == old(searchQuery) && suggestions == old(suggestions)
      ensures showSuggestions == old(showSuggestions) && isMenuOpen == old(isMenuOpen)
    {
      recentSearches := [];
    }

    /** The recent searches are listed only while the box is empty. */
    predicate ShowsRecent()
      reads this
    {
      showSuggestions && searchQuery == "" && |recentSearches| > 0
    }
  }
}
