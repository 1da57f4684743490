/** The product page of `src/pages/ProductDetails.tsx`: finding the product
    named in the route, the default option of every variation, the page's
    own selection state, and the cart row it hands to the store. The AI
    face-swap preview, sharing and navigation are not part of this model. */
module ProductDetails {

  import opened Types
  import opened Records
  import opened Pricing
  import opened Store
  import opened CartPage

  /** The route id matches a product by its id or by its code. */
  predicate MatchesRoute(p: Product, routeId: string)
  {
    p.id == routeId || p.code == routeId
  }

  /** `products.find(p => p.id === id || p.code === id)`: the first product
      the route names, or nothing (the "Product not found" view). */
  function FindProduct(catalog: seq<Product>, routeId: string): (r: Option<Product>)
    ensures r.None? <==> forall i :: 0 <= i < |catalog| ==> !MatchesRoute(catalog[i], routeId)
    ensures r.Some? ==> exists i :: (0 <= i < |catalog| && catalog[i] == r.value && MatchesRoute(r.value, routeId)
      && forall j :: 0 <= j < i ==> !MatchesRoute(catalog[j], routeId))
  {
    if catalog == [] then None
    else if MatchesRoute(catalog[0], routeId) then
      Some(catalog[0])
    else
      var r := FindProduct(catalog[1..], routeId);
      if r.Some? then
        var i :| 0 <= i < |catalog[1..]| && catalog[1..][i] == r.value && MatchesRoute(r.value, routeId)
          && forall j :: 0 <= j < i ==> !MatchesRoute(catalog[1..][j], routeId);
        assert catalog[i + 1] == r.value;
        assert forall j :: 0 <= j < i + 1 ==> !MatchesRoute(catalog[j], routeId) by {
          forall j | 0 <= j < i + 1 ensures !MatchesRoute(catalog[j], routeId) {
            if j > 0 {
              assert catalog[j] == catalog[1..][j - 1];
            }
          }
        }
        r
      else
        assert forall i :: 0 <= i < |catalog| ==> !MatchesRoute(catalog[i], routeId) by {
          forall i | 0 <= i < |catalog| ensures !MatchesRoute(catalog[i], routeId) {
            if i > 0 {
              assert catalog[i] == catalog[1..][i - 1];
            }
          }
        }
        r
  }

  // ----------------------------------------------------- default options

  /** The object the mount effect builds: each variation with at least one
      option writes its first option under the variation's id. */
  function Defaults(vars: seq<Variation>): Selection
  {
    if vars == [] then []
    else
      var d := Defaults(vars[..|vars| - 1]);
      var v := vars[|vars| - 1];
      if |v.options| > 0 then Assign(d, v.id, v.options[0]) else d
  }

  /** The `product.variations.forEach` loop of the mount effect. */
  method ComputeDefaults(vars: seq<Variation>) returns (defaults: Selection)
    ensures defaults == Defaults(vars)
  {
    defaults := [];
    var i := 0;
    while i < |vars|
      invariant 0 <= i <= |vars|
      invariant defaults == Defaults(vars[..i])
    {
      assert vars[..i + 1][..i] == vars[..i];
      var v := vars[i];
      if |v.options| > 0 {
        defaults := Assign(defaults, v.id, v.options[0]);
      }
      i := i + 1;
    }
    assert vars[..|vars|] == vars;
  }

  /** A variation that offers something to choose. */
  predicate Offers(vars: seq<Variation>, k: string)
  {
    exists i :: 0 <= i < |vars| && vars[i].id == k && |vars[i].options| > 0
  }

  /** The defaults have distinct keys, and their keys are exactly the ids of
      the variations that have options. */
  lemma {:induction false} DefaultsKeys(vars: seq<Variation>)
    ensures UniqueKeys(Defaults(vars))
    ensures forall k :: HasKey(Defaults(vars), k) <==> Offers(vars, k)
  {
    if vars != [] {
      var n := |vars|;
      var prev := vars[..n - 1];
      var v := vars[n - 1];
      DefaultsKeys(prev);
      if |v.options| > 0 {
        AssignKeys(Defaults(prev), v.id, v.options[0]);
      }
      forall k ensures Offers(vars, k) <==> Offers(prev, k) || (k == v.id && |v.options| > 0) {
        if Offers(vars, k) {
          var i :| 0 <= i < n && vars[i].id == k && |vars[i].options| > 0;
          if i < n - 1 {
            assert prev[i] == vars[i];
          }
        }
        if Offers(prev, k) {
          var i :| 0 <= i < n - 1 && prev[i].id == k && |prev[i].options| > 0;
          assert vars[i] == prev[i];
        }
      }
    }
  }

  /** Variation ids of a product are distinct. */
  predicate UniqueVariationIds(vars: seq<Variation>)
  {
    forall i, j :: 0 <= i < j < |vars| ==> vars[i].id != vars[j].id
  }

  /** Independent description of the defaults: one entry per variation with
      options, in variation order, holding its first option. */
  function FirstOptions(vars: seq<Variation>): Selection
  {
    if vars == [] then []
    else
      var v := vars[|vars| - 1];
      FirstOptions(vars[..|vars| - 1]) + (if |v.options| > 0 then [Entry(v.id, v.options[0])] else [])
  }

  /** With distinct variation ids, the defaults are the first options of the
      variations, in variation order. */
  lemma {:induction false} DefaultsAreFirstOptions(vars: seq<Variation>)
    requires UniqueVariationIds(vars)
    ensures Defaults(vars) == FirstOptions(vars)
  {
    if vars != [] {
      var n := |vars|;
      var prev := vars[..n - 1];
      var v := vars[n - 1];
      assert UniqueVariationIds(prev) by {
        forall i, j | 0 <= i < j < |prev| ensures prev[i].id != prev[j].id {
          assert prev[i] == vars[i] && prev[j] == vars[j];
        }
      }
      DefaultsAreFirstOptions(prev);
      if |v.options| > 0 {
        DefaultsKeys(prev);
        assert !Offers(prev, v.id);
        AssignPosition(Defaults(prev), v.id, v.options[0]);
      }
    }
  }

  /** Each variation with options starts on its first option. */
  lemma {:induction false} DefaultsPickFirst(vars: seq<Variation>, i: int)
    requires UniqueVariationIds(vars)
    requires 0 <= i < |vars| && |vars[i].options| > 0
    ensures Lookup(Defaults(vars), vars[i].id) == Some(vars[i].options[0])
    decreases |vars|
  {
    var n := |vars|;
    var prev := vars[..n - 1];
    var v := vars[n - 1];
    if i == n - 1 {
      AssignLookup(Defaults(prev), v.id, v.options[0], v.id);
    } else {
      assert UniqueVariationIds(prev) by {
        forall a, b | 0 <= a < b < |prev| ensures prev[a].id != prev[b].id {
          assert prev[a] == vars[a] && prev[b] == vars[b];
        }
      }
      assert prev[i] == vars[i];
      DefaultsPickFirst(prev, i);
      if |v.options| > 0 {
        AssignLookup(Defaults(prev), v.id, v.options[0], vars[i].id);
      }
    }
  }

  // -------------------------------------------------------- page state

  /** `if (option.image)`: the option's own picture when it has a non-empty
      one, otherwise the product's. */
  function ImageFor(product: Product, option: VariationOption): (r: string)
    ensures r == product.image || option.image == Some(r)
    ensures option.image.None? || option.image == Some("") ==> r == product.image
    ensures option.image.Some? && option.image.value != "" ==> r == option.image.value
  {
    match option.image
    case Some(img) => if img != "" then img else product.image
    case None => product.image
  }

  /** The discount shown on the badge, `product.discount || 35`. */
  function DiscountBadge(p: Product): int
  {
    OrElse(p.discount, 35)
  }

  /** The badge and the price agree except for an explicit zero discount:
      the price then applies no discount while the badge reads 35% OFF. */
  lemma BadgeAgreesWithPrice(p: Product)
    ensures p.discount != Some(0) ==> DiscountBadge(p) == DiscountPercent(p)
    ensures p.discount == Some(0) ==> DiscountBadge(p) == 35 && DiscountPercent(p) == 0
  {
  }

  /** The cart row `handleAddToCart` builds: the product with a fresh cart
      id, the customisation, and the prices of the current selection frozen
      into it, quantity one. */
  function Snapshot(product: Product, cartId: string, customName: string, customImage: Option<string>,
                    extraHeads: int, sel: Selection): CartItem
  {
    var prices := CalculatePrice(product, extraHeads, sel);
    CartItem(product, cartId, customName, customImage, prices.final, prices.original, 1, Some(extraHeads), Some(sel))
  }

  /** Adding the row raises the cart total by exactly the price shown on the
      page, and the order message lists every selected option. */
  lemma SnapshotAddsShownPrice(cart: seq<CartItem>, product: Product, cartId: string, customName: string,
                               customImage: Option<string>, extraHeads: int, sel: Selection)
    ensures CartTotal(cart + [Snapshot(product, cartId, customName, customImage, extraHeads, sel)])
      == CartTotal(cart) + CalculatePrice(product, extraHeads, sel).final
    ensures SelectedOptionLines(Snapshot(product, cartId, customName, customImage, extraHeads, sel)) == OptionLines(sel)
  {
    CartTotalAppend(cart, Snapshot(product, cartId, customName, customImage, extraHeads, sel));
  }

  /** The per-page state of `ProductDetails`. */
  class DetailsPage {
    var customName: string
    var uploadedImage: Option<string>
    var extraHeads: int
    var selected: Selection
    var displayImage: string

    constructor ()
      ensures customName == "" && uploadedImage == None && extraHeads == 0
      ensures selected == [] && displayImage == ""
    {
      customName, uploadedImage, extraHeads, selected, displayImage := "", None, 0, [], "";
    }

    /** The effect run when the product changes: the selection is reset to
        the defaults only when the product has a variations list; the shown
        picture becomes the product's. */
    method LoadProduct(product: Product)
      modifies this
      ensures selected == (if product.variations.Some? then Defaults(product.variations.value) else old(selected))
      ensures displayImage == product.image
      ensures customName == old(customName) && uploadedImage == old(uploadedImage) && extraHeads == old(extraHeads)
    {
      if product.variations.Some? {
        selected := ComputeDefaults(product.variations.value);
      }
      displayImage := product.image;
    }

    /** `handleVariationChange`: records the option under the variation id
        and shows its picture. */
    method ChangeVariation(product: Product, variationId: string, option: VariationOption)
      modifies this
      ensures selected == Assign(old(selected), variationId, option)
      ensures displayImage == ImageFor(product, option)
      ensures customName == old(customName) && uploadedImage == old(uploadedImage) && extraHeads == old(extraHeads)
    {
      selected := Assign(selected, variationId, option);
      if option.image.Some? && option.image.value != "" {
        displayImage := option.image.value;
      } else {
        displayImage := product.image;
      }
    }

    /** The custom text input. */
    method SetCustomName(text: string)
      modifies this
      ensures customName == text
      ensures uploadedImage == old(uploadedImage) && extraHeads == old(extraHeads)
      ensures selected == old(selected) && displayImage == old(displayImage)
    {
      customName := text;
    }

    /** `handleImageUpload`, once the file has been read as a data URL. */
    method SetUploadedImage(dataUrl: string)
      modifies this
      ensures uploadedImage == Some(dataUrl)
      ensures customName == old(customName) && extraHeads == old(extraHeads)
      ensures selected == old(selected) && displayImage == old(displayImage)
    {
      uploadedImage := Some(dataUrl);
    }

    /** The minus button: `Math.max(0, extraHeads - 1)`. */
    method DecrementHeads()
      modifies this
      ensures extraHeads == if old(extraHeads) > 0 then old(extraHeads) - 1 else 0
      ensures customName == old(customName) && uploadedImage == old(uploadedImage)
      ensures selected == old(selected) && displayImage == old(displayImage)
    {
      extraHeads := if 0 > extraHeads - 1 then 0 else extraHeads - 1;
    }

    /** The plus button. */
    method IncrementHeads()
      modifies this
      ensures extraHeads == old(extraHeads) + 1
      ensures customName == old(customName) && uploadedImage == old(uploadedImage)
      ensures selected == old(selected) && displayImage == old(displayImage)
    {
      extraHeads := extraHeads + 1;
    }

    /** The prices the page shows for the current selection. */
    function Prices(product: Product): Price
      reads this
    {
      CalculatePrice(product, extraHeads, selected)
    }

    /** `handleAddToCart`: the cart id is the caller-supplied clock reading. */
    method AddToCart(store: CartProvider, product: Product, cartId: string)
      modifies store
      ensures store.cart == old(store.cart) + [Snapshot(product, cartId, customName, uploadedImage, extraHeads, selected)]
      ensures store.wishlist == old(store.wishlist) && store.user == old(store.user)
    {
      var prices := CalculatePrice(product, extraHeads, selected);
      var item := CartItem(product, cartId, customName, uploadedImage, prices.final, prices.original, 1,
                           Some(extraHeads), Some(selected));
      store.AddToCart(item);
    }

    /** `handleWishlistToggle`: toggles the product and reports whether it
        was added, judged from the wishlist before the toggle. */
    method ToggleWishlist(store: CartProvider, product: Product) returns (added: bool)
      modifies store
      ensures added == !InWishlist(old(store.wishlist), product.id)
      ensures store.wishlist == ToggleProduct(old(store.wishlist), product)
      ensures store.cart == old(store.cart) && store.user == old(store.user)
    {
      added := !InWishlist(store.wishlist, product.id);
      store.ToggleWishlist(product);
    }
  }

  /** The alert after a wishlist toggle tells the truth: it says "added"
      exactly when the product is in the new wishlist. */
  lemma WishlistAlertTruthful(wishlist: seq<Product>, product: Product)
    ensures !InWishlist(wishlist, product.id) <==> InWishlist(ToggleProduct(wishlist, product), product.id)
  {
    ToggleFlipsPresence(wishlist, product, product.id);
  }

  /** Changing a variation that has already been chosen replaces its cost
      in the price: the base price moves by twice the difference of the
      two options' adjustments. */
  lemma ChangeVariationReprices(product: Product, extraHeads: int, sel: Selection, k: string, o: VariationOption)
    requires UniqueKeys(sel)
    ensures CalculatePrice(product, extraHeads, Assign(sel, k, o)).original ==
      CalculatePrice(product, extraHeads, sel).original + 2 * (Adjustment(o) -
        (match Lookup(sel, k) case Some(prev) => Adjustment(prev) case None => 0))
  {
    VariationCostAssign(sel, k, o);
  }
}
