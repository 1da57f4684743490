/** The pricing engine of `src/data/products.ts`: the shape surcharge table
    and `calculatePrice`, which turns a product, a number of extra heads and a
    variation selection into the struck-through original price, the final
    price and a breakdown of its components.

    Prices are whole rupees and the inputs are integers, so the arithmetic is
    exact: `Math.round(x)` is `floor(x + 1/2)`, and for the discounted total
    `x = n / 100` that is `(n + 50) / 100` in floor division. */
module Pricing {

  import opened Types
  import opened Text
  import opened Records
  import opened Seqs

  /** `a || fallback` for an optional JavaScript number: both `undefined` and
      `0` are falsy and select the fallback. */
  function OrElse(a: Option<int>, fallback: int): int
  {
    if a.Some? && a.value != 0 then a.value else fallback
  }

  /** The strings `getShapeCost` prices at 400. The mixed-case half of the
      list can never match, because the shape is upper-cased before the lookup. */
  const ShapeTable: seq<string> := ["RECTANGLE", "SQUARE", "ROUND", "Rectangle", "Square", "Round"]

  /** `getShapeCost`: 400 for a rectangle, square or round shape in any
      casing, 1000 for every other shape. */
  function GetShapeCost(shape: string): (r: int)
    ensures r == 400 <==> Upper(shape) == "RECTANGLE" || Upper(shape) == "SQUARE" || Upper(shape) == "ROUND"
    ensures r != 400 ==> r == 1000
  {
    assert Upper(shape) != "Rectangle" && Upper(shape) != "Square" && Upper(shape) != "Round" by {
      if |shape| > 1 {
        UpperHasNoLowercase(shape, 1);
      }
    }
    if Upper(shape) in ShapeTable then 400 else 1000
  }

  /** The custom-shape test of `calculatePrice` (its second spelling,
      'Custom', can never match an upper-cased string either). */
  predicate IsCustomShape(p: Product)
  {
    Upper(p.shape) == "CUSTOM" || Upper(p.shape) == "Custom"
  }

  /** `customShapeCost || custom_shape_cost || 0`. */
  function CustomShapeCost(p: Product): int
  {
    OrElse(p.customShapeCost, OrElse(p.customShapeCostRaw, 0))
  }

  /** The shape component: the product's own custom cost for a custom shape,
      the 400/1000 table otherwise. */
  function ShapeSurcharge(p: Product): int
  {
    if IsCustomShape(p) then CustomShapeCost(p) else GetShapeCost(p.shape)
  }

  /** `pdfPrice || base_price || 0`. */
  function BasePrice(p: Product): int
  {
    OrElse(p.pdfPrice, OrElse(p.basePrice, 0))
  }

  /** `option?.priceAdjustment || 0`. */
  function Adjustment(o: VariationOption): int
  {
    OrElse(o.priceAdjustment, 0)
  }

  /** `Object.values(sel).reduce((acc, option) => acc + adjustment, 0)`,
      summed here in creation order; `VariationCostVisitOrder` shows the
      order `Object.values` visits gives the same sum. */
  function VariationCost(sel: Selection): int
  {
    if sel == [] then 0 else VariationCost(sel[..|sel| - 1]) + Adjustment(sel[|sel| - 1].option)
  }

  /** `discount !== undefined ? discount : 35`: only an absent discount defaults. */
  function DiscountPercent(p: Product): int
  {
    if p.discount.Some? then p.discount.value else 35
  }

  /** `Math.round(n / 100)`: the nearest integer to `n / 100`, halves rounded up. */
  function RoundHalfUp100(n: int): (r: int)
    ensures 100 * r - 50 <= n < 100 * r + 50
  {
    (n + 50) / 100
  }

  datatype Breakdown = Breakdown(base: int, shape: int, variations: int, heads: int)

  datatype Price = Price(original: int, final: int, breakdown: Breakdown)

  /** `calculatePrice(product, extraHeads, selectedVariations)`. The original
      price is twice the base, variation and shape components; the final price
      is that doubled price, discounted, plus 100 per extra head (which is not
      discounted), rounded half up. */
  function CalculatePrice(p: Product, extraHeads: int, sel: Selection): (r: Price)
    ensures r.breakdown == Breakdown(BasePrice(p), ShapeSurcharge(p), VariationCost(sel), 100 * extraHeads)
    ensures r.original == 2 * (r.breakdown.base + r.breakdown.variations + r.breakdown.shape)
    ensures 100 * r.final - 50 <= r.original * (100 - DiscountPercent(p)) + 100 * r.breakdown.heads
    ensures r.original * (100 - DiscountPercent(p)) + 100 * r.breakdown.heads < 100 * r.final + 50
  {
    var shapeCost := ShapeSurcharge(p);
    var basePrice := BasePrice(p);
    var variationCost := VariationCost(sel);
    var doubledPrice := (basePrice + variationCost + shapeCost) * 2;
    var discountPercent := DiscountPercent(p);
    var headCost := extraHeads * 100;
    // 100 × (doubledPrice × (100 − discountPercent) / 100 + headCost)
    var finalPrice := RoundHalfUp100(doubledPrice * (100 - discountPercent) + 100 * headCost);
    Price(doubledPrice, finalPrice, Breakdown(basePrice, shapeCost, variationCost, headCost))
  }

  // ---------------------------------------------------------------- lemmas

  /** The surcharge depends only on the letters of the shape, not their case. */
  lemma GetShapeCostIgnoresCase(s: string, t: string)
    requires Lower(s) == Lower(t)
    ensures GetShapeCost(s) == GetShapeCost(t)
  {
    UpperOfLower(s);
    UpperOfLower(t);
  }

  /** A custom shape, in any casing, is priced by its own custom cost, never
      by the 400/1000 table; any other shape is priced by the table alone. */
  lemma CustomShapeUsesCustomCost(p: Product, extraHeads: int, sel: Selection)
    ensures IsCustomShape(p) <==> Upper(p.shape) == "CUSTOM"
    ensures Upper(p.shape) == "CUSTOM" ==>
      CalculatePrice(p, extraHeads, sel).breakdown.shape == CustomShapeCost(p)
    ensures Upper(p.shape) != "CUSTOM" ==>
      CalculatePrice(p, extraHeads, sel).breakdown.shape == GetShapeCost(p.shape)
  {
    assert Upper(p.shape) != "Custom" by {
      if |p.shape| > 1 {
        UpperHasNoLowercase(p.shape, 1);
      }
    }
  }

  /** The custom cost fields are consulted only for custom shapes. */
  lemma CustomCostIgnoredForTableShapes(p: Product, a: Option<int>, b: Option<int>, extraHeads: int, sel: Selection)
    requires Upper(p.shape) != "CUSTOM"
    ensures CalculatePrice(p.(customShapeCost := a, customShapeCostRaw := b), extraHeads, sel)
         == CalculatePrice(p, extraHeads, sel)
  {
    CustomShapeUsesCustomCost(p, extraHeads, sel);
    CustomShapeUsesCustomCost(p.(customShapeCost := a, customShapeCostRaw := b), extraHeads, sel);
  }

  /** A zero `pdfPrice` falls through to `base_price`, exactly as an absent
      one does; likewise a zero `customShapeCost` falls through to
      `custom_shape_cost`. */
  lemma ZeroFieldsFallThrough(p: Product, extraHeads: int, sel: Selection)
    ensures p.pdfPrice == Some(0) ==>
      CalculatePrice(p, extraHeads, sel) == CalculatePrice(p.(pdfPrice := None), extraHeads, sel)
    ensures p.customShapeCost == Some(0) ==>
      CalculatePrice(p, extraHeads, sel) == CalculatePrice(p.(customShapeCost := None), extraHeads, sel)
    ensures p.pdfPrice.None? && p.basePrice.None? ==> CalculatePrice(p, extraHeads, sel).breakdown.base == 0
  {
  }

  /** The variation cost of two selections laid end to end is the sum of their costs. */
  lemma {:induction false} VariationCostConcat(a: Selection, b: Selection)
    ensures VariationCost(a + b) == VariationCost(a) + VariationCost(b)
    decreases |b|
  {
    if b == [] {
      assert a + b == a;
    } else {
      var b' := b[..|b| - 1];
      assert (a + b)[..|a + b| - 1] == a + b';
      VariationCostConcat(a, b');
    }
  }

  lemma VariationCostSingle(e: Entry)
    ensures VariationCost([e]) == Adjustment(e.option)
  {
    assert [e][..0] == [];
  }

  /** The variation cost is a sum, so any rearrangement of the entries has
      the same cost. */
  lemma {:induction false} VariationCostPermutation(a: Selection, b: Selection)
    requires multiset(a) == multiset(b)
    ensures VariationCost(a) == VariationCost(b)
    decreases |a|
  {
    if a == [] {
      assert |b| == |multiset(b)| == 0;
    } else {
      var x := a[|a| - 1];
      var a' := a[..|a| - 1];
      assert a == a' + [x];
      assert x in multiset(b);
      var j :| 0 <= j < |b| && b[j] == x;
      var pre, post := b[..j], b[j + 1..];
      assert b == pre + [x] + post;
      RemoveFromBoth(a', x, pre, post);
      VariationCostPermutation(a', pre + post);
      VariationCostConcat(pre + [x], post);
      VariationCostConcat(pre, [x]);
      VariationCostConcat(pre, post);
      VariationCostSingle(x);
    }
  }

  /** `Object.values` visits array-index keys first, but the cost it sums is
      the cost of the selection in creation order. */
  lemma VariationCostVisitOrder(sel: Selection)
    ensures VariationCost(Entries(sel)) == VariationCost(sel)
  {
    EntriesRearranges(sel);
    VariationCostPermutation(Entries(sel), sel);
  }

  /** Replacing one entry swaps its adjustment for the new one's. */
  lemma VariationCostReplace(sel: Selection, i: int, e: Entry)
    requires 0 <= i < |sel|
    ensures VariationCost(sel[i := e]) == VariationCost(sel) - Adjustment(sel[i].option) + Adjustment(e.option)
  {
    var pre, post := sel[..i], sel[i + 1..];
    assert sel[i := e] == (pre + [e]) + post;
    assert sel == (pre + [sel[i]]) + post;
    VariationCostConcat(pre + [e], post);
    VariationCostConcat(pre, [e]);
    VariationCostConcat(pre + [sel[i]], post);
    VariationCostConcat(pre, [sel[i]]);
    VariationCostSingle(e);
    VariationCostSingle(sel[i]);
  }

  /** Selecting option `o` for variation `k` replaces the adjustment of the
      option previously selected there, or adds `o`'s when there was none. */
  lemma VariationCostAssign(sel: Selection, k: string, o: VariationOption)
    requires UniqueKeys(sel)
    ensures VariationCost(Assign(sel, k, o)) ==
      VariationCost(sel) + Adjustment(o)
      - (match Lookup(sel, k) case Some(prev) => Adjustment(prev) case None => 0)
  {
    AssignPosition(sel, k, o);
    if HasKey(sel, k) {
      var i :| 0 <= i < |sel| && sel[i].key == k;
      var j :| 0 <= j < |sel| && sel[j] == Entry(k, Lookup(sel, k).value);
      assert j == i;
      VariationCostReplace(sel, i, Entry(k, o));
    } else {
      VariationCostConcat(sel, [Entry(k, o)]);
      VariationCostSingle(Entry(k, o));
    }
  }

  /** The original price ignores the extra heads and the discount. */
  lemma OriginalIgnoresHeadsAndDiscount(p: Product, sel: Selection, h1: int, h2: int, d: Option<int>)
    ensures CalculatePrice(p, h1, sel).original == CalculatePrice(p.(discount := d), h2, sel).original
  {
  }

  /** Adding `k` hundreds to the rounded amount adds exactly `k`. */
  lemma RoundShift(n: int, k: int)
    ensures RoundHalfUp100(n + 100 * k) == RoundHalfUp100(n) + k
  {
    var a, b := RoundHalfUp100(n + 100 * k), RoundHalfUp100(n);
    assert -100 < 100 * (a - k - b) < 100;
  }

  /** Extra heads are added after the discount: `k` more heads raise the final
      price by exactly `100 k`, so it never decreases as heads are added. */
  lemma ExtraHeadsAddHundredEach(p: Product, sel: Selection, h: int, k: int)
    ensures CalculatePrice(p, h + k, sel).final == CalculatePrice(p, h, sel).final + 100 * k
    ensures k >= 0 ==> CalculatePrice(p, h, sel).final <= CalculatePrice(p, h + k, sel).final
  {
    var doubled := CalculatePrice(p, h, sel).original;
    var n := doubled * (100 - DiscountPercent(p)) + 100 * (100 * h);
    assert doubled * (100 - DiscountPercent(p)) + 100 * (100 * (h + k)) == n + 100 * (100 * k);
    RoundShift(n, 100 * k);
  }

  /** An explicit zero discount is honoured: the final price is the doubled
      price plus the heads, undiscounted. Only an absent discount means 35. */
  lemma ExplicitZeroDiscount(p: Product, sel: Selection, h: int)
    requires p.discount == Some(0)
    ensures CalculatePrice(p, h, sel).final == CalculatePrice(p, h, sel).original + 100 * h
  {
    var r := CalculatePrice(p, h, sel);
    assert r.original * (100 - 0) + 100 * (100 * h) == 100 * (r.original + 100 * h);
    RoundShift(0, r.original + 100 * h);
  }

  /** An absent discount takes 35% off the doubled price. */
  lemma DefaultDiscount(p: Product, sel: Selection, h: int)
    requires p.discount.None?
    ensures var r := CalculatePrice(p, h, sel);
      100 * r.final - 50 <= 65 * r.original + 10000 * h < 100 * r.final + 50
  {
  }

  // ------------------------------------------------------- worked examples

  /** A catalog record with the pricing fields given and neutral values elsewhere. */
  function Sample(shape: string, pdfPrice: Option<int>, basePrice: Option<int>,
                  customCost: Option<int>, customCostRaw: Option<int>): Product
  {
    Product("p", "p", "Sample", "Gifts", "", pdfPrice, basePrice, shape, None,
            customCost, customCostRaw, "", None, None, true, None, None, None, Some(ProductStatus.Active))
  }

  const Option150: VariationOption := VariationOption("o1", "Large", None, Some(150), None)

  /** Custom shape costing 500 on a base of 1000: original 3000 and final 1950;
      two extra heads make the final 2150; an option adding 150 makes it
      3300 and 2145. */
  lemma WorkedExamples()
    ensures var p := Sample("CUSTOM", Some(1000), None, Some(500), None);
      && CalculatePrice(p, 0, []) == Price(3000, 1950, Breakdown(1000, 500, 0, 0))
      && CalculatePrice(p, 2, []).original == 3000
      && CalculatePrice(p, 2, []).final == 2150
      && CalculatePrice(p, 0, [Entry("v1", Option150)]).original == 3300
      && CalculatePrice(p, 0, [Entry("v1", Option150)]).final == 2145
  {
    var p := Sample("CUSTOM", Some(1000), None, Some(500), None);
    assert Upper("CUSTOM") == "CUSTOM";
    assert [Entry("v1", Option150)][..0] == [];
  }

  /** Seeded records: 'Heart' is priced by the table (1000) although it carries
      a custom cost of 200; 'Custom' with cost 500 is priced 500; 'Rectangle'
      in title case is priced 400. */
  lemma SeedRecords()
    ensures CalculatePrice(Sample("Heart", None, Some(850), None, Some(200)), 0, []) ==
      Price(3700, 2405, Breakdown(850, 1000, 0, 0))
    ensures CalculatePrice(Sample("Custom", None, Some(1200), None, Some(500)), 0, []) ==
      Price(3400, 2210, Breakdown(1200, 500, 0, 0))
    ensures CalculatePrice(Sample("Rectangle", None, Some(700), None, Some(0)), 0, []) ==
      Price(2200, 1430, Breakdown(700, 400, 0, 0))
  {
    assert Upper("Heart") == "HEART";
    assert Upper("Custom") == "CUSTOM";
    assert Upper("Rectangle") == "RECTANGLE";
  }
}
