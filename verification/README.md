# Yathes Sign Galaxy gift shop: pricing, cart and page state in Dafny

This project models the core of a personalised-gift web shop. That core has three parts:

- **The pricing engine.** `getShapeCost` and `calculatePrice` turn a product, a number of extra heads and a variation selection into an original price, a final price and a breakdown.
- **The shared store.** The `CartProvider` holds the cart, the wishlist and the user.
- **The page rules built on them:**
  - the product page (route lookup, default options, option changes, the extra-head counter, the cart snapshot);
  - the cart page (total, UPI link, order message);
  - the catalogue (filters, sorts, category and occasion toggles, reset);
  - the search box (suggestions, recent searches, badges);
  - the back office (inventory filter, list handlers, variation editor);
  - the landing page (carousel, wishlist test, trending grid).

Modules, one per source file plus four helpers:

| file | module | models |
|---|---|---|
| types.dfy | `Types` | the records of `src/types.ts` |
| text.dfy | `Text` | the JavaScript string functions the pages use: ASCII `toUpperCase`/`toLowerCase`, `trim`, `includes`, number-to-text |
| seqs.dfy | `Seqs` | `filter`, `slice(0, n)`, the include-or-remove toggle |
| records.dfy | `Records` | a `Record<string, VariationOption>` object: its entries in creation order, and the order `Object.entries`/`Object.values` visit them |
| sorting.dfy | `Sorting` | the stable `Array.prototype.sort` with a numeric comparator |
| pricing.dfy | `Pricing` | `src/data/products.ts` |
| store.dfy | `Store` | `src/context.tsx` |
| product_details.dfy | `ProductDetails` | `src/pages/ProductDetails.tsx` |
| cart_page.dfy | `CartPage` | `src/pages/Cart.tsx` |
| shop.dfy | `Shop` | `src/pages/Shop.tsx` |
| navbar.dfy | `Navbar` | `src/components/Navbar.tsx` |
| admin.dfy | `Admin` | `src/pages/Admin.tsx` |
| home.dfy | `Home` | `src/pages/Home.tsx` |

How the code's form carries over:

- JavaScript numbers are integers here; prices in the shop are whole rupees.
- `a || b` on an optional number treats both `undefined` and `0` as missing (`Pricing.OrElse`).
- `Math.round(x / 100)` is `(x + 50) / 100` in floor division. That equals `floor(x/100 + 1/2)` exactly.
- The React state cells that handlers replace become fields of classes (`CartProvider`, `DetailsPage`, `ShopFilters`, `SearchBox`, `AdminPanel`, `Carousel`). Their methods `modifies this` and state the whole new state.
- The two loops in the source are `while` loops proved against a specification function:
  - the `forEach` that fills the default options (`ComputeDefaults`);
  - the nested `forEach` that builds the order message (`AppendRows` and `AppendOptionLines`, called by `BuildCheckoutMessage`).
- Clock readings (`Date.now()` ids) and the operator's answer to `window.confirm` are method parameters.

The store keeps the cart and the wishlist locally.

## Model

| member | source | states |
|---|---|---|
| Pricing.GetShapeCost | src/data/products.ts:4-10 | the surcharge is 400 exactly when the upper-cased shape is RECTANGLE, SQUARE or ROUND, and 1000 otherwise |
| Pricing.GetShapeCostIgnoresCase | src/data/products.ts:5 | two shapes that differ only in letter case cost the same |
| Pricing.CustomShapeUsesCustomCost | src/data/products.ts:18-24 | a shape that upper-cases to CUSTOM uses `customShapeCost \|\| custom_shape_cost \|\| 0`; any other shape uses the 400/1000 table |
| Pricing.CustomCostIgnoredForTableShapes | src/data/products.ts:18-24 | for a non-custom shape, changing either custom-cost field changes no price |
| Pricing.ZeroFieldsFallThrough | src/data/products.ts:21-26 | a zero `pdfPrice` falls through to `base_price`, a zero custom cost to the raw custom cost, and a product with neither price has base 0 |
| Pricing.RoundHalfUp100 | src/data/products.ts:36 | the result is the nearest integer to n/100, halves rounded up |
| Pricing.CalculatePrice | src/data/products.ts:12-47 | the breakdown is exactly the base, shape, variation and head components; original is twice base+variations+shape; final is the discounted doubled price plus 100 per head, rounded to the nearest rupee |
| Pricing.VariationCostConcat | src/data/products.ts:27 | the variation cost of two selections laid end to end is the sum of their costs |
| Pricing.VariationCostReplace | src/data/products.ts:27 | replacing one entry changes the cost by the difference of the two adjustments |
| Pricing.VariationCostAssign | src/data/products.ts:27 | choosing option o for a variation swaps the old option's adjustment for o's, or adds o's when none was chosen |
| Pricing.OriginalIgnoresHeadsAndDiscount | src/data/products.ts:28-38 | the original price depends on neither the extra heads nor the discount |
| Pricing.RoundShift | src/data/products.ts:36 | adding 100k before rounding adds k after it |
| Pricing.ExtraHeadsAddHundredEach | src/data/products.ts:34-36 | k more heads raise the final price by exactly 100k, so the final price never falls as heads grow |
| Pricing.ExplicitZeroDiscount | src/data/products.ts:31-33 | an explicit zero discount gives final = original + 100 per head |
| Pricing.DefaultDiscount | src/data/products.ts:31 | an absent discount applies 35% |
| Pricing.WorkedExamples | src/data/products.ts:17-38 | custom cost 500 and base 1000 give 3000/1950; with 2 heads 2150; with a +150 option 3300/2145 |
| Pricing.SeedRecords | src/data/seedProducts.ts:5-112 | seed "Heart" (raw custom cost 200) still pays the 1000 surcharge: 3700/2405; "Custom" pays its 500: 3400/2210; "Rectangle" pays 400: 2200/1430 |
| Store.CartProvider.constructor | src/context.tsx:28-31 | the shop starts with an empty cart and wishlist, no user, and the empty catalogue |
| Store.CartProvider.SetUser | src/context.tsx:84-86 | replaces the user and nothing else |
| Store.CartProvider.AddToCart | src/context.tsx:88-90 | appends the row; the wishlist and user are untouched |
| Store.CartProvider.RemoveFromCart | src/context.tsx:92-94 | the cart becomes the rows with another cart id; wishlist and user untouched |
| Store.CartProvider.ToggleWishlist | src/context.tsx:96-104 | drops every entry with the product's id if there is one, else appends the product; cart and user untouched |
| Store.AddToCartAppends | src/context.tsx:88-90 | the cart grows by one at the end and earlier rows are unchanged, even for a product already in the cart |
| Store.RemoveRowsSpec | src/context.tsx:92-94 | exactly the rows with another cart id remain, in their order (removal distributes over concatenation) |
| Store.RemoveRowsIdempotent | src/context.tsx:92-94 | removing an absent id changes nothing; removing twice is removing once |
| Store.ToggleFlipsPresence | src/context.tsx:96-104 | after a toggle the product's id is present exactly when it was absent; other ids keep their presence |
| Store.ToggleTwiceRestores | src/context.tsx:97-103 | toggling an absent product twice restores the wishlist exactly |
| Store.ToggleKeepsIdsUnique | src/context.tsx:97-103 | toggling keeps wishlist ids distinct |
| ProductDetails.FindProduct | src/pages/ProductDetails.tsx:14 | the first catalogue product whose id or code is the route id, or none when no product matches |
| ProductDetails.ComputeDefaults | src/pages/ProductDetails.tsx:28-35 | the loop builds exactly the default selection |
| ProductDetails.DefaultsKeys | src/pages/ProductDetails.tsx:30-34 | the defaults have distinct keys, and their keys are exactly the ids of variations with at least one option |
| ProductDetails.DefaultsAreFirstOptions | src/pages/ProductDetails.tsx:28-35 | with distinct variation ids, the defaults are one entry per variation with options, created in variation order, holding its first option |
| ProductDetails.DefaultsPickFirst | src/pages/ProductDetails.tsx:31-33 | each variation with options starts on its first option |
| ProductDetails.ImageFor | src/pages/ProductDetails.tsx:70 | the option's picture when it has a non-empty one, otherwise the product's |
| ProductDetails.DetailsPage.LoadProduct | src/pages/ProductDetails.tsx:26-39 | the selection is reset to the defaults only when the product has a variations list, and the product picture is shown |
| ProductDetails.DetailsPage.ChangeVariation | src/pages/ProductDetails.tsx:68-71 | writes the option under the variation's key, leaving other keys alone, and shows the option's picture |
| ProductDetails.DetailsPage.SetCustomName | src/pages/ProductDetails.tsx:138 | replaces the custom text only |
| ProductDetails.DetailsPage.SetUploadedImage | src/pages/ProductDetails.tsx:63-66 | stores the uploaded picture's data URL only |
| ProductDetails.DetailsPage.DecrementHeads | src/pages/ProductDetails.tsx:137 | the counter drops by one but never below zero |
| ProductDetails.DetailsPage.IncrementHeads | src/pages/ProductDetails.tsx:137 | the counter rises by exactly one |
| ProductDetails.DetailsPage.AddToCart | src/pages/ProductDetails.tsx:81-84 | appends a row with the current final and original prices, quantity 1, the extra heads and the selection as they are now |
| ProductDetails.SnapshotAddsShownPrice | src/pages/ProductDetails.tsx:82 | adding the row raises the cart total by the final price shown on the page, and the order message lists its selected options |
| ProductDetails.DetailsPage.ToggleWishlist | src/pages/ProductDetails.tsx:86-90 | toggles the product and reports "added" exactly when it was absent before |
| ProductDetails.WishlistAlertTruthful | src/pages/ProductDetails.tsx:86-90 | the alert says "added" exactly when the product is in the new wishlist |
| ProductDetails.BadgeAgreesWithPrice | src/pages/ProductDetails.tsx:126 | the badge shows the discount the price applies, except for an explicit 0: the badge shows 35 and the price applies none |
| ProductDetails.ChangeVariationReprices | src/pages/ProductDetails.tsx:68-71 | changing an option moves the original price by twice the difference between the new and the previous adjustment |
| CartPage.CartTotalConcat | src/pages/Cart.tsx:12 | the total of two carts laid end to end is the sum of their totals |
| CartPage.CartTotalAppend | src/pages/Cart.tsx:12 | the empty cart totals 0, and appending a row adds its frozen price times quantity |
| CartPage.CartTotalNonNegative | src/pages/Cart.tsx:12 | non-negative prices and quantities give a non-negative total |
| CartPage.UpiLinkCarriesTotal | src/pages/Cart.tsx:15-18 | the link starts with the payee fields, ends with `&cu=INR`, and its `am` field reads back as the total |
| CartPage.CartScreen | src/pages/Cart.tsx:12-72 | the empty-cart view exactly for an empty cart; otherwise the summary with the total and its UPI link |
| CartPage.AppendOptionLines | src/pages/Cart.tsx:41-46 | appends one option line per selected option, in the order `Object.entries` visits the keys (array-index keys first, by value) |
| CartPage.AppendRows | src/pages/Cart.tsx:38-52 | the outer loop appends every row's lines, numbered from 1 in cart order |
| CartPage.ItemsLinesStep | src/pages/Cart.tsx:38 | the lines of one more row follow the lines of the rows before it |
| CartPage.AppendItemLines | src/pages/Cart.tsx:38-52 | appends the lines of one row |
| CartPage.BuildCheckoutMessage | src/pages/Cart.tsx:36-55 | the heading, the rows' lines, then total, payment status and request to confirm: exactly the specified message |
| CartPage.MessageTitles | src/pages/Cart.tsx:38-39 | the message has one title per row, numbered 1..n in cart order, with its name and quantity |
| CartPage.ItemLinesTitle | src/pages/Cart.tsx:39 | a row's entry holds exactly one title line, its first |
| CartPage.ItemLinesContents | src/pages/Cart.tsx:40-51 | custom text or "None"; an "Extra Heads" line exactly when extra heads > 0; one line per selected option |
| Sorting.SortBySorted | src/pages/Shop.tsx:52-61 | the sort yields ascending keys and a rearrangement of its input |
| Sorting.SortByStable | src/pages/Shop.tsx:52-61 | elements of equal key keep their input order |
| Sorting.SortByConstantKey | src/pages/Shop.tsx:59 | a comparator that always returns 0 leaves the order unchanged |
| Shop.Categories | src/pages/Shop.tsx:28-30 | each catalogue category once, and only catalogue categories |
| Shop.DistinctKeepsFirstOrder | src/pages/Shop.tsx:29 | categories are listed in order of first appearance |
| Shop.Listing | src/pages/Shop.tsx:40-62 | a rearrangement of the filtered catalogue, never longer than the catalogue |
| Shop.ListingMembership | src/pages/Shop.tsx:41-51 | a product is listed exactly when it is in the catalogue and passes search, category, price and occasion filters |
| Shop.PriceLowAscending | src/pages/Shop.tsx:56 | low to high lists cheapest first |
| Shop.PriceHighDescending | src/pages/Shop.tsx:57 | high to low lists dearest first |
| Shop.PriceSortStable | src/pages/Shop.tsx:52-57 | products of equal price keep catalogue order |
| Shop.DefaultOrderIsCatalogue | src/pages/Shop.tsx:59 | the default order is the filtered catalogue order |
| Shop.UnfilteredShowsPriceRange | src/pages/Shop.tsx:44-47 | with no query, categories or occasions, a product shows exactly when its price is in range |
| Shop.BlankQueryMatchesAll | src/pages/Shop.tsx:43-44 | a query of spaces does not filter |
| Shop.CategoryFilterRestricts | src/pages/Shop.tsx:45 | with categories chosen, only products of those categories are listed |
| Shop.ShopFilters.ToggleCategory | src/pages/Shop.tsx:64-66 | applies the include-or-remove toggle to the categories only |
| Shop.ShopFilters.ToggleOccasion | src/pages/Shop.tsx:68-70 | applies the toggle to the occasions only |
| Shop.ShopFilters.SetSortBy | src/pages/Shop.tsx:22 | changes the sort order only |
| Shop.ShopFilters.SetMaxPrice | src/pages/Shop.tsx:166 | sets the range to 0..value |
| Shop.ShopFilters.Reset | src/pages/Shop.tsx:171 | selections become empty and the range 0..10000; the sort order stays |
| Shop.ResetListsPriceBand | src/pages/Shop.tsx:171 | after a reset with no query, exactly the catalogue products priced 0..10000 are listed |
| Seqs.ToggleMembership | src/pages/Shop.tsx:64-70 | a toggle flips membership of its value and no other |
| Seqs.ToggleTwiceAbsent | src/pages/Shop.tsx:64-70 | toggling an unselected value twice restores the selection |
| Seqs.ToggleTwicePresent | src/pages/Shop.tsx:64-70 | toggling a selected value twice keeps the same values selected, the value moving last |
| Seqs.ToggleNoDuplicates | src/pages/Shop.tsx:64-70 | a toggle keeps a selection free of duplicates |
| Navbar.Suggestions | src/components/Navbar.tsx:45-59 | none for a blank query; otherwise at most six catalogue products, each matching the lower-cased query, in catalogue order |
| Navbar.SuggestionsComplete | src/components/Navbar.tsx:48-52 | fewer than six suggestions means every match is suggested |
| Navbar.SuggestionsDoNotTrim | src/components/Navbar.tsx:46-47 | the query is trimmed only for the blank test: "Mug" is suggested for "mug" but not for "mug " |
| Navbar.SaveRecentFront | src/components/Navbar.tsx:61-66 | a saved term comes first, once, followed by the earlier terms in order; the list holds min(5, earlier other terms + 1) entries |
| Navbar.SaveRecentNoDuplicates | src/components/Navbar.tsx:63 | a duplicate-free list stays duplicate-free |
| Navbar.SaveRecentIdempotent | src/components/Navbar.tsx:63 | saving the same term twice in a row is saving it once |
| Navbar.SearchBox.SetSearchQuery | src/components/Navbar.tsx:178 | replaces the query only |
| Navbar.SearchBox.RefreshSuggestions | src/components/Navbar.tsx:45-59 | suggestions become those of the current query and the dropdown opens; the recent-search list shows exactly when the query is empty and the list is not |
| Navbar.SearchBox.SaveRecentSearch | src/components/Navbar.tsx:61-66 | the list becomes the saved-term list; a blank term changes nothing |
| Navbar.SearchBox.HandleSearch | src/components/Navbar.tsx:150-157 | only Enter with a non-blank query acts: it saves and searches the trimmed query and closes menu and dropdown |
| Navbar.SearchBox.HandleRecentSearchClick | src/components/Navbar.tsx:160 | puts the term back in the box, saves it and searches it |
| Navbar.SearchBox.HandleSuggestionClick | src/components/Navbar.tsx:159 | empties the box, closes dropdown and menu, and goes to the product |
| Navbar.SearchBox.ClearRecentSearches | src/components/Navbar.tsx:161 | empties the recent-search list only, so the recent-search panel is no longer shown |
| Navbar.CartBadge | src/components/Navbar.tsx:285-288 | shown exactly when the cart has rows, and then shows the sum of their quantities |
| Navbar.BadgeCountsRows | src/components/Navbar.tsx:287 | with every row of quantity one, the quantity sum and the badge of a non-empty cart equal the number of rows |
| Navbar.WishlistBadge | src/components/Navbar.tsx:264 | shown exactly when the wishlist is non-empty, with its length |
| Admin.AdminListing | src/pages/Admin.tsx:90-97 | the listed products are those of the list that match the query and the status filter, in order |
| Admin.BlankQueryListsAll | src/pages/Admin.tsx:91-94 | a query of spaces with 'All' lists every product |
| Admin.ClampStock | src/pages/Admin.tsx:105 | the stock is never negative and is the requested value when that is not negative |
| Admin.StockNeverNegative | src/pages/Admin.tsx:105 | updated products carry a non-negative stock, the requested one when it is non-negative |
| Admin.StockLastWins | src/pages/Admin.tsx:105 | a later stock update of the same product overrides an earlier one |
| Admin.FlipCustomerEffect | src/pages/Admin.tsx:106 | matching customers change their status and nothing else; others are unchanged |
| Admin.FlipCustomerTwice | src/pages/Admin.tsx:106 | toggling a customer twice is the identity |
| Admin.WithOrderStatus | src/pages/Admin.tsx:107 | only orders with the id take the new status |
| Admin.OrderStatusLastWins | src/pages/Admin.tsx:107 | a later status update overrides an earlier one; matching orders carry the new status |
| Admin.UpsertShape | src/pages/Admin.tsx:140 | saving a known id replaces its entries in place, keeping length and positions; a new id is appended |
| Admin.UpsertKeepsIdsUnique | src/pages/Admin.tsx:140 | saving keeps product ids distinct |
| Admin.UpsertIdempotent | src/pages/Admin.tsx:140 | saving the same product twice is saving it once |
| Admin.DeleteEffect | src/pages/Admin.tsx:104 | deleting leaves exactly the products with another id, and deleting again changes nothing |
| Admin.WithNewVariation | src/pages/Admin.tsx:134 | a new option-less variation `var_<stamp>` goes last, named after its button; nothing else in the product changes |
| Admin.WithNewOption | src/pages/Admin.tsx:135 | the new option goes last in the matching variations only; an absent list stays absent |
| Admin.NewVariationKeepsDefaults | src/pages/Admin.tsx:134 | adding a variation leaves the product page's default selection unchanged |
| Admin.NewOptionKeepsFirstOption | src/pages/Admin.tsx:135 | a variation that had options keeps its first option |
| Admin.AdminPanel.DeleteProduct | src/pages/Admin.tsx:104 | when confirmed, removes every product with the id; otherwise nothing changes |
| Admin.AdminPanel.StockUpdate | src/pages/Admin.tsx:105 | sets the clamped stock on matching products only |
| Admin.AdminPanel.ToggleCustomerStatus | src/pages/Admin.tsx:106 | flips the matching customers' status only |
| Admin.AdminPanel.UpdateOrderStatus | src/pages/Admin.tsx:107 | sets the status of matching orders only |
| Admin.AdminPanel.StartEditing | src/pages/Admin.tsx:79-83 | opening the editor copies the product into it |
| Admin.AdminPanel.AddVariation | src/pages/Admin.tsx:134 | adds the variation to the edited product; nothing happens with no product in the editor |
| Admin.AdminPanel.AddOption | src/pages/Admin.tsx:135 | adds the option to the edited product; nothing happens with no product in the editor |
| Admin.AdminPanel.SaveProduct | src/pages/Admin.tsx:140 | upserts the edited product and closes the editor; with no product in the editor the list is unchanged |
| Home.NextSlide | src/pages/Home.tsx:63 | keeps an index in [0, 3) inside [0, 3) |
| Home.PrevSlide | src/pages/Home.tsx:64 | keeps an index in [0, 3) inside [0, 3) |
| Home.PrevUndoesNext | src/pages/Home.tsx:63-64 | prev(next(i)) = i and next(prev(i)) = i on [0, 3) |
| Home.CarouselWraps | src/pages/Home.tsx:63-64 | the last slide wraps to the first and back |
| Home.TicksCycle | src/pages/Home.tsx:56-61 | after k timer ticks from the first slide, slide k mod 3 is shown |
| Home.Carousel.Next | src/pages/Home.tsx:63 | advances the slide and keeps it in range |
| Home.Carousel.Prev | src/pages/Home.tsx:64 | steps the slide back and keeps it in range |
| Home.IsInWishlist | src/pages/Home.tsx:66 | true exactly when some wishlist product has the id |
| Home.Trending | src/pages/Home.tsx:196 | the first min(8, n) catalogue products, in order |
| Records.AssignLookup | src/pages/ProductDetails.tsx:69 | after `{...sel, [k]: o}`, k holds o and every other key holds what it held |
| Records.AssignPosition | src/pages/ProductDetails.tsx:69 | in creation order, a new key is created last and an existing key is replaced where it stands |
| Records.Place | src/pages/Cart.tsx:42 | placing a new key in the visiting order keeps every entry and adds exactly that one |
| Records.Entries | src/pages/Cart.tsx:42 | `Object.entries` lists as many entries as the object holds |
| Records.EntriesRearranges | src/pages/Cart.tsx:42 | `Object.entries` lists exactly the object's entries, each once |
| Records.EntriesIndexFirst | src/pages/Cart.tsx:42 | in the visiting order an array-index key is preceded only by array-index keys of smaller or equal value |
| Records.EntriesNamedInOrder | src/pages/Cart.tsx:42 | the keys that are not array indices are visited in creation order |
| Records.AssignNamedGoesLast | src/pages/ProductDetails.tsx:69 | writing a new key that is not an array index adds it at the end of the visiting order |
| Records.IndexKeysComeFirst | src/pages/Cart.tsx:42 | after `{ "10": a }` gains "2", "2" is created last but visited first |
| Pricing.VariationCostPermutation | src/data/products.ts:27 | any rearrangement of the selected options has the same cost |
| Pricing.VariationCostVisitOrder | src/data/products.ts:27 | summing in the order `Object.values` visits the keys gives the cost in creation order |
| Text.IncludesNotLonger | src/pages/Shop.tsx:44 | a string never includes a longer one |
| Records.AssignKeys | src/pages/ProductDetails.tsx:69 | keys stay distinct and gain only k |
| Text.Trim | src/pages/Shop.tsx:43 | the result is the input with a blank prefix and a blank suffix removed; it is empty exactly for a blank string, otherwise neither end is whitespace |
| Text.Upper | src/data/products.ts:5 | `toUpperCase` keeps the length; each character keeps its lower-case form and none is left in a-z |
| Text.Lower | src/pages/Shop.tsx:43 | `toLowerCase` keeps the length; each character keeps its upper-case form and none is left in A-Z |
| Records.Lookup | src/pages/ProductDetails.tsx:69 | `sel[k]` is absent exactly when k is not a key, and otherwise is the option stored under k |
| Pricing.VariationCostSingle | src/data/products.ts:27 | a one-entry selection costs that option's adjustment |
| Sorting.SortBy | src/pages/Shop.tsx:52-61 | the sort returns a rearrangement of its input |
| Shop.Distinct | src/pages/Shop.tsx:29 | `new Set` keeps every value and drops duplicates |
| Home.JsRem | src/pages/Home.tsx:63-64 | JavaScript's remainder lies in [0, n) for non-negative operands and in (-n, 0] for negative ones |
| Store.UniqueIdsFilter | src/context.tsx:99 | dropping wishlist entries keeps the ids distinct |
| ProductDetails.DetailsPage.constructor | src/pages/ProductDetails.tsx:15-24 | the page opens with no text, picture, heads or selection |
| Shop.ShopFilters.constructor | src/pages/Shop.tsx:22-25 | the default sort, no selections, and the range 0..10000 |
| Navbar.SearchBox.constructor | src/components/Navbar.tsx:11-19 | an empty box, no suggestions, a closed menu and the saved recent searches |
| Admin.AdminPanel.constructor | src/pages/Admin.tsx:54-68 | the given lists, and nothing in the editor |
| Home.Carousel.constructor | src/pages/Home.tsx:54 | the carousel starts on the first slide |
| Text.IntToStringRoundTrip | src/pages/Cart.tsx:18 | the decimal text of an integer reads back as that integer |

## Left out

- The cart and wishlist are kept locally; no remote sync exists in the code.
- The price text: `formatPrice`, the rupee `toLocaleString` and the dollar conversion `(price * 0.012).toFixed(2)`. These are floating-point formatting, so the order message carries the numbers themselves.
- `encodeURIComponent`, the QR-code URL, the WhatsApp and share links, `window.confirm`, `alert`, `window.open` and `navigator.share` are foreign calls. The encoded payee name is a constant, and the confirmation is a parameter of `DeleteProduct`.
- Browser storage: loading and saving the cart, wishlist, user and recent searches. The `SearchBox` constructor takes the saved list as a parameter.
- The Supabase client, sign-in and sign-up, the authentication hooks and the seeding routine. These are back-end I/O.
- The `loading` flag the pages read, the AI studio and face-swap preview, the gift advisor chat, the product rating average, routing, the footer, the wishlist page and the back office's mock data.
- Floating-point effects inside `calculatePrice`. The model computes exactly over integer inputs.
- Case mapping beyond ASCII: `toUpperCase`/`toLowerCase` change only A-Z/a-z here.
- Number-to-text beyond plain decimal: exponent forms for magnitudes of 1e21 and more are not modelled.
- The shop's `categories` list is computed once, when the page first appears, from the catalogue at that moment. `Shop.Categories` is the list for the catalogue it is given.
- The context's catalogue is the empty array of `src/data/products.ts`. The pages' functions take the catalogue as a parameter.
- Shop.Listing: the 'newest' order is excluded by its precondition. It subtracts `parseInt` of the ids, which is NaN for non-numeric ids and leaves the order up to the engine.
- Navbar.SearchBox.RefreshSuggestions: this effect runs after a render, so a caller runs it after `SetSearchQuery` or `HandleSuggestionClick`. The model does not fix when React schedules it.
- ProductDetails.DetailsPage.LoadProduct: the customisation fields (text, picture, extra heads) keep their values when another product is shown. For a product without a variations list the previous selection is also kept, as the code does.
- CartPage.OptionLineOf: the option type declares `priceAdjustment` as a required number, while the model lets it be absent, as the pricing code's `|| 0` fallback allows. For an absent amount the checkout message is an error in the code (`formatPrice(undefined)` throws in rupee mode and prints "$NaN" in dollar mode); the model still builds the line and carries the absent amount in it, so that error is not modelled.
- Admin's image upload and generated-image handlers read files or call AI stubs, so they are not modelled.
