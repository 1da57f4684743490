/** The cart page of `src/pages/Cart.tsx`: the order total from the prices
    frozen in the rows, the UPI payment link, and the order message that
    `handleCheckout` assembles for the WhatsApp hand-off. The message is
    modelled line by line; the rupee formatting of prices is not. */
module CartPage {

  import opened Types
  import opened Text
  import opened Seqs
  import opened Records

  /** `cart.reduce((acc, item) => acc + item.calculatedPrice * item.quantity, 0)`. */
  function CartTotal(cart: seq<CartItem>): int
  {
    if cart == [] then 0
    else CartTotal(cart[..|cart| - 1]) + cart[|cart| - 1].calculatedPrice * cart[|cart| - 1].quantity
  }

  /** The total of two carts laid end to end is the sum of their totals; in
      particular appending a row raises the total by its price times quantity. */
  lemma {:induction false} CartTotalConcat(a: seq<CartItem>, b: seq<CartItem>)
    ensures CartTotal(a + b) == CartTotal(a) + CartTotal(b)
    decreases |b|
  {
    if b == [] {
      assert a + b == a;
    } else {
      assert (a + b)[..|a + b| - 1] == a + b[..|b| - 1];
      CartTotalConcat(a, b[..|b| - 1]);
    }
  }

  /** The empty cart costs nothing, and a row adds its frozen line price. */
  lemma CartTotalAppend(cart: seq<CartItem>, item: CartItem)
    ensures CartTotal([]) == 0
    ensures CartTotal(cart + [item]) == CartTotal(cart) + item.calculatedPrice * item.quantity
  {
    assert (cart + [item])[..|cart|] == cart;
  }

  /** With non-negative prices and quantities the total is non-negative. */
  lemma {:induction false} CartTotalNonNegative(cart: seq<CartItem>)
    requires forall i :: 0 <= i < |cart| ==> cart[i].calculatedPrice >= 0 && cart[i].quantity >= 0
    ensures CartTotal(cart) >= 0
  {
    if cart != [] {
      CartTotalNonNegative(cart[..|cart| - 1]);
      var last := cart[|cart| - 1];
      assert last.calculatedPrice * last.quantity >= 0;
    }
  }

  // ------------------------------------------------------- the UPI link

  const UpiId: string := "signgalaxy31@gmail.com"
  const PayeeName: string := "YATHES SIGN GALAXY"
  /** `encodeURIComponent(PayeeName)`. */
  const EncodedPayeeName: string := "YATHES%20SIGN%20GALAXY"
  const UpiPrefix: string := "upi://pay?pa=" + UpiId + "&pn=" + EncodedPayeeName + "&am="
  const UpiSuffix: string := "&cu=INR"

  /** `upi://pay?pa=${UPI_ID}&pn=${encodeURIComponent(PAYEE_NAME)}&am=${total}&cu=INR`. */
  function UpiLink(total: int): string
  {
    UpiPrefix + IntToString(total) + UpiSuffix
  }

  /** The link names the payee, carries the currency INR, and its amount
      field reads back as the cart total. */
  lemma UpiLinkCarriesTotal(total: int)
    ensures var link := UpiLink(total);
      && link[..|UpiPrefix|] == UpiPrefix
      && |link| >= |UpiPrefix| + |UpiSuffix|
      && link[|link| - |UpiSuffix|..] == "&cu=INR"
      && ParseDecimal(link[|UpiPrefix|..|link| - |UpiSuffix|]) == Some(total)
  {
    var link := UpiLink(total);
    var amount := IntToString(total);
    assert link[|UpiPrefix|..|link| - |UpiSuffix|] == amount;
    assert link[|link| - |UpiSuffix|..] == UpiSuffix;
    IntToStringRoundTrip(total);
  }

  /** What the page shows: the empty-cart view, or the order summary with
      the total and the payment link. */
  datatype Screen = EmptyCart | Summary(total: int, upiLink: string)

  function CartScreen(cart: seq<CartItem>): (r: Screen)
    ensures r == EmptyCart <==> cart == []
    ensures r.Summary? ==> r.total == CartTotal(cart) && r.upiLink == UpiLink(CartTotal(cart))
  {
    if |cart| == 0 then EmptyCart else Summary(CartTotal(cart), UpiLink(CartTotal(cart)))
  }

  // ---------------------------------------------------- the order message

  /** One line of the order message. */
  datatype Line =
    | Heading                                              // "NEW ORDER REQUEST - YATHES SIGN GALAXY", blank line
    | ItemTitle(number: int, name: string, quantity: int)  // "<n>. <name> (Qty: <q>)"
    | CustomText(text: string)                             // "   Custom Text: <text>"
    | OptionLine(labelText: string, priceAdjustment: Option<int>)
    | ExtraHeadsLine(count: int)                           // "   Extra Heads: <n>"
    | AiSwapLine                                           // "   AI Swap Requested: Yes"
    | PriceLine(price: int)                                // "   Price: <price>", blank line
    | TotalLine(total: int)                                // "TOTAL: <total>", blank line
    | PaymentLine                                          // "Payment Status: PAID via UPI QR"
    | ConfirmLine                                          // "Please confirm order processing."

  /** `item.customName || 'None'`. */
  function CustomTextOf(item: CartItem): string
  {
    if item.customName == "" then "None" else item.customName
  }

  /** The line of one option. */
  function OptionLineOf(e: Entry): Line
  {
    OptionLine(e.option.labelText, e.option.priceAdjustment)
  }

  /** One line per entry, in the order given. */
  function EntryLines(es: seq<Entry>): (r: seq<Line>)
    ensures |r| == |es|
    ensures forall l :: l in r ==> l.OptionLine?
  {
    seq(|es|, i requires 0 <= i < |es| => OptionLineOf(es[i]))
  }

  /** One line per entry of the selection, in the order `Object.entries`
      visits the keys. */
  function OptionLines(sel: Selection): (r: seq<Line>)
    ensures |r| == |sel|
    ensures forall l :: l in r ==> l.OptionLine?
  {
    EntryLines(Entries(sel))
  }

  function SelectedOptionLines(item: CartItem): (r: seq<Line>)
    ensures forall l :: l in r ==> l.OptionLine?
  {
    match item.selectedVariations
    case Some(sel) => OptionLines(sel)
    case None => []
  }

  /** `item.extraHeads && item.extraHeads > 0`. */
  predicate HasExtraHeads(item: CartItem)
  {
    item.extraHeads.Some? && item.extraHeads.value > 0
  }

  /** The lines `handleCheckout` writes for the row numbered `number`. */
  function ItemLines(item: CartItem, number: int): seq<Line>
  {
    [ItemTitle(number, item.product.name, item.quantity), CustomText(CustomTextOf(item))]
    + SelectedOptionLines(item)
    + (if HasExtraHeads(item) then [ExtraHeadsLine(item.extraHeads.value)] else [])
    + [AiSwapLine, PriceLine(item.calculatedPrice)]
  }

  /** The rows' lines, numbered from 1 in cart order. */
  function ItemsLines(cart: seq<CartItem>): seq<Line>
  {
    if cart == [] then [] else ItemsLines(cart[..|cart| - 1]) + ItemLines(cart[|cart| - 1], |cart|)
  }

  function CheckoutMessage(cart: seq<CartItem>): seq<Line>
  {
    [Heading] + ItemsLines(cart) + [TotalLine(CartTotal(cart)), PaymentLine, ConfirmLine]
  }

  /** The inner `forEach` over `Object.entries(item.selectedVariations)`:
      one line per selected option, in the order the keys are visited. */
  method AppendOptionLines(message: seq<Line>, sel: Selection) returns (r: seq<Line>)
    ensures r == message + OptionLines(sel)
  {
    var entries := Entries(sel);
    r := message;
    var k := 0;
    while k < |entries|
      invariant 0 <= k <= |entries|
      invariant r == message + EntryLines(entries[..k])
    {
      assert EntryLines(entries[..k + 1]) == EntryLines(entries[..k]) + [OptionLineOf(entries[k])];
      r := r + [OptionLine(entries[k].option.labelText, entries[k].option.priceAdjustment)];
      k := k + 1;
    }
    assert entries[..|entries|] == entries;
  }

  /** The body of the outer `forEach`: the lines of the row numbered `number`. */
  method AppendItemLines(message: seq<Line>, item: CartItem, number: int) returns (r: seq<Line>)
    ensures r == message + ItemLines(item, number)
  {
    r := message + [ItemTitle(number, item.product.name, item.quantity)];
    r := r + [CustomText(if item.customName == "" then "None" else item.customName)];
    var head := r;
    if item.selectedVariations.Some? {
      r := AppendOptionLines(r, item.selectedVariations.value);
    }
    assert r == head + SelectedOptionLines(item);
    var withOptions := r;
    if item.extraHeads.Some? && item.extraHeads.value > 0 {
      r := r + [ExtraHeadsLine(item.extraHeads.value)];
    }
    assert r == withOptions + (if HasExtraHeads(item) then [ExtraHeadsLine(item.extraHeads.value)] else []);
    r := r + [AiSwapLine];
    r := r + [PriceLine(item.calculatedPrice)];
  }

  /** The lines of the first `idx + 1` rows extend those of the first `idx`. */
  lemma ItemsLinesStep(cart: seq<CartItem>, idx: int)
    requires 0 <= idx < |cart|
    ensures ItemsLines(cart[..idx + 1]) == ItemsLines(cart[..idx]) + ItemLines(cart[idx], idx + 1)
  {
    assert cart[..idx + 1][..idx] == cart[..idx];
  }

  /** The outer `forEach`: appends each row's lines in cart order,
      numbered from 1. */
  method AppendRows(message: seq<Line>, cart: seq<CartItem>) returns (r: seq<Line>)
    ensures r == message + ItemsLines(cart)
  {
    r := message;
    var idx := 0;
    while idx < |cart|
      invariant 0 <= idx <= |cart|
      invariant r == message + ItemsLines(cart[..idx])
    {
      ItemsLinesStep(cart, idx);
      ConcatAssociates(message, ItemsLines(cart[..idx]), ItemLines(cart[idx], idx + 1));
      r := AppendItemLines(r, cart[idx], idx + 1);
      idx := idx + 1;
    }
    assert cart[..|cart|] == cart;
  }

  /** `handleCheckout`'s message assembly: a heading, then each row's lines in
      cart order (numbered from 1), then the total, the payment status and
      the request to confirm. */
  method BuildCheckoutMessage(cart: seq<CartItem>) returns (message: seq<Line>)
    ensures message == CheckoutMessage(cart)
  {
    message := [Heading];
    message := AppendRows(message, cart);
    var total := CartTotal(cart);
    message := message + [TotalLine(total)];
    message := message + [PaymentLine];
    message := message + [ConfirmLine];
  }

  /** The line that opens a row's entry. */
  predicate IsTitle(line: Line) { line.ItemTitle? }

  /** The row titles of the message, in order: row `i` of the cart is
      numbered `i + 1` and shows its name and quantity. */
  function Titles(cart: seq<CartItem>): (r: seq<Line>)
    ensures |r| == |cart|
  {
    seq(|cart|, i requires 0 <= i < |cart| => ItemTitle(i + 1, cart[i].product.name, cart[i].quantity))
  }

  lemma ItemLinesTitle(item: CartItem, number: int)
    ensures Filter(ItemLines(item, number), IsTitle) == [ItemTitle(number, item.product.name, item.quantity)]
  {
    var title := ItemTitle(number, item.product.name, item.quantity);
    var options := SelectedOptionLines(item);
    var heads := if HasExtraHeads(item) then [ExtraHeadsLine(item.extraHeads.value)] else [];
    var rest := [CustomText(CustomTextOf(item))] + options + heads + [AiSwapLine, PriceLine(item.calculatedPrice)];
    assert ItemLines(item, number) == [title] + rest;
    forall x | x in rest ensures !IsTitle(x) {
      if x in options {
        assert x.OptionLine?;
      }
    }
    FilterAppend([title], rest, IsTitle);
    FilterKeepsNone(rest, IsTitle);
    assert Filter([title], IsTitle) == [title];
  }

  /** Exactly one title per row, numbered 1..n in cart order. */
  lemma {:induction false} MessageTitles(cart: seq<CartItem>)
    ensures Filter(ItemsLines(cart), IsTitle) == Titles(cart)
    decreases |cart|
  {
    if cart != [] {
      var n := |cart|;
      var prev := cart[..n - 1];
      var last := cart[n - 1];
      assert ItemsLines(cart) == ItemsLines(prev) + ItemLines(last, n);
      MessageTitles(prev);
      FilterAppend(ItemsLines(prev), ItemLines(last, n), IsTitle);
      ItemLinesTitle(last, n);
      TitlesSnoc(cart);
    }
  }

  lemma TitlesSnoc(cart: seq<CartItem>)
    requires cart != []
    ensures Titles(cart) == Titles(cart[..|cart| - 1]) + [ItemTitle(|cart|, cart[|cart| - 1].product.name, cart[|cart| - 1].quantity)]
  {
    var n := |cart|;
    var rhs := Titles(cart[..n - 1]) + [ItemTitle(n, cart[n - 1].product.name, cart[n - 1].quantity)];
    forall i | 0 <= i < n ensures Titles(cart)[i] == rhs[i] {
      if i < n - 1 {
        assert cart[..n - 1][i] == cart[i];
      }
    }
  }

  /** A row's entry shows its custom text, or "None" for an empty one; it has
      an "Extra Heads" line exactly when the row has more than zero extra
      heads, and one line per selected option. */
  lemma ItemLinesContents(item: CartItem, number: int)
    ensures ItemLines(item, number)[1] == CustomText(if item.customName == "" then "None" else item.customName)
    ensures (exists i :: 0 <= i < |ItemLines(item, number)| && ItemLines(item, number)[i].ExtraHeadsLine?)
      <==> item.extraHeads.Some? && item.extraHeads.value > 0
    ensures |ItemLines(item, number)| ==
      4 + |SelectedOptionLines(item)| + (if HasExtraHeads(item) then 1 else 0)
  {
    var lines := ItemLines(item, number);
    if HasExtraHeads(item) {
      assert lines[2 + |SelectedOptionLines(item)|].ExtraHeadsLine?;
    } else {
      forall i | 0 <= i < |lines| ensures !lines[i].ExtraHeadsLine? {
        if 2 <= i < 2 + |SelectedOptionLines(item)| {
          match item.selectedVariations
          case Some(sel) => assert lines[i] == OptionLines(sel)[i - 2];
          case None =>
        }
      }
    }
  }
}
