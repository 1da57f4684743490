/** The back office of `src/pages/Admin.tsx`: the inventory filter and the
    handlers that edit the product, customer and order lists and the product
    being edited. The mock data, the AI studio and the rendering are not
    part of this model. */
module Admin {

  import opened Types
  import opened Text
  import opened Seqs
  import opened Store
  import opened ProductDetails

  // ------------------------------------------------------ inventory filter

  /** The status menu: 'All' or one product status. */
  datatype StatusFilter = All | Only(status: ProductStatus)

  /** A product's name, sku (when non-empty) or category contains the
      lower-cased, trimmed query; an empty query matches everything. */
  predicate MatchesAdminSearch(p: Product, searchQuery: string)
  {
    var q := Trim(Lower(searchQuery));
    searchQuery == []
    || Includes(Lower(p.name), q)
    || (p.sku.Some? && p.sku.value != "" && Includes(Lower(p.sku.value), q))
    || Includes(Lower(p.category), q)
  }

  /** `statusFilter === 'All' || product.status === statusFilter`: a product
      without a status only passes 'All'. */
  predicate MatchesStatus(p: Product, f: StatusFilter)
  {
    f.All? || p.status == Some(f.status)
  }

  function KeepListed(searchQuery: string, f: StatusFilter): Product -> bool
  {
    (p: Product) => MatchesAdminSearch(p, searchQuery) && MatchesStatus(p, f)
  }

  /** `filteredProducts`: the products that pass both tests, in list order. */
  function AdminListing(productList: seq<Product>, searchQuery: string, f: StatusFilter): (r: seq<Product>)
    ensures |r| <= |productList|
    ensures forall p :: p in r <==> p in productList && MatchesAdminSearch(p, searchQuery) && MatchesStatus(p, f)
  {
    Filter(productList, KeepListed(searchQuery, f))
  }

  /** A query of spaces matches everything, like the empty query, because
      the trimmed query is contained in every text. */
  lemma BlankQueryListsAll(productList: seq<Product>, searchQuery: string)
    requires IsBlank(Lower(searchQuery))
    ensures AdminListing(productList, searchQuery, All) == productList
  {
    forall p | p in productList ensures KeepListed(searchQuery, All)(p) {
      assert Trim(Lower(searchQuery)) == [];
      assert Includes(Lower(p.name), []);
    }
    FilterKeepsAll(productList, KeepListed(searchQuery, All));
  }

  // ------------------------------------------------------- list handlers

  /** `Math.max(0, newStock)`. */
  function ClampStock(newStock: int): (r: int)
    ensures r >= 0 && r >= newStock
    ensures r == newStock || r == 0
  {
    if 0 > newStock then 0 else newStock
  }

  /** `handleStockUpdate`'s new list: matching products get the clamped
      stock; every other product is unchanged. */
  function WithStock(ps: seq<Product>, id: string, newStock: int): (r: seq<Product>)
    ensures |r| == |ps|
    ensures forall i :: 0 <= i < |ps| ==>
      r[i] == if ps[i].id == id then ps[i].(stock := Some(ClampStock(newStock))) else ps[i]
  {
    seq(|ps|, i requires 0 <= i < |ps| =>
      if ps[i].id == id then ps[i].(stock := Some(ClampStock(newStock))) else ps[i])
  }

  /** Active becomes Blocked and Blocked becomes Active. */
  function Flip(s: CustomerStatus): (r: CustomerStatus)
    ensures r != s
  {
    match s
    case Active => Blocked
    case Blocked => CustomerStatus.Active
  }

  /** `toggleCustomerStatus`'s new list. */
  function FlipCustomer(cs: seq<Customer>, id: string): (r: seq<Customer>)
    ensures |r| == |cs|
  {
    seq(|cs|, i requires 0 <= i < |cs| => if cs[i].id == id then cs[i].(status := Flip(cs[i].status)) else cs[i])
  }

  /** Only the matching customers change, and only in their status. */
  lemma FlipCustomerEffect(cs: seq<Customer>, id: string, i: int)
    requires 0 <= i < |cs|
    ensures cs[i].id == id ==> (FlipCustomer(cs, id)[i].status != cs[i].status
      && FlipCustomer(cs, id)[i].(status := cs[i].status) == cs[i])
    ensures cs[i].id != id ==> FlipCustomer(cs, id)[i] == cs[i]
  {
  }

  /** Toggling a customer twice restores the list. */
  lemma FlipCustomerTwice(cs: seq<Customer>, id: string)
    ensures FlipCustomer(FlipCustomer(cs, id), id) == cs
  {
    var once := FlipCustomer(cs, id);
    var twice := FlipCustomer(once, id);
    forall i | 0 <= i < |cs| ensures twice[i] == cs[i] {
      if cs[i].id == id {
        assert once[i].id == id;
        match cs[i].status
        case Active =>
        case Blocked =>
      }
    }
  }

  /** `updateOrderStatus`'s new list. */
  function WithOrderStatus(os: seq<Order>, id: string, status: OrderStatus): (r: seq<Order>)
    ensures |r| == |os|
    ensures forall i :: 0 <= i < |os| ==> r[i] == if os[i].id == id then os[i].(status := status) else os[i]
  {
    seq(|os|, i requires 0 <= i < |os| => if os[i].id == id then os[i].(status := status) else os[i])
  }

  predicate HasProduct(ps: seq<Product>, id: string)
  {
    exists i :: 0 <= i < |ps| && ps[i].id == id
  }

  /** `saveProduct`'s new list: replace every product with the edited
      product's id where it stands, or append the edited product. */
  function Upsert(ps: seq<Product>, e: Product): seq<Product>
  {
    if HasProduct(ps, e.id) then seq(|ps|, i requires 0 <= i < |ps| => if ps[i].id == e.id then e else ps[i])
    else ps + [e]
  }

  /** Saving a known product keeps the list's length and every position,
      replacing the entries with its id; saving a new product appends it. */
  lemma UpsertShape(ps: seq<Product>, e: Product)
    ensures HasProduct(ps, e.id) ==> (|Upsert(ps, e)| == |ps|
      && forall i :: 0 <= i < |ps| ==> Upsert(ps, e)[i] == if ps[i].id == e.id then e else ps[i])
    ensures !HasProduct(ps, e.id) ==> Upsert(ps, e) == ps + [e]
    ensures e in Upsert(ps, e)
  {
    if HasProduct(ps, e.id) {
      var i :| 0 <= i < |ps| && ps[i].id == e.id;
      assert Upsert(ps, e)[i] == e;
    }
  }

  /** Saving keeps product ids distinct. */
  lemma UpsertKeepsIdsUnique(ps: seq<Product>, e: Product)
    requires UniqueIds(ps)
    ensures UniqueIds(Upsert(ps, e))
  {
    var r := Upsert(ps, e);
    if !HasProduct(ps, e.id) {
      forall i, j | 0 <= i < j < |r| ensures r[i].id != r[j].id {
        if j == |ps| {
          assert r[i] == ps[i];
        }
      }
    }
  }

  /** Saving the same edited product twice is saving it once. */
  lemma UpsertIdempotent(ps: seq<Product>, e: Product)
    ensures Upsert(Upsert(ps, e), e) == Upsert(ps, e)
  {
    UpsertShape(ps, e);
    var once := Upsert(ps, e);
    var k :| 0 <= k < |once| && once[k] == e;
    assert HasProduct(once, e.id);
  }

  // --------------------------------------------------- variation editing

  /** The three "add variation" buttons. */
  datatype VariationKind = Generic | Size | Shape

  function VariationName(kind: VariationKind): string
  {
    match kind
    case Generic => "New Variation"
    case Size => "Size"
    case Shape => "Shape"
  }

  /** `handleAddVariation`'s product: a new, option-less variation with id
      `var_<stamp>` at the end of the list (an absent list counts as empty). */
  function WithNewVariation(p: Product, kind: VariationKind, stamp: string): (r: Product)
    ensures r.variations.Some?
    ensures var before := if p.variations.Some? then p.variations.value else [];
      r.variations.value == before + [Variation("var_" + stamp, VariationName(kind), [])]
    ensures r.(variations := p.variations) == p
  {
    var current := if p.variations.Some? then p.variations.value else [];
    p.(variations := Some(current + [Variation("var_" + stamp, VariationName(kind), [])]))
  }

  /** The option `handleAddOption` creates. */
  function NewOption(stamp: string): VariationOption
  {
    VariationOption("opt_" + stamp, "New Option", Some(""), Some(0), None)
  }

  /** `handleAddOption`'s variations: the new option goes to the end of the
      matching variations only; an absent list stays absent. */
  function WithNewOption(vars: Option<seq<Variation>>, varId: string, stamp: string): (r: Option<seq<Variation>>)
    ensures r.None? <==> vars.None?
    ensures r.Some? ==> (|r.value| == |vars.value|
      && forall i :: 0 <= i < |vars.value| ==>
        r.value[i] == if vars.value[i].id == varId
          then vars.value[i].(options := vars.value[i].options + [NewOption(stamp)])
          else vars.value[i])
  {
    match vars
    case None => None
    case Some(vs) =>
      Some(seq(|vs|, i requires 0 <= i < |vs| =>
        if vs[i].id == varId then vs[i].(options := vs[i].options + [NewOption(stamp)]) else vs[i]))
  }

  /** The admin panel's lists and editor. */
  class AdminPanel {
    var productList: seq<Product>
    var customers: seq<Customer>
    var orders: seq<Order>
    var isEditing: Option<Product>
    var editedProduct: Option<Product>

    constructor (products: seq<Product>, cs: seq<Customer>, os: seq<Order>)
      ensures productList == products && customers == cs && orders == os
      ensures isEditing == None && editedProduct == None
    {
      productList, customers, orders := products, cs, os;
      isEditing, editedProduct := None, None;
    }

    /** `handleDeleteProduct`: once the operator confirms, every product with
        the id goes; without confirmation nothing changes. */
    method DeleteProduct(id: string, confirmed: bool)
      modifies this
      ensures productList == if confirmed then Filter(old(productList), KeepOtherProducts(id)) else old(productList)
      ensures customers == old(customers) && orders == old(orders)
      ensures isEditing == old(isEditing) && editedProduct == old(editedProduct)
    {
      if confirmed {
        productList := Filter(productList, KeepOtherProducts(id));
      }
    }

    /** `handleStockUpdate`. */
    method StockUpdate(id: string, newStock: int)
      modifies this
      ensures productList == WithStock(old(productList), id, newStock)
      ensures customers == old(customers) && orders == old(orders)
      ensures isEditing == old(isEditing) && editedProduct == old(editedProduct)
    {
      productList := WithStock(productList, id, newStock);
    }

    /** `toggleCustomerStatus`. */
    method ToggleCustomerStatus(id: string)
      modifies this
      ensures customers == FlipCustomer(old(customers), id)
      ensures productList == old(productList) && orders == old(orders)
      ensures isEditing == old(isEditing) && editedProduct == old(editedProduct)
    {
      customers := FlipCustomer(customers, id);
    }

    /** `updateOrderStatus`. */
    method UpdateOrderStatus(id: string, status: OrderStatus)
      modifies this
      ensures orders == WithOrderStatus(old(orders), id, status)
      ensures productList == old(productList) && customers == old(customers)
      ensures isEditing == old(isEditing) && editedProduct == old(editedProduct)
    {
      orders := WithOrderStatus(orders, id, status);
    }

    /** Opening the editor: the edit effect copies the product into the
        editor. */
    method StartEditing(p: Product)
      modifies this
      ensures isEditing == Some(p) && editedProduct == Some(p)
      ensures productList == old(productList) && customers == old(customers) && orders == old(orders)
    {
      isEditing := Some(p);
      editedProduct := Some(p);
    }

    /** `handleAddVariation`; nothing happens with no product in the editor. */
    method AddVariation(kind: VariationKind, stamp: string)
      modifies this
      ensures editedProduct == if old(editedProduct).Some?
        then Some(WithNewVariation(old(editedProduct).value, kind, stamp)) else None
      ensures productList == old(productList) && customers == old(customers) && orders == old(orders)
      ensures isEditing == old(isEditing)
    {
      if editedProduct.Some? {
        editedProduct := Some(WithNewVariation(editedProduct.value, kind, stamp));
      }
    }

    /** `handleAddOption`; nothing happens with no product in the editor. */
    method AddOption(varId: string, stamp: string)
      modifies this
      ensures editedProduct == if old(editedProduct).Some?
        then Some(old(editedProduct).value.(variations := WithNewOption(old(editedProduct).value.variations, varId, stamp)))
        else None
      ensures productList == old(productList) && customers == old(customers) && orders == old(orders)
      ensures isEditing == old(isEditing)
    {
      if editedProduct.Some? {
        var p := editedProduct.value;
        editedProduct := Some(p.(variations := WithNewOption(p.variations, varId, stamp)));
      }
    }

    /** `saveProduct`: upserts the edited product and closes the editor (the
        edit effect then clears the editor's copy). */
    method SaveProduct()
      modifies this
      ensures old(editedProduct).Some? ==>
        productList == Upsert(old(productList), old(editedProduct).value)
        && isEditing == None && editedProduct == None
      ensures old(editedProduct).None? ==>
        productList == old(productList) && isEditing == old(isEditing) && editedProduct == None
      ensures customers == old(customers) && orders == old(orders)
    {
      if editedProduct.Some? {
        productList := Upsert(productList, editedProduct.value);
        isEditing := None;
        editedProduct := None;
      }
    }
  }

  /** Deleting removes exactly the products with the id, keeps the others in
      order, and deleting again changes nothing. */
  lemma DeleteEffect(ps: seq<Product>, id: string)
    ensures forall p :: p in Filter(ps, KeepOtherProducts(id)) <==> p in ps && p.id != id
    ensures Filter(Filter(ps, KeepOtherProducts(id)), KeepOtherProducts(id)) == Filter(ps, KeepOtherProducts(id))
  {
    FilterIdempotent(ps, KeepOtherProducts(id));
  }

  /** A stock update never leaves a negative stock on the products it sets. */
  lemma StockNeverNegative(ps: seq<Product>, id: string, newStock: int, i: int)
    requires 0 <= i < |ps| && ps[i].id == id
    ensures WithStock(ps, id, newStock)[i].stock.Some?
    ensures WithStock(ps, id, newStock)[i].stock.value >= 0
    ensures newStock >= 0 ==> WithStock(ps, id, newStock)[i].stock.value == newStock
  {
  }

  /** A later status update of the same order overrides an earlier one, and
      orders with other ids keep their status. */
  lemma OrderStatusLastWins(os: seq<Order>, id: string, s1: OrderStatus, s2: OrderStatus)
    ensures WithOrderStatus(WithOrderStatus(os, id, s1), id, s2) == WithOrderStatus(os, id, s2)
    ensures forall i :: 0 <= i < |os| && os[i].id == id ==> WithOrderStatus(os, id, s2)[i].status == s2
  {
    var a := WithOrderStatus(WithOrderStatus(os, id, s1), id, s2);
    var b := WithOrderStatus(os, id, s2);
    forall i | 0 <= i < |os| ensures a[i] == b[i] {
    }
  }

  /** A later stock update of the same product overrides an earlier one. */
  lemma StockLastWins(ps: seq<Product>, id: string, n1: int, n2: int)
    ensures WithStock(WithStock(ps, id, n1), id, n2) == WithStock(ps, id, n2)
  {
    var a := WithStock(WithStock(ps, id, n1), id, n2);
    var b := WithStock(ps, id, n2);
    forall i | 0 <= i < |ps| ensures a[i] == b[i] {
    }
  }

  /** A new variation has no options, so the product page's default
      selection for the edited product is unchanged by it. */
  lemma NewVariationKeepsDefaults(p: Product, kind: VariationKind, stamp: string)
    ensures var before := if p.variations.Some? then p.variations.value else [];
      Defaults(WithNewVariation(p, kind, stamp).variations.value) == Defaults(before)
  {
    var before := if p.variations.Some? then p.variations.value else [];
    var after := WithNewVariation(p, kind, stamp).variations.value;
    assert after[..|after| - 1] == before;
  }

  /** An added option goes last, so a variation that already had options
      keeps its first option, and with it its default. */
  lemma NewOptionKeepsFirstOption(vars: seq<Variation>, varId: string, stamp: string, i: int)
    requires 0 <= i < |vars| && |vars[i].options| > 0
    ensures |WithNewOption(Some(vars), varId, stamp).value[i].options| > 0
    ensures WithNewOption(Some(vars), varId, stamp).value[i].options[0] == vars[i].options[0]
  {
  }
}
