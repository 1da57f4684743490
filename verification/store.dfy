/** The shared shop state of `src/context.tsx` (`CartProvider`): the cart,
    the wishlist and the signed-in user, each replaced by its own operation.
    The state is local to the page; persisting it to browser storage is not
    part of this model. */
module Store {

  import opened Types
  import opened Seqs

  /** `item => item.cartId !== cartId`. */
  function KeepOtherRows(cartId: string): CartItem -> bool
  {
    (item: CartItem) => item.cartId != cartId
  }

  /** `prev.filter(item => item.cartId !== cartId)`. */
  function RemoveRows(cart: seq<CartItem>, cartId: string): seq<CartItem>
  {
    Filter(cart, KeepOtherRows(cartId))
  }

  /** Some wishlist entry has this product id (`prev.find(p => p.id === id)`). */
  predicate InWishlist(wishlist: seq<Product>, id: string)
  {
    exists i :: 0 <= i < |wishlist| && wishlist[i].id == id
  }

  /** `p => p.id !== id`. */
  function KeepOtherProducts(id: string): Product -> bool
  {
    (p: Product) => p.id != id
  }

  /** The new wishlist of `toggleWishlist(product)`. */
  function ToggleProduct(wishlist: seq<Product>, product: Product): seq<Product>
  {
    if InWishlist(wishlist, product.id) then Filter(wishlist, KeepOtherProducts(product.id))
    else wishlist + [product]
  }

  predicate UniqueIds(wishlist: seq<Product>)
  {
    forall i, j :: 0 <= i < j < |wishlist| ==> wishlist[i].id != wishlist[j].id
  }

  class CartProvider {
    var cart: seq<CartItem>
    var wishlist: seq<Product>
    var user: Option<User>
    /** The catalog the pages read: the empty list of `src/data/products.ts`. */
    const products: seq<Product>

    constructor ()
      ensures cart == [] && wishlist == [] && user == None && products == []
    {
      cart, wishlist, user, products := [], [], None, [];
    }

    /** `setUser`: replaces the user and nothing else. */
    method SetUser(newUser: Option<User>)
      modifies this
      ensures user == newUser
      ensures cart == old(cart) && wishlist == old(wishlist)
    {
      user := newUser;
    }

    /** `addToCart`: appends the row, with no deduplication. */
    method AddToCart(item: CartItem)
      modifies this
      ensures cart == old(cart) + [item]
      ensures wishlist == old(wishlist) && user == old(user)
    {
      cart := cart + [item];
    }

    /** `removeFromCart`: drops every row with this cart id. */
    method RemoveFromCart(cartId: string)
      modifies this
      ensures cart == RemoveRows(old(cart), cartId)
      ensures wishlist == old(wishlist) && user == old(user)
    {
      cart := Filter(cart, KeepOtherRows(cartId));
    }

    /** `toggleWishlist`: removes every entry with the product's id when there
        is one, otherwise appends the product. */
    method ToggleWishlist(product: Product)
      modifies this
      ensures wishlist == ToggleProduct(old(wishlist), product)
      ensures cart == old(cart) && user == old(user)
    {
      var present := InWishlist(wishlist, product.id);
      if present {
        wishlist := Filter(wishlist, KeepOtherProducts(product.id));
      } else {
        wishlist := wishlist + [product];
      }
    }
  }

  // ---------------------------------------------------------------- lemmas

  /** Adding a row grows the cart by one at the end and keeps every earlier
      row, even when the same product is already in the cart. */
  lemma AddToCartAppends(cart: seq<CartItem>, item: CartItem)
    ensures |cart + [item]| == |cart| + 1
    ensures (cart + [item])[..|cart|] == cart && (cart + [item])[|cart|] == item
  {
  }

  /** Removal keeps exactly the rows with another cart id, in their order. */
  lemma RemoveRowsSpec(cart: seq<CartItem>, cartId: string)
    ensures forall x :: x in RemoveRows(cart, cartId) <==> x in cart && x.cartId != cartId
    ensures forall a, b :: cart == a + b ==>
      RemoveRows(cart, cartId) == RemoveRows(a, cartId) + RemoveRows(b, cartId)
  {
    forall a, b | cart == a + b
      ensures RemoveRows(cart, cartId) == RemoveRows(a, cartId) + RemoveRows(b, cartId)
    {
      FilterAppend(a, b, KeepOtherRows(cartId));
    }
  }

  /** Removing an id that no row carries changes nothing, and removing twice
      is removing once. */
  lemma RemoveRowsIdempotent(cart: seq<CartItem>, cartId: string)
    ensures (forall i :: 0 <= i < |cart| ==> cart[i].cartId != cartId) ==> RemoveRows(cart, cartId) == cart
    ensures RemoveRows(RemoveRows(cart, cartId), cartId) == RemoveRows(cart, cartId)
  {
    if forall i :: 0 <= i < |cart| ==> cart[i].cartId != cartId {
      FilterKeepsAll(cart, KeepOtherRows(cartId));
    }
    FilterIdempotent(cart, KeepOtherRows(cartId));
  }

  /** After a toggle the product is in the wishlist exactly when it was not
      before; other products' presence is unchanged. */
  lemma ToggleFlipsPresence(wishlist: seq<Product>, product: Product, id: string)
    ensures InWishlist(ToggleProduct(wishlist, product), id) <==>
      (if id == product.id then !InWishlist(wishlist, id) else InWishlist(wishlist, id))
  {
    var r := ToggleProduct(wishlist, product);
    if InWishlist(wishlist, product.id) {
      if InWishlist(r, id) {
        var i :| 0 <= i < |r| && r[i].id == id;
        assert r[i] in r;
      }
      if id != product.id && InWishlist(wishlist, id) {
        var i :| 0 <= i < |wishlist| && wishlist[i].id == id;
        assert wishlist[i] in r;
      }
    } else {
      if InWishlist(r, id) && id != product.id {
        var i :| 0 <= i < |r| && r[i].id == id;
        assert i < |wishlist|;
      }
      if id == product.id {
        assert r[|wishlist|].id == id;
      }
      if InWishlist(wishlist, id) {
        var i :| 0 <= i < |wishlist| && wishlist[i].id == id;
        assert r[i].id == id;
      }
    }
  }

  /** Toggling an absent product twice restores the wishlist exactly. */
  lemma ToggleTwiceRestores(wishlist: seq<Product>, product: Product)
    requires !InWishlist(wishlist, product.id)
    ensures ToggleProduct(ToggleProduct(wishlist, product), product) == wishlist
  {
    var keep := KeepOtherProducts(product.id);
    var added := wishlist + [product];
    assert added[|wishlist|].id == product.id;
    FilterAppend(wishlist, [product], keep);
    forall x | x in wishlist ensures keep(x) {
      var i :| 0 <= i < |wishlist| && wishlist[i] == x;
    }
    FilterKeepsAll(wishlist, keep);
    assert Filter([product], keep) == [];
  }

  /** Toggling keeps the wishlist's product ids distinct. */
  lemma ToggleKeepsIdsUnique(wishlist: seq<Product>, product: Product)
    requires UniqueIds(wishlist)
    ensures UniqueIds(ToggleProduct(wishlist, product))
  {
    var r := ToggleProduct(wishlist, product);
    if InWishlist(wishlist, product.id) {
      UniqueIdsFilter(wishlist, KeepOtherProducts(product.id));
    } else {
      forall i, j | 0 <= i < j < |r| ensures r[i].id != r[j].id {
        if j == |wishlist| {
          assert r[i] == wishlist[i];
        }
      }
    }
  }

  lemma {:induction false} UniqueIdsFilter(s: seq<Product>, keep: Product -> bool)
    requires UniqueIds(s)
    ensures UniqueIds(Filter(s, keep))
  {
    if s != [] {
      UniqueIdsFilter(s[1..], keep);
      var rest := Filter(s[1..], keep);
      forall j | 0 <= j < |rest| ensures rest[j].id != s[0].id {
        assert rest[j] in s[1..];
        var m :| 0 <= m < |s[1..]| && s[1..][m] == rest[j];
        assert s[m + 1] == rest[j];
      }
    }
  }
}
