/**
 * The top-level store of the shop: the catalog, the cart, the wishlist and
 * the compare selection, the handlers that update them, and the views derived
 * from them. Each handler computes its new value with a pure list function;
 * the `Shop` class keeps the fields and applies those functions in order.
 */
module App {
  import opened Types
  import opened Seqs
  import opened I18n

  /** The most products that can be compared at once. */
  const MaxCompare: nat := 3

  /** The ids of the cart lines, in order. */
  function CartIds(items: seq<CartItem>): (r: seq<string>)
    ensures |r| == |items|
    ensures forall i :: 0 <= i < |items| ==> r[i] == items[i].Id()
  {
    seq(|items|, i requires 0 <= i < |items| => items[i].Id())
  }

  /** The cart invariant: one line per product id, and every quantity at least 1. */
  predicate CartWellFormed(items: seq<CartItem>)
  {
    NoDups(CartIds(items)) && forall i :: 0 <= i < |items| ==> items[i].qty >= 1
  }

  /** The header's cart count: the sum of the quantities. */
  function CartCount(items: seq<CartItem>): (r: int)
    ensures items == [] ==> r == 0
  {
    if items == [] then 0 else CartCount(items[..|items| - 1]) + items[|items| - 1].qty
  }

  /** In a well-formed cart the count is at least the number of lines. */
  lemma {:induction false} CartCountBound(items: seq<CartItem>)
    requires CartWellFormed(items)
    ensures CartCount(items) >= |items|
    decreases |items|
  {
    if items != [] {
      var front := items[..|items| - 1];
      assert CartIds(front) == CartIds(items)[..|items| - 1];
      CartCountBound(front);
    }
  }

  /** Changing the quantity of one line changes the count by the difference. */
  lemma {:induction false} CartCountUpdate(items: seq<CartItem>, k: nat, q: int)
    requires k < |items|
    ensures CartCount(items[k := items[k].(qty := q)]) == CartCount(items) - items[k].qty + q
    decreases |items|
  {
    var n := |items|;
    var changed := items[k := items[k].(qty := q)];
    if k == n - 1 {
      assert changed[..n - 1] == items[..n - 1];
    } else {
      assert changed[..n - 1] == items[..n - 1][k := items[k].(qty := q)];
      CartCountUpdate(items[..n - 1], k, q);
    }
  }

  lemma {:induction false} CartCountAppend(items: seq<CartItem>, item: CartItem)
    ensures CartCount(items + [item]) == CartCount(items) + item.qty
  {
    assert (items + [item])[..|items|] == items;
  }

  // ---------------------------------------------------------------------------
  // Cart

  /**
   * `addToCart`'s update: when a line with the product's id exists every such
   * line gains one unit; otherwise a snapshot of the product is appended with
   * quantity 1.
   */
  function AddToCartList(items: seq<CartItem>, p: Product): (r: seq<CartItem>)
    ensures p.id in CartIds(r)
    ensures CartIds(r) == if p.id in CartIds(items) then CartIds(items) else CartIds(items) + [p.id]
  {
    if p.id in CartIds(items) then
      var r := seq(|items|, i requires 0 <= i < |items| =>
        if items[i].Id() == p.id then items[i].(qty := items[i].qty + 1) else items[i]);
      assert CartIds(r) == CartIds(items);
      r
    else
      var r := items + [CartItem(p, 1)];
      assert CartIds(r) == CartIds(items) + [p.id];
      r
  }

  /**
   * With the product already in a well-formed cart, only its line changes: the
   * quantity rises by one and the stored snapshot is kept.
   */
  lemma AddToCartExisting(items: seq<CartItem>, p: Product)
    requires CartWellFormed(items)
    requires p.id in CartIds(items)
    ensures var r, k := AddToCartList(items, p), IndexOf(CartIds(items), p.id);
      |r| == |items| && r[k] == CartItem(items[k].product, items[k].qty + 1)
      && forall i :: 0 <= i < |items| && i != k ==> r[i] == items[i]
  {
    var ids := CartIds(items);
    var k := IndexOf(ids, p.id);
    forall i | 0 <= i < |items| && i != k ensures items[i].Id() != p.id {
      assert ids[i] == items[i].Id() && ids[k] == p.id;
    }
  }

  /** Adding to a well-formed cart keeps it well formed and raises the count by one. */
  lemma AddToCartWellFormed(items: seq<CartItem>, p: Product)
    requires CartWellFormed(items)
    ensures CartWellFormed(AddToCartList(items, p))
    ensures CartCount(AddToCartList(items, p)) == CartCount(items) + 1
  {
    var r := AddToCartList(items, p);
    var ids := CartIds(items);
    if p.id in ids {
      AddToCartExisting(items, p);
      var k := IndexOf(ids, p.id);
      assert r == items[k := items[k].(qty := items[k].qty + 1)];
      CartCountUpdate(items, k, items[k].qty + 1);
    } else {
      NoDupsAppend(ids, p.id);
      CartCountAppend(items, CartItem(p, 1));
    }
  }

  /** `n` calls of `addToCart` with the same product. */
  function AddTimes(items: seq<CartItem>, p: Product, n: nat): seq<CartItem>
  {
    if n == 0 then items else AddToCartList(AddTimes(items, p, n - 1), p)
  }

  /**
   * Starting from a cart without the product, `n >= 1` additions leave the other
   * lines alone and one line for the product, at the end, with quantity `n`.
   */
  lemma {:induction false} AddTimesFromAbsent(items: seq<CartItem>, p: Product, n: nat)
    requires p.id !in CartIds(items)
    requires n >= 1
    ensures AddTimes(items, p, n) == items + [CartItem(p, n)]
  {
    if n > 1 {
      AddTimesFromAbsent(items, p, n - 1);
      var before := items + [CartItem(p, n - 1)];
      assert CartIds(before) == CartIds(items) + [p.id];
      var after := AddToCartList(before, p);
      assert |after| == |before|;
      forall i | 0 <= i < |items| ensures after[i] == items[i] {
        assert CartIds(items)[i] == items[i].Id();
      }
      assert after == items + [CartItem(p, n)];
    }
  }

  /** From an empty cart, `n` additions of one product give exactly one line, with quantity `n`. */
  lemma AddTimesFromEmpty(p: Product, n: nat)
    requires n >= 1
    ensures AddTimes([], p, n) == [CartItem(p, n)]
  {
    AddTimesFromAbsent([], p, n);
  }

  /** `Math.max`. */
  function Max(a: int, b: int): (r: int)
    ensures r >= a && r >= b && (r == a || r == b)
  {
    if a >= b then a else b
  }

  /** `updateQty`'s update: every line with the id gets `max(1, qty + delta)`. */
  function UpdateQtyList(items: seq<CartItem>, id: string, delta: int): (r: seq<CartItem>)
    ensures CartIds(r) == CartIds(items)
  {
    seq(|items|, i requires 0 <= i < |items| =>
      if items[i].Id() == id then items[i].(qty := Max(1, items[i].qty + delta)) else items[i])
  }

  /**
   * After `updateQty` the matching lines hold `max(1, qty + delta)`, never less than
   * 1 whatever the delta, with their snapshots kept; the other lines are unchanged;
   * and a well-formed cart stays well formed.
   */
  lemma UpdateQtyFloor(items: seq<CartItem>, id: string, delta: int)
    ensures var r := UpdateQtyList(items, id, delta);
      |r| == |items|
      && (forall i :: 0 <= i < |items| && items[i].Id() == id ==>
            r[i].product == items[i].product && r[i].qty == Max(1, items[i].qty + delta) && r[i].qty >= 1)
      && (forall i :: 0 <= i < |items| && items[i].Id() != id ==> r[i] == items[i])
    ensures CartWellFormed(items) ==> CartWellFormed(UpdateQtyList(items, id, delta))
  {
  }

  /** Keeps the cart lines whose id is not `id`. */
  function OtherLine(id: string): CartItem -> bool
  {
    (item: CartItem) => item.Id() != id
  }

  /** Keeps the strings other than `id`. */
  function OtherId(id: string): string -> bool
  {
    x => x != id
  }

  /** `filter(x => x !== id)` on a list of ids. */
  function Without(ids: seq<string>, id: string): (r: seq<string>)
    ensures id !in r
    ensures forall x :: x in r <==> x in ids && x != id
    ensures IsSubsequence(r, ids)
  {
    Filter(ids, OtherId(id))
  }

  /** `removeFromCart`'s update. */
  function RemoveFromCartList(items: seq<CartItem>, id: string): seq<CartItem>
  {
    Filter(items, OtherLine(id))
  }

  lemma CartIdsCons(x: CartItem, rest: seq<CartItem>)
    ensures CartIds([x] + rest) == [x.Id()] + CartIds(rest)
  {
  }

  /** The ids of a filtered cart are the filtered ids. */
  lemma {:induction false} CartIdsWithout(items: seq<CartItem>, id: string)
    ensures CartIds(RemoveFromCartList(items, id)) == Without(CartIds(items), id)
    decreases |items|
  {
    if items != [] {
      var ids := CartIds(items);
      CartIdsWithout(items[1..], id);
      FilterCons(items, OtherLine(id));
      FilterCons(ids, OtherId(id));
      assert ids[1..] == CartIds(items[1..]);
      if items[0].Id() != id {
        CartIdsCons(items[0], RemoveFromCartList(items[1..], id));
      }
    }
  }

  /**
   * `removeFromCart` drops every line with the id and keeps every other line,
   * in order; a well-formed cart stays well formed.
   */
  lemma RemoveFromCartSpec(items: seq<CartItem>, id: string)
    ensures var r := RemoveFromCartList(items, id);
      id !in CartIds(r) && IsSubsequence(r, items)
      && (forall x :: x in r <==> x in items && x.Id() != id)
    ensures CartWellFormed(items) ==> CartWellFormed(RemoveFromCartList(items, id))
  {
    var r := RemoveFromCartList(items, id);
    CartIdsWithout(items, id);
    if CartWellFormed(items) {
      FilterNoDups(CartIds(items), OtherId(id));
      forall i | 0 <= i < |r| ensures r[i].qty >= 1 {
        assert r[i] in items;
      }
    }
  }

  // ---------------------------------------------------------------------------
  // Wishlist and compare selection

  /** `toggleWishlist`'s update: remove the id when present, append it otherwise. */
  function Toggle(ids: seq<string>, id: string): (r: seq<string>)
    ensures forall x :: x in r <==> (x in ids && x != id) || (x == id && id !in ids)
  {
    if id in ids then Without(ids, id) else ids + [id]
  }

  /** Toggling an absent id twice gives back the list. */
  lemma ToggleTwice(ids: seq<string>, id: string)
    requires id !in ids
    ensures Toggle(Toggle(ids, id), id) == ids
  {
    FilterAppend(ids, [id], OtherId(id));
    FilterKeepsAll(ids, OtherId(id));
    assert Filter([id], OtherId(id)) == [];
  }

  /** Toggling a present id twice moves it to the end. */
  lemma ToggleTwicePresent(ids: seq<string>, id: string)
    requires id in ids
    ensures Toggle(Toggle(ids, id), id) == Without(ids, id) + [id]
  {
  }

  /** Toggling never introduces a duplicate. */
  lemma ToggleNoDups(ids: seq<string>, id: string)
    requires NoDups(ids)
    ensures NoDups(Toggle(ids, id))
  {
    if id in ids {
      FilterNoDups(ids, OtherId(id));
    } else {
      NoDupsAppend(ids, id);
    }
  }

  /** The `alert` of `toggleCompare`: the product is not selected and the selection is full. */
  predicate CompareLimitReached(ids: seq<string>, id: string)
  {
    id !in ids && |ids| >= MaxCompare
  }

  /** `toggleCompare`'s update: remove when present, refuse when full, append otherwise. */
  function ToggleCompareIds(ids: seq<string>, id: string): (r: seq<string>)
    ensures CompareLimitReached(ids, id) ==> r == ids
    ensures !CompareLimitReached(ids, id) ==> r == Toggle(ids, id)
  {
    if id in ids then Without(ids, id)
    else if |ids| >= MaxCompare then ids
    else ids + [id]
  }

  /** The compare selection stays within the limit and free of duplicates. */
  lemma ToggleCompareInvariant(ids: seq<string>, id: string)
    requires |ids| <= MaxCompare && NoDups(ids)
    ensures |ToggleCompareIds(ids, id)| <= MaxCompare && NoDups(ToggleCompareIds(ids, id))
  {
    ToggleNoDups(ids, id);
  }

  /** Toggling a product twice restores the selection when it was not selected, full or not. */
  lemma ToggleCompareTwice(ids: seq<string>, id: string)
    requires id !in ids
    ensures ToggleCompareIds(ToggleCompareIds(ids, id), id) == ids
  {
    if |ids| < MaxCompare {
      ToggleTwice(ids, id);
    }
  }

  /** With [A, B, C] selected, toggling a fourth product keeps [A, B, C] and raises the limit notice. */
  lemma CompareLimitScenario(a: string, b: string, c: string, d: string)
    requires d != a && d != b && d != c
    ensures CompareLimitReached([a, b, c], d)
    ensures ToggleCompareIds([a, b, c], d) == [a, b, c]
  {
  }

  // ---------------------------------------------------------------------------
  // Catalog

  /** Keeps the products whose id is not `id`. */
  function OtherProduct(id: string): Product -> bool
  {
    (p: Product) => p.id != id
  }

  /** `handleUpdateProduct`'s update: every product with the new version's id is replaced by it. */
  function ReplaceProduct(products: seq<Product>, updated: Product): (r: seq<Product>)
    ensures |r| == |products|
    ensures forall i :: 0 <= i < |products| ==>
      r[i] == (if products[i].id == updated.id then updated else products[i])
    ensures Ids(r) == Ids(products)
    ensures updated.id in Ids(products) ==> updated in r
    ensures updated.id !in Ids(products) ==> r == products
  {
    var r := seq(|products|, i requires 0 <= i < |products| =>
      if products[i].id == updated.id then updated else products[i]);
    assert updated.id !in Ids(products) ==> r == products by {
      if updated.id !in Ids(products) {
        forall i | 0 <= i < |products| ensures r[i] == products[i] {
          assert Ids(products)[i] == products[i].id;
        }
      }
    }
    r
  }

  /** `handleDeleteProduct`'s catalog update. */
  function RemoveProduct(products: seq<Product>, id: string): seq<Product>
  {
    Filter(products, OtherProduct(id))
  }

  /** The ids of a filtered catalog are the filtered ids. */
  lemma {:induction false} IdsWithout(products: seq<Product>, id: string)
    ensures Ids(RemoveProduct(products, id)) == Without(Ids(products), id)
    decreases |products|
  {
    if products != [] {
      var all := Ids(products);
      IdsWithout(products[1..], id);
      FilterCons(products, OtherProduct(id));
      FilterCons(all, OtherId(id));
      assert all[1..] == Ids(products[1..]);
      if products[0].id != id {
        IdsCons(products[0], RemoveProduct(products[1..], id));
      }
    }
  }

  /** The category buttons: all products, or one category. */
  datatype CategoryFilter = All | Only(category: Category)

  function InCategory(c: Category): Product -> bool
  {
    (p: Product) => p.category == c
  }

  /** `filteredProducts`. */
  function FilterByCategory(products: seq<Product>, sel: CategoryFilter): seq<Product>
  {
    if sel == All then products else Filter(products, InCategory(sel.category))
  }

  /**
   * The filtered view is the whole catalog for All; for one category it holds
   * exactly the products of that category, in catalog order.
   */
  lemma FilterByCategorySpec(products: seq<Product>, sel: CategoryFilter)
    ensures sel == All ==> FilterByCategory(products, sel) == products
    ensures sel.Only? ==>
      IsSubsequence(FilterByCategory(products, sel), products)
      && forall p :: p in FilterByCategory(products, sel) <==> p in products && p.category == sel.category
  {
  }

  /** Keeps the products whose id is listed. */
  function Listed(ids: seq<string>): Product -> bool
  {
    (p: Product) => p.id in ids
  }

  function InList(ids: seq<string>): string -> bool
  {
    x => x in ids
  }

  /** `compareProducts` and `wishlistProducts`: the catalog entries whose id is listed, in catalog order. */
  function ProductsIn(products: seq<Product>, ids: seq<string>): seq<Product>
  {
    Filter(products, Listed(ids))
  }

  lemma {:induction false} IdsProductsIn(products: seq<Product>, ids: seq<string>)
    ensures Ids(ProductsIn(products, ids)) == Filter(Ids(products), InList(ids))
    decreases |products|
  {
    if products != [] {
      var all := Ids(products);
      IdsProductsIn(products[1..], ids);
      FilterCons(products, Listed(ids));
      FilterCons(all, InList(ids));
      assert all[1..] == Ids(products[1..]);
      if products[0].id in ids {
        IdsCons(products[0], ProductsIn(products[1..], ids));
      }
    }
  }

  /**
   * With catalog ids unique, the listed products are no more than the listed
   * ids: the compare view never shows more than the selection holds.
   */
  lemma ProductsInBound(products: seq<Product>, ids: seq<string>)
    requires NoDups(Ids(products))
    ensures |ProductsIn(products, ids)| <= |ids|
    ensures forall p :: p in ProductsIn(products, ids) <==> p in products && p.id in ids
  {
    var shown := Ids(ProductsIn(products, ids));
    IdsProductsIn(products, ids);
    FilterNoDups(Ids(products), InList(ids));
    NoDupsWithin(shown, ids);
  }

  // ---------------------------------------------------------------------------
  // The store

  /** The store's fields as one value. */
  datatype ShopState = ShopState(
    language: Language,
    products: seq<Product>,
    cartItems: seq<CartItem>,
    wishlistIds: seq<string>,
    compareIds: seq<string>,
    selectedCategory: CategoryFilter,
    isCartOpen: bool,
    isCheckoutOpen: bool)

  class Shop {
    var language: Language
    var products: seq<Product>
    var cartItems: seq<CartItem>
    var wishlistIds: seq<string>
    var compareIds: seq<string>
    var selectedCategory: CategoryFilter
    var isCartOpen: bool
    var isCheckoutOpen: bool

    function State(): ShopState
      reads this
    {
      ShopState(language, products, cartItems, wishlistIds, compareIds, selectedCategory, isCartOpen, isCheckoutOpen)
    }

    /** The cart invariant, and a compare selection within the limit without duplicates. */
    predicate Valid()
      reads this
    {
      CartWellFormed(cartItems) && |compareIds| <= MaxCompare && NoDups(compareIds)
    }

    /**
     * The initial state. `storedProducts` and `storedWishlist` are what browser
     * storage held, if anything; without a stored catalog the Spanish seed is used.
     */
    constructor (storedProducts: Option<seq<Product>>, storedWishlist: Option<seq<string>>)
      ensures Valid()
      ensures State() == ShopState(
        Es,
        if storedProducts.Some? then storedProducts.value else LocalizedProducts(Es),
        [],
        if storedWishlist.Some? then storedWishlist.value else [],
        [], All, false, false)
    {
      language := Es;
      products := if storedProducts.Some? then storedProducts.value else LocalizedProducts(Es);
      cartItems := [];
      wishlistIds := if storedWishlist.Some? then storedWishlist.value else [];
      compareIds := [];
      selectedCategory := All;
      isCartOpen := false;
      isCheckoutOpen := false;
    }

    /**
     * A language switch. The catalog is re-seeded in the new language only when
     * storage holds no saved catalog (`saved` is false).
     */
    method SetLanguage(lang: Language, saved: bool)
      requires Valid()
      modifies this
      ensures Valid()
      ensures State() == old(State()).(language := lang,
        products := if saved then old(products) else LocalizedProducts(lang))
    {
      language := lang;
      if !saved {
        products := LocalizedProducts(lang);
      }
    }

    /** `handleAddProduct`: the new product goes first. */
    method AddProduct(p: Product)
      requires Valid()
      modifies this
      ensures Valid()
      ensures State() == old(State()).(products := [p] + old(products))
    {
      products := [p] + products;
    }

    /** `handleUpdateProduct`: the catalog entries are replaced; cart lines are snapshots and stay as they were. */
    method UpdateProduct(p: Product)
      requires Valid()
      modifies this
      ensures Valid()
      ensures State() == old(State()).(products := ReplaceProduct(old(products), p))
    {
      products := ReplaceProduct(products, p);
    }

    /** `handleDeleteProduct`: the id leaves the catalog, the cart, the wishlist and the compare selection. */
    method DeleteProduct(id: string)
      requires Valid()
      modifies this
      ensures Valid()
      ensures State() == old(State()).(
        products := RemoveProduct(old(products), id),
        cartItems := RemoveFromCartList(old(cartItems), id),
        wishlistIds := Without(old(wishlistIds), id),
        compareIds := Without(old(compareIds), id))
      ensures id !in Ids(products) && id !in CartIds(cartItems) && id !in wishlistIds && id !in compareIds
    {
      products := RemoveProduct(products, id);
      IdsWithout(old(products), id);
      cartItems := RemoveFromCartList(cartItems, id);
      RemoveFromCartSpec(old(cartItems), id);
      wishlistIds := Without(wishlistIds, id);
      FilterNoDups(compareIds, OtherId(id));
      compareIds := Without(compareIds, id);
    }

    /** `addToCart`: the cart is updated and the cart drawer opens. */
    method AddToCart(p: Product)
      requires Valid()
      modifies this
      ensures Valid()
      ensures State() == old(State()).(cartItems := AddToCartList(old(cartItems), p), isCartOpen := true)
      ensures CartCount(cartItems) == old(CartCount(cartItems)) + 1
    {
      var updated := AddToCartList(cartItems, p);
      AddToCartWellFormed(cartItems, p);
      cartItems, isCartOpen := updated, true;
    }

    /** `updateQty`. */
    method UpdateQty(id: string, delta: int)
      requires Valid()
      modifies this
      ensures Valid()
      ensures State() == old(State()).(cartItems := UpdateQtyList(old(cartItems), id, delta))
    {
      UpdateQtyFloor(cartItems, id, delta);
      cartItems := UpdateQtyList(cartItems, id, delta);
    }

    /** `removeFromCart`. */
    method RemoveFromCart(id: string)
      requires Valid()
      modifies this
      ensures Valid()
      ensures State() == old(State()).(cartItems := RemoveFromCartList(old(cartItems), id))
    {
      RemoveFromCartSpec(cartItems, id);
      cartItems := RemoveFromCartList(cartItems, id);
    }

    /** `toggleWishlist`. */
    method ToggleWishlist(id: string)
      requires Valid()
      modifies this
      ensures Valid()
      ensures State() == old(State()).(wishlistIds := Toggle(old(wishlistIds), id))
    {
      wishlistIds := Toggle(wishlistIds, id);
    }

    /** `moveToCart`: add to the cart first, then toggle (not remove) the wishlist entry. */
    method MoveToCart(p: Product)
      requires Valid()
      modifies this
      ensures Valid()
      ensures State() == old(State()).(
        cartItems := AddToCartList(old(cartItems), p),
        isCartOpen := true,
        wishlistIds := Toggle(old(wishlistIds), p.id))
    {
      AddToCart(p);
      ToggleWishlist(p.id);
    }

    /** `toggleCompare`; `limitNotice` is the alert shown when the selection is full. */
    method ToggleCompare(p: Product) returns (limitNotice: bool)
      requires Valid()
      modifies this
      ensures Valid()
      ensures limitNotice == CompareLimitReached(old(compareIds), p.id)
      ensures State() == old(State()).(compareIds := ToggleCompareIds(old(compareIds), p.id))
    {
      ToggleCompareInvariant(compareIds, p.id);
      limitNotice := CompareLimitReached(compareIds, p.id);
      compareIds := ToggleCompareIds(compareIds, p.id);
    }

    /** `clearCompare`. */
    method ClearCompare()
      requires Valid()
      modifies this
      ensures Valid()
      ensures State() == old(State()).(compareIds := [])
    {
      compareIds := [];
    }

    /** `removeFromCompare`. */
    method RemoveFromCompare(id: string)
      requires Valid()
      modifies this
      ensures Valid()
      ensures State() == old(State()).(compareIds := Without(old(compareIds), id))
    {
      FilterNoDups(compareIds, OtherId(id));
      compareIds := Without(compareIds, id);
    }

    /** A category button. */
    method SelectCategory(sel: CategoryFilter)
      requires Valid()
      modifies this
      ensures Valid()
      ensures State() == old(State()).(selectedCategory := sel)
    {
      selectedCategory := sel;
    }

    /** `handleCheckoutStart`: the drawer closes and the checkout opens. */
    method StartCheckout()
      requires Valid()
      modifies this
      ensures Valid()
      ensures State() == old(State()).(isCartOpen := false, isCheckoutOpen := true)
    {
      isCartOpen := false;
      isCheckoutOpen := true;
    }

    /** `handlePlaceOrder`: the cart is emptied; the shipping record is only logged. */
    method PlaceOrder(details: ShippingDetails)
      requires Valid()
      modifies this
      ensures Valid()
      ensures State() == old(State()).(cartItems := [])
    {
      cartItems := [];
    }

    /** `handleCloseCheckout`. */
    method CloseCheckout()
      requires Valid()
      modifies this
      ensures Valid()
      ensures State() == old(State()).(isCheckoutOpen := false)
    {
      isCheckoutOpen := false;
    }

    /** `filteredProducts`. */
    function FilteredProducts(): seq<Product>
      reads this
    {
      FilterByCategory(products, selectedCategory)
    }

    /** `compareProducts`. */
    function CompareProducts(): seq<Product>
      reads this
    {
      ProductsIn(products, compareIds)
    }

    /** `wishlistProducts`. */
    function WishlistProducts(): seq<Product>
      reads this
    {
      ProductsIn(products, wishlistIds)
    }

    /** The count shown on the cart icon. */
    function Count(): int
      reads this
    {
      CartCount(cartItems)
    }
  }

  /**
   * The cart scenario: adding a product of price 100 twice to an empty cart gives
   * one line of quantity 2 and a subtotal of 200; removing it empties the cart.
   */
  lemma CartScenario(p: Product)
    requires p.price == 100
    ensures AddTimes([], p, 2) == [CartItem(p, 2)]
    ensures Subtotal(AddTimes([], p, 2)) == 200
    ensures RemoveFromCartList(AddTimes([], p, 2), p.id) == []
  {
    AddTimesFromEmpty(p, 2);
    assert [CartItem(p, 2)][..0] == [];
  }
}
