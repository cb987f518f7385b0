/**
 * The shop's data model: languages, products, cart items, chat messages and
 * the shipping record, plus the fallback image every view falls back to.
 */
module Types {

  datatype Option<T> = None | Some(value: T)

  /** The three interface languages. */
  datatype Language = En | Es | Fr

  /** The two product categories. */
  datatype Category = Watches | Jewelry

  /** A catalog entry. Prices and stock are whole numbers in every seed and draft. */
  datatype Product = Product(
    id: string,
    title: string,
    price: int,
    images: seq<string>,
    category: Category,
    stock: int,
    description: string,
    features: seq<string>)

  /** A cart line: a snapshot of the product taken when it was added, and a quantity. */
  datatype CartItem = CartItem(product: Product, qty: int)
  {
    function Id(): string { product.id }
  }

  datatype Role = User | Model

  /**
   * A concierge chat message. The timestamp is the clock reading in milliseconds;
   * an absent `isError` is `false`.
   */
  datatype ChatMessage = ChatMessage(id: string, role: Role, text: string, timestamp: int, isError: bool)

  /** The eight contact and address fields of the checkout form. */
  datatype ShippingDetails = ShippingDetails(
    firstName: string,
    lastName: string,
    email: string,
    address: string,
    city: string,
    country: string,
    zip: string,
    phone: string)

  /** The address of an Unsplash photo at the given width, in the format every image of the shop uses. */
  function Unsplash(photo: string, width: string): string
  {
    "https://images.unsplash.com/" + "photo-" + photo + "?q=80&w=" + width + "&auto=format&fit=crop"
  }

  /** The placeholder image shown when a product has no image or an image fails to load. */
  const FallbackImage: string := Unsplash("1594534475808-b18fc33b045e", "800")

  /** `price * qty` of one cart line. */
  function LineTotal(item: CartItem): int
  {
    item.product.price * item.qty
  }

  /** The reduce `sum + price * qty` over the cart, shared by the cart drawer and the checkout. */
  function Subtotal(items: seq<CartItem>): (r: int)
    ensures items == [] ==> r == 0
    ensures (forall i :: 0 <= i < |items| ==> items[i].product.price >= 0 && items[i].qty >= 0) ==> r >= 0
  {
    if items == [] then 0 else Subtotal(items[..|items| - 1]) + LineTotal(items[|items| - 1])
  }

  lemma {:induction false} SubtotalAppend(items: seq<CartItem>, more: seq<CartItem>)
    ensures Subtotal(items + more) == Subtotal(items) + Subtotal(more)
    decreases |more|
  {
    if more == [] {
      assert items + more == items;
    } else {
      var last := more[|more| - 1];
      assert (items + more)[..|items + more| - 1] == items + more[..|more| - 1];
      SubtotalAppend(items, more[..|more| - 1]);
    }
  }

  /** JavaScript's `a[i]`: undefined outside the array. */
  function At<T>(s: seq<T>, i: int): (r: Option<T>)
    ensures r.Some? <==> 0 <= i < |s|
    ensures r.Some? ==> r.value == s[i]
  {
    if 0 <= i < |s| then Some(s[i]) else None
  }

  /** The ids of a product list, in order. */
  function Ids(products: seq<Product>): (r: seq<string>)
    ensures |r| == |products|
    ensures forall i :: 0 <= i < |products| ==> r[i] == products[i].id
  {
    seq(|products|, i requires 0 <= i < |products| => products[i].id)
  }

  lemma IdsCons(p: Product, rest: seq<Product>)
    ensures Ids([p] + rest) == [p.id] + Ids(rest)
  {
  }

  /** The titles of a product list, in order. */
  function Titles(products: seq<Product>): (r: seq<string>)
    ensures |r| == |products|
    ensures forall i :: 0 <= i < |products| ==> r[i] == products[i].title
  {
    seq(|products|, i requires 0 <= i < |products| => products[i].title)
  }
}
