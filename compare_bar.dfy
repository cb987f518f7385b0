/**
 * The compare bar: shown while products are selected, with a placeholder for
 * the free slots, a compare button enabled from two products on, and the
 * remove and clear buttons.
 */
module CompareBar {
  import opened Types
  import opened Seqs
  import opened App

  /** Nothing, or the bar with its count, thumbnails, free slots and compare button. */
  datatype BarView = Hidden | Bar(count: nat, thumbnails: seq<string>, freeSlots: Option<int>, compareEnabled: bool)

  function Render(ps: seq<Product>): BarView
  {
    if |ps| == 0 then Hidden
    else Bar(|ps|, Ids(ps), if |ps| < 3 then Some(3 - |ps|) else None, !(|ps| < 2))
  }

  /**
   * The bar is hidden exactly when nothing is selected; once shown its free-slot
   * placeholder appears only below three products and then counts one or two
   * slots, and compare is enabled exactly from two products on.
   */
  lemma RenderSpec(ps: seq<Product>)
    ensures Render(ps).Hidden? <==> ps == []
    ensures Render(ps).Bar? ==>
      var b := Render(ps);
      b.count == |ps| && b.thumbnails == Ids(ps)
      && (b.freeSlots.Some? <==> |ps| < 3)
      && (b.freeSlots.Some? ==> 1 <= b.freeSlots.value <= 2 && b.count + b.freeSlots.value == 3)
      && (b.compareEnabled <==> |ps| >= 2)
  {
  }

  /**
   * Over the store's selection, which holds at most three distinct ids of a
   * catalog with distinct ids, the bar never shows more than three products, so
   * when the placeholder is missing the bar is exactly full.
   */
  lemma BarOfSelection(products: seq<Product>, compareIds: seq<string>)
    requires NoDups(Ids(products)) && |compareIds| <= MaxCompare
    ensures var b := Render(ProductsIn(products, compareIds));
      b.Bar? ==> (b.freeSlots.None? <==> b.count == 3)
  {
    ProductsInBound(products, compareIds);
  }

  /** A thumbnail's remove button sends that product's id. */
  function RemoveRequest(p: Product): string
  {
    p.id
  }

  /**
   * Removing thumbnail `k` through `removeFromCompare` takes that product off the
   * bar and keeps every other selected one.
   */
  lemma RemoveThumbnail(products: seq<Product>, compareIds: seq<string>, k: nat)
    requires NoDups(Ids(products))
    requires k < |ProductsIn(products, compareIds)|
    ensures var p := ProductsIn(products, compareIds)[k];
      var after := ProductsIn(products, Without(compareIds, RemoveRequest(p)));
      p !in after
      && forall q :: q in ProductsIn(products, compareIds) && q.id != p.id ==> q in after
  {
    var p := ProductsIn(products, compareIds)[k];
    ProductsInBound(products, compareIds);
    ProductsInBound(products, Without(compareIds, p.id));
  }

  /** Clear, through `clearCompare`, hides the bar. */
  lemma ClearHides(products: seq<Product>)
    ensures Render(ProductsIn(products, [])) == Hidden
  {
  }
}
