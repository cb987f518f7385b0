/**
 * The cart drawer: the total, the header count, the empty state and footer,
 * and the requests its quantity and remove buttons send to the store.
 */
module CartDrawer {
  import opened Types
  import opened Seqs
  import opened App

  /** Σ price × qty summed from the first line on: a reference for the drawer's total. */
  function LineSum(items: seq<CartItem>): int
    decreases |items|
  {
    if items == [] then 0 else LineTotal(items[0]) + LineSum(items[1..])
  }

  /**
   * The drawer's reduce (`Types.Subtotal`, defined by splitting off the last
   * line) gives the same sum as summing from the first line.
   */
  lemma {:induction false} TotalIsLineSum(items: seq<CartItem>)
    ensures Subtotal(items) == LineSum(items)
    decreases |items|
  {
    if items != [] {
      TotalIsLineSum(items[1..]);
      SubtotalAppend([items[0]], items[1..]);
      assert items == [items[0]] + items[1..];
      assert [items[0]][..0] == [];
    }
  }

  /** What one cart line shows. */
  datatype LineView = LineView(id: string, qty: int, lineTotal: int, minusEnabled: bool)

  /** What the drawer shows: the header count, the empty state, the lines and the footer's total. */
  datatype DrawerView = DrawerView(headerCount: nat, showsEmpty: bool, lines: seq<LineView>, footer: Option<int>)

  function LineOf(item: CartItem): LineView
  {
    LineView(item.Id(), item.qty, LineTotal(item), !(item.qty <= 1))
  }

  function Render(items: seq<CartItem>): DrawerView
  {
    DrawerView(
      |items|,
      |items| == 0,
      seq(|items|, i requires 0 <= i < |items| => LineOf(items[i])),
      if |items| > 0 then Some(Subtotal(items)) else None)
  }

  /**
   * The header counts the lines; the empty state shows exactly when there are
   * none and the footer exactly when there are some, with Σ price × qty; each
   * line shows its own price × qty, and its minus button is disabled at qty 1
   * or less.
   */
  lemma RenderSpec(items: seq<CartItem>)
    ensures Render(items).headerCount == |items|
    ensures Render(items).showsEmpty <==> items == []
    ensures Render(items).footer.Some? <==> items != []
    ensures Render(items).footer.Some? ==> Render(items).footer.value == LineSum(items)
    ensures |Render(items).lines| == |items|
    ensures forall i :: 0 <= i < |items| ==>
      Render(items).lines[i].id == items[i].Id()
      && Render(items).lines[i].lineTotal == items[i].product.price * items[i].qty
      && (Render(items).lines[i].minusEnabled <==> items[i].qty > 1)
  {
    TotalIsLineSum(items);
  }

  /** The header counts lines, not pieces: in a valid cart it is at most the badge's count, equal only when every quantity is 1. */
  lemma {:induction false} HeaderCountIsLines(items: seq<CartItem>)
    requires CartWellFormed(items)
    ensures Render(items).headerCount <= CartCount(items)
    ensures Render(items).headerCount == CartCount(items) <==> forall i :: 0 <= i < |items| ==> items[i].qty == 1
    decreases |items|
  {
    CartCountBound(items);
    if items != [] {
      var n := |items| - 1;
      var front := items[..n];
      assert CartIds(front) == CartIds(items)[..n];
      assert CartWellFormed(front);
      HeaderCountIsLines(front);
      CartCountBound(front);
      if CartCount(items) == |items| {
        assert CartCount(front) == |front| && items[n].qty == 1;
        forall i | 0 <= i < |items| ensures items[i].qty == 1 {
          if i < n {
            assert items[i] == front[i];
          }
        }
      }
      if forall i :: 0 <= i < |items| ==> items[i].qty == 1 {
        assert forall i :: 0 <= i < |front| ==> front[i].qty == 1 by {
          forall i | 0 <= i < |front| ensures front[i].qty == 1 {
            assert front[i] == items[i];
          }
        }
        assert items[n].qty == 1;
      }
    }
  }

  /** What a button of the drawer asks the store to do. */
  datatype Request = UpdateQty(id: string, delta: int) | Remove(id: string)

  function MinusRequest(item: CartItem): Request
  {
    UpdateQty(item.Id(), -1)
  }

  function PlusRequest(item: CartItem): Request
  {
    UpdateQty(item.Id(), 1)
  }

  function RemoveRequest(item: CartItem): Request
  {
    Remove(item.Id())
  }

  /** The store's handler for a request: `updateQty` or `removeFromCart`. */
  function Handle(items: seq<CartItem>, r: Request): seq<CartItem>
  {
    match r
    case UpdateQty(id, delta) => UpdateQtyList(items, id, delta)
    case Remove(id) => RemoveFromCartList(items, id)
  }

  /**
   * In a valid cart, plus adds one piece to its own line; minus takes one away
   * when it is enabled, and when it is disabled (qty 1) the request would change
   * nothing; every other line stays as it was.
   */
  lemma QtyButtons(items: seq<CartItem>, k: nat)
    requires CartWellFormed(items) && k < |items|
    ensures var r := Handle(items, PlusRequest(items[k]));
      |r| == |items| && r[k] == items[k].(qty := items[k].qty + 1)
      && forall i :: 0 <= i < |items| && i != k ==> r[i] == items[i]
    ensures LineOf(items[k]).minusEnabled ==>
      var r := Handle(items, MinusRequest(items[k]));
      |r| == |items| && r[k] == items[k].(qty := items[k].qty - 1)
      && forall i :: 0 <= i < |items| && i != k ==> r[i] == items[i]
    ensures !LineOf(items[k]).minusEnabled ==> Handle(items, MinusRequest(items[k])) == items
  {
    var ids := CartIds(items);
    assert forall i :: 0 <= i < |items| && i != k ==> items[i].Id() != items[k].Id() by {
      forall i | 0 <= i < |items| && i != k ensures items[i].Id() != items[k].Id() {
        assert ids[i] == items[i].Id() && ids[k] == items[k].Id();
      }
    }
    UpdateQtyFloor(items, items[k].Id(), 1);
    UpdateQtyFloor(items, items[k].Id(), -1);
  }

  /** In a valid cart, remove drops exactly its own line and keeps the others in order. */
  lemma RemoveButton(items: seq<CartItem>, k: nat)
    requires CartWellFormed(items) && k < |items|
    ensures Handle(items, RemoveRequest(items[k])) == items[..k] + items[k + 1..]
  {
    var id := items[k].Id();
    var ids := CartIds(items);
    var before, after := items[..k], items[k + 1..];
    forall i | 0 <= i < |before| ensures OtherLine(id)(before[i]) {
      assert ids[i] == before[i].Id() && ids[k] == id;
    }
    forall i | 0 <= i < |after| ensures OtherLine(id)(after[i]) {
      assert ids[k + 1 + i] == after[i].Id() && ids[k] == id;
    }
    FilterDropsOne(before, items[k], after, OtherLine(id));
    assert items == before + [items[k]] + after;
  }
}
