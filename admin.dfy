/**
 * The admin panel's draft editor: a new draft with defaults, selecting a
 * catalog product, the form's field updates, the image list (append on
 * upload, `splice` on removal), saving with the fallback image and the
 * update-or-add routing, and deletion after confirmation.
 *
 * The draft is a full `Product`: every way of obtaining one (a new draft or a
 * catalog entry) sets all fields, and every field update keeps the others.
 */
module Admin {
  import opened Types
  import opened Seqs
  import opened Text
  import opened I18n
  import opened App

  /** `handleNewProduct`'s draft, `now` being the clock reading in milliseconds. */
  function NewDraft(now: nat): Product
  {
    Product("new_" + NatToDecimal(now), "", 0, [], Watches, 1, "", [])
  }

  /** Some catalog product has the id: `products.some(p => p.id === id)`. */
  predicate IdExists(products: seq<Product>, id: string)
  {
    exists i :: 0 <= i < |products| && products[i].id == id
  }

  lemma IdExistsIff(products: seq<Product>, id: string)
    ensures IdExists(products, id) <==> id in Ids(products)
  {
    if id in Ids(products) {
      var i :| 0 <= i < |Ids(products)| && Ids(products)[i] == id;
      assert products[i].id == id;
    }
  }

  /** The images stored on save: the draft's, or the fallback image alone when it has none. */
  function SavedImages(images: seq<string>): (r: seq<string>)
    ensures |r| >= 1
    ensures |images| > 0 ==> r == images
    ensures |images| == 0 ==> r == [FallbackImage]
  {
    if |images| > 0 then images else [FallbackImage]
  }

  /** The product handed to the store on save. */
  function Finalized(d: Product): Product
  {
    d.(images := SavedImages(d.images))
  }

  /** Which store callback a save invokes, with which product. */
  datatype SaveCall = NoCall | CallUpdate(updated: Product) | CallAdd(added: Product)

  /** `handleSave`'s decision. */
  function SaveCallFor(products: seq<Product>, editing: Option<Product>): SaveCall
  {
    if editing.None? || editing.value.title == "" then NoCall
    else if IdExists(products, editing.value.id) then CallUpdate(Finalized(editing.value))
    else CallAdd(Finalized(editing.value))
  }

  /** The draft after `handleSave`: cleared, unless the save returned early. */
  function DraftAfterSave(editing: Option<Product>): Option<Product>
  {
    if editing.None? || editing.value.title == "" then editing else None
  }

  /**
   * A save without a draft or with an empty title calls nothing and keeps the
   * draft; otherwise it calls exactly one of update and add, update exactly when
   * the catalog has the draft's id, with the draft carrying at least one image,
   * and clears the draft.
   */
  lemma SaveSpec(products: seq<Product>, editing: Option<Product>)
    ensures SaveCallFor(products, editing) == NoCall <==> editing.None? || editing.value.title == ""
    ensures SaveCallFor(products, editing) == NoCall ==> DraftAfterSave(editing) == editing
    ensures SaveCallFor(products, editing) != NoCall ==> DraftAfterSave(editing) == None
    ensures SaveCallFor(products, editing).CallUpdate? <==>
      editing.Some? && editing.value.title != "" && editing.value.id in Ids(products)
    ensures SaveCallFor(products, editing).CallAdd? <==>
      editing.Some? && editing.value.title != "" && editing.value.id !in Ids(products)
    ensures editing.Some? ==> match SaveCallFor(products, editing)
      case NoCall => true
      case CallUpdate(p) => p == editing.value.(images := p.images) && |p.images| >= 1
      case CallAdd(p) => p == editing.value.(images := p.images) && |p.images| >= 1
  {
    if editing.Some? {
      IdExistsIff(products, editing.value.id);
    }
  }

  /** The store's catalog after it has handled the call: `handleUpdateProduct` or `handleAddProduct`. */
  function AfterCall(products: seq<Product>, call: SaveCall): seq<Product>
  {
    match call
    case NoCall => products
    case CallUpdate(p) => ReplaceProduct(products, p)
    case CallAdd(p) => [p] + products
  }

  /**
   * A saved draft lands in the catalog: an update keeps the ids as they were, an
   * addition puts the new id first; an id that was new keeps the ids unique.
   */
  lemma SaveLands(products: seq<Product>, d: Product)
    requires d.title != ""
    ensures Finalized(d) in AfterCall(products, SaveCallFor(products, Some(d)))
    ensures d.id in Ids(products) ==> Ids(AfterCall(products, SaveCallFor(products, Some(d)))) == Ids(products)
    ensures d.id !in Ids(products) ==> Ids(AfterCall(products, SaveCallFor(products, Some(d)))) == [d.id] + Ids(products)
    ensures NoDups(Ids(products)) ==> NoDups(Ids(AfterCall(products, SaveCallFor(products, Some(d)))))
  {
    IdExistsIff(products, d.id);
    var p := Finalized(d);
    if d.id !in Ids(products) {
      IdsCons(p, products);
      NoDupsCons(d.id, Ids(products));
    }
  }

  /** A new draft has an empty title, so saving it as it is calls nothing. */
  lemma NewDraftNotSavable(products: seq<Product>, now: nat)
    ensures SaveCallFor(products, Some(NewDraft(now))) == NoCall
    ensures DraftAfterSave(Some(NewDraft(now))) == Some(NewDraft(now))
  {
  }

  /**
   * No seed id starts with `new_`, so a titled new draft saved over a catalog
   * with the seed ids (the seed catalog in any language, by `SeedIds`) is added.
   */
  lemma NewDraftAddedToSeed(products: seq<Product>, now: nat, title: string)
    requires Ids(products) == SeedIdList
    requires title != ""
    ensures SaveCallFor(products, Some(NewDraft(now).(title := title))).CallAdd?
  {
    var d := NewDraft(now).(title := title);
    IdExistsIff(products, d.id);
    assert d.id[0] == 'n';
    assert forall k :: 0 <= k < |SeedIdList| ==> SeedIdList[k][0] != 'n';
  }

  // ---------------------------------------------------------------------------
  // Deleting

  /** `handleDelete`: the id the store is asked to delete, if the user confirmed. */
  function DeleteCall(id: string, confirmed: bool): Option<string>
  {
    if confirmed then Some(id) else None
  }

  /** The draft after `handleDelete`. */
  function DraftAfterDelete(editing: Option<Product>, id: string, confirmed: bool): Option<Product>
  {
    if confirmed && editing.Some? && editing.value.id == id then None else editing
  }

  /**
   * Without confirmation nothing happens; with it the id is deleted, and the
   * draft is cleared exactly when it is the deleted product.
   */
  lemma DeleteSpec(editing: Option<Product>, id: string, confirmed: bool)
    ensures !confirmed ==> DeleteCall(id, confirmed) == None && DraftAfterDelete(editing, id, confirmed) == editing
    ensures confirmed ==> DeleteCall(id, confirmed) == Some(id)
    ensures confirmed ==> (DraftAfterDelete(editing, id, confirmed) == None <==> editing.None? || editing.value.id == id)
    ensures DraftAfterDelete(editing, id, confirmed) != None ==> DraftAfterDelete(editing, id, confirmed) == editing
  {
  }

  // ---------------------------------------------------------------------------
  // Images

  /** The position `splice(index, 1)` removes at: negative indices count from the end. */
  function SpliceStart(len: nat, index: int): (k: nat)
    ensures k <= len
  {
    if index < 0 then (if len + index < 0 then 0 else len + index)
    else if index > len then len else index
  }

  /** `splice(index, 1)` of a copy: the element at the start position, if there is one, is removed. */
  function Splice1<T>(s: seq<T>, index: int): seq<T>
  {
    var k := SpliceStart(|s|, index);
    if k < |s| then s[..k] + s[k + 1..] else s
  }

  /**
   * Removing at a valid index leaves the other elements in order, one fewer,
   * and the removed one gone from the multiset; an index past the end changes
   * nothing, and an empty list stays empty.
   */
  lemma Splice1Spec<T>(s: seq<T>, index: int)
    ensures 0 <= index < |s| ==>
      |Splice1(s, index)| == |s| - 1
      && (forall j :: 0 <= j < index ==> Splice1(s, index)[j] == s[j])
      && (forall j :: index <= j < |s| - 1 ==> Splice1(s, index)[j] == s[j + 1])
      && multiset(Splice1(s, index)) + multiset{s[index]} == multiset(s)
    ensures index >= |s| ==> Splice1(s, index) == s
    ensures -|s| <= index < 0 ==> Splice1(s, index) == Splice1(s, |s| + index)
    ensures s == [] ==> Splice1(s, index) == []
  {
    if 0 <= index < |s| {
      assert s == s[..index] + [s[index]] + s[index + 1..];
    }
  }

  /**
   * `removeImage`'s array work: copy the images, then shift every later element
   * one place to the left over the removed one and drop the last slot.
   */
  method SpliceOne(images: seq<string>, index: int) returns (r: seq<string>)
    ensures r == Splice1(images, index)
  {
    var a := new string[|images|](i requires 0 <= i < |images| => images[i]);
    var k := SpliceStart(a.Length, index);
    if k < a.Length {
      var i := k;
      while i < a.Length - 1
        invariant k <= i <= a.Length - 1
        invariant forall j :: 0 <= j < k ==> a[j] == images[j]
        invariant forall j :: k <= j < i ==> a[j] == images[j + 1]
        invariant forall j :: i <= j < a.Length ==> a[j] == images[j]
        decreases a.Length - i
      {
        a[i] := a[i + 1];
        i := i + 1;
      }
      r := a[..a.Length - 1];
      assert forall j :: 0 <= j < |r| ==> r[j] == (images[..k] + images[k + 1..])[j];
    } else {
      r := a[..];
      assert forall j :: 0 <= j < |r| ==> r[j] == images[j];
    }
  }

  // ---------------------------------------------------------------------------
  // The features field

  /** The features input shows the list joined with ", ". */
  function FeaturesText(features: seq<string>): string
  {
    Join(features, ", ")
  }

  /** `s.trim()` of every piece. */
  function TrimAll(pieces: seq<string>): (r: seq<string>)
    ensures |r| == |pieces|
    ensures forall i :: 0 <= i < |pieces| ==> r[i] == Trim(pieces[i])
  {
    seq(|pieces|, i requires 0 <= i < |pieces| => Trim(pieces[i]))
  }

  /** A typed value becomes `split(',')` with every piece trimmed. */
  function ParseFeatures(text: string): seq<string>
  {
    TrimAll(Split(text, ','))
  }

  /** `" " + f` for every piece. */
  function Spaced(fs: seq<string>): (r: seq<string>)
    ensures |r| == |fs|
    ensures forall i :: 0 <= i < |fs| ==> r[i] == " " + fs[i]
  {
    seq(|fs|, i requires 0 <= i < |fs| => " " + fs[i])
  }

  /** Joining with ", " is joining the spaced pieces with ",", but for the space before the first. */
  lemma {:induction false} JoinSpaced(fs: seq<string>)
    requires |fs| >= 1
    ensures Join(Spaced(fs), ",") == " " + Join(fs, ", ")
    decreases |fs|
  {
    if |fs| > 1 {
      JoinSpaced(fs[1..]);
      assert Spaced(fs)[1..] == Spaced(fs[1..]);
    }
  }

  /**
   * A list of at least one trimmed, comma-free feature survives being shown in
   * the field and read back.
   */
  lemma FeaturesRoundTrip(fs: seq<string>)
    requires |fs| >= 1
    requires forall i :: 0 <= i < |fs| ==> IsTrimmed(fs[i]) && ',' !in fs[i]
    ensures ParseFeatures(FeaturesText(fs)) == fs
  {
    var parts := [fs[0]] + Spaced(fs[1..]);
    assert Join(parts, ",") == FeaturesText(fs) by {
      if |fs| > 1 {
        JoinSpaced(fs[1..]);
        assert parts[1..] == Spaced(fs[1..]);
      }
    }
    forall k | 0 <= k < |parts| ensures ',' !in parts[k] {
      if k > 0 {
        assert parts[k] == " " + fs[k];
      }
    }
    SplitJoin(parts, ',');
    var r := ParseFeatures(FeaturesText(fs));
    forall i | 0 <= i < |fs| ensures r[i] == fs[i] {
      if i == 0 {
        TrimTrimmed(fs[0]);
      } else {
        assert parts[i] == " " + fs[i];
        TrimLeadingSpace(fs[i]);
      }
    }
  }

  /** An emptied field is read back as one empty feature. */
  lemma EmptyFeaturesText()
    ensures ParseFeatures("") == [""]
    ensures FeaturesText([]) == ""
  {
    assert Trim("") == "";
  }

  // ---------------------------------------------------------------------------
  // The panel

  class Panel {
    /** `editingProduct`: the draft, if any. */
    var editing: Option<Product>

    constructor ()
      ensures editing == None
    {
      editing := None;
    }

    /** `handleNewProduct`. */
    method NewProduct(now: nat)
      modifies this
      ensures editing == Some(NewDraft(now))
    {
      editing := Some(NewDraft(now));
    }

    /** Clicking a product of the list. */
    method Select(p: Product)
      modifies this
      ensures editing == Some(p)
    {
      editing := Some(p);
    }

    /** The cancel button. */
    method Cancel()
      modifies this
      ensures editing == None
    {
      editing := None;
    }

    /** `handleSave` over the catalog `products`; `call` is the store callback it makes. */
    method Save(products: seq<Product>) returns (call: SaveCall)
      modifies this
      ensures call == SaveCallFor(products, old(editing))
      ensures editing == DraftAfterSave(old(editing))
    {
      if editing.None? || editing.value.title == "" {
        return NoCall;
      }
      var finalProduct := editing.value.(images := SavedImages(editing.value.images));
      var found := IdExists(products, finalProduct.id);
      if found {
        call := CallUpdate(finalProduct);
      } else {
        call := CallAdd(finalProduct);
      }
      editing := None;
    }

    /** `handleDelete`; `confirmed` is the answer to the confirmation dialog. */
    method Delete(id: string, confirmed: bool) returns (deleted: Option<string>)
      modifies this
      ensures deleted == DeleteCall(id, confirmed)
      ensures editing == DraftAfterDelete(old(editing), id, confirmed)
    {
      deleted := None;
      if confirmed {
        deleted := Some(id);
        if editing.Some? && editing.value.id == id {
          editing := None;
        }
      }
    }

    /** The end of an image read: the data URL is appended to the draft's images. */
    method ImageLoaded(data: string)
      requires editing.Some?
      modifies this
      ensures editing == Some(old(editing.value).(images := old(editing.value.images) + [data]))
    {
      editing := Some(editing.value.(images := editing.value.images + [data]));
    }

    /** `removeImage(index)`. */
    method RemoveImage(index: int)
      modifies this
      ensures old(editing).None? ==> editing == None
      ensures old(editing).Some? ==>
        editing == Some(old(editing.value).(images := Splice1(old(editing.value.images), index)))
    {
      if editing.None? {
        return;
      }
      var newImages := SpliceOne(editing.value.images, index);
      editing := Some(editing.value.(images := newImages));
    }

    method SetTitle(v: string)
      requires editing.Some?
      modifies this
      ensures editing == Some(old(editing.value).(title := v))
    {
      editing := Some(editing.value.(title := v));
    }

    /** The price input; the typed text's numeric value is `v`. */
    method SetPrice(v: int)
      requires editing.Some?
      modifies this
      ensures editing == Some(old(editing.value).(price := v))
    {
      editing := Some(editing.value.(price := v));
    }

    method SetCategory(c: Category)
      requires editing.Some?
      modifies this
      ensures editing == Some(old(editing.value).(category := c))
    {
      editing := Some(editing.value.(category := c));
    }

    method SetDescription(v: string)
      requires editing.Some?
      modifies this
      ensures editing == Some(old(editing.value).(description := v))
    {
      editing := Some(editing.value.(description := v));
    }

    /** The features input: the typed text is parsed into the list. */
    method SetFeaturesText(text: string)
      requires editing.Some?
      modifies this
      ensures editing == Some(old(editing.value).(features := ParseFeatures(text)))
    {
      editing := Some(editing.value.(features := ParseFeatures(text)));
    }

    /** The stock input; the typed text's numeric value is `v`. */
    method SetStock(v: int)
      requires editing.Some?
      modifies this
      ensures editing == Some(old(editing.value).(stock := v))
    {
      editing := Some(editing.value.(stock := v));
    }

    /** The delete button is offered only for a draft whose id is in the catalog. */
    function ShowsDelete(products: seq<Product>): bool
      reads this
    {
      editing.Some? && IdExists(products, editing.value.id)
    }

    /**
     * The delete button shows exactly for a draft already in the catalog, which
     * is also exactly when saving it, titled, updates rather than adds.
     */
    lemma ShowsDeleteIff(products: seq<Product>)
      ensures ShowsDelete(products) <==> editing.Some? && editing.value.id in Ids(products)
      ensures editing.Some? && editing.value.title != "" ==>
        (ShowsDelete(products) <==> SaveCallFor(products, editing).CallUpdate?)
    {
      if editing.Some? {
        IdExistsIff(products, editing.value.id);
      }
    }
  }
}
