/**
 * The index arithmetic of the image carousels on the product card and in the
 * product modal: previous and next wrap around `[0, len)`, and the image
 * preloaded is the one the next step shows.
 */
module Carousel {

  /** `prev === len - 1 ? 0 : prev + 1`. */
  function Next(i: int, len: int): int
  {
    if i == len - 1 then 0 else i + 1
  }

  /** `prev === 0 ? len - 1 : prev - 1`. */
  function Prev(i: int, len: int): int
  {
    if i == 0 then len - 1 else i - 1
  }

  /** JavaScript's `%`: the remainder takes the sign of the dividend. */
  function JsRem(a: int, n: int): (r: int)
    requires n > 0
    ensures a >= 0 ==> 0 <= r < n
    ensures a < 0 ==> -n < r <= 0
  {
    if a >= 0 then a % n else -((-a) % n)
  }

  /** `(currentImageIndex + 1) % images.length`: the image preloaded after the current one. */
  function PreloadNext(i: int, len: int): int
    requires len > 0
  {
    JsRem(i + 1, len)
  }

  /** Both steps keep an index inside `[0, len)`. */
  lemma StepsInRange(i: int, len: int)
    requires 0 <= i < len
    ensures 0 <= Next(i, len) < len
    ensures 0 <= Prev(i, len) < len
  {
  }

  /** Next then previous, or previous then next, comes back to the same image. */
  lemma NextPrevInverse(i: int, len: int)
    requires 0 <= i < len
    ensures Prev(Next(i, len), len) == i
    ensures Next(Prev(i, len), len) == i
  {
  }

  /** `n` presses of next. */
  function NextTimes(i: int, len: int, n: nat): int
    decreases n
  {
    if n == 0 then i else Next(NextTimes(i, len, n - 1), len)
  }

  /** `a` reduced to `[0, len)` by taking away whole turns of `len`. */
  function Wrap(a: nat, len: nat): nat
    requires len > 0
    decreases a
  {
    if a < len then a else Wrap(a - len, len)
  }

  /** One press of next from a wrapped position is one more place, wrapped. */
  lemma {:induction false} NextWrap(a: nat, len: nat)
    requires len > 0
    ensures Next(Wrap(a, len), len) == Wrap(a + 1, len)
    decreases a
  {
    if a >= len {
      NextWrap(a - len, len);
      assert Wrap(a + 1, len) == Wrap(a + 1 - len, len);
    }
  }

  /** Next is rotation by one: `n` presses move `n` places around the ring. */
  lemma {:induction false} NextTimesRotates(i: nat, len: nat, n: nat)
    requires i < len
    ensures NextTimes(i, len, n) == Wrap(i + n, len)
    decreases n
  {
    if n > 0 {
      NextTimesRotates(i, len, n - 1);
      NextWrap(i + n - 1, len);
    }
  }

  /** `len` presses of next come back to the image the carousel started at. */
  lemma NextFullCircle(i: nat, len: nat)
    requires i < len
    ensures NextTimes(i, len, len) == i
  {
    NextTimesRotates(i, len, len);
    assert Wrap(i + len, len) == Wrap(i, len);
  }

  /** The preloaded image is the one next shows. */
  lemma PreloadIsNext(i: int, len: int)
    requires len > 0
    ensures 0 <= i < len ==> PreloadNext(i, len) == Next(i, len)
  {
    if i == len - 1 {
      assert i + 1 == 1 * len + 0;
    }
  }

  /** Arrows and dots appear only for a product with more than one image. */
  predicate ShowsControls(len: int)
  {
    len > 1
  }

  /** The dots: dot `idx` is highlighted when it is the current image. */
  function Dots(len: nat, current: int): (r: seq<bool>)
    ensures |r| == len
  {
    seq(len, idx requires 0 <= idx < len => idx == current)
  }

  /** Exactly one dot is highlighted, the current one, while the index is in range. */
  lemma OneDotHighlighted(len: nat, current: int)
    requires 0 <= current < len
    ensures Dots(len, current)[current]
    ensures forall idx :: 0 <= idx < len && idx != current ==> !Dots(len, current)[idx]
    ensures multiset(Dots(len, current))[true] == 1
  {
    var d := Dots(len, current);
    assert d == Dots(current, current) + [true] + Dots(len - current - 1, -1);
    FalseDots(current, current);
    FalseDots(len - current - 1, -1);
  }

  lemma {:induction false} FalseDots(len: nat, current: int)
    requires current < 0 || current >= len
    ensures multiset(Dots(len, current))[true] == 0
    decreases len
  {
    if len > 0 {
      assert Dots(len, current) == Dots(len - 1, current) + [false];
      FalseDots(len - 1, current);
    }
  }
}
