/**
 * The concierge chat: its transcript (the greeting on every language change,
 * the user's message and the reply or error of each send) and the rendering
 * of a reply, which splits every line at the product titles it mentions and
 * turns those into links to the products.
 *
 * The title pattern of the source is an alternation of the escaped titles,
 * longest first, matched case-insensitively; here it is an explicit scan that
 * at each position, left to right, tries the titles in that order.
 */
module Concierge {
  import opened Types
  import opened Seqs
  import opened Text

  // ---------------------------------------------------------------------------
  // Titles in the order they are tried

  /** Longer strings first. */
  predicate SortedByLength(ts: seq<string>)
  {
    forall i, j :: 0 <= i < j < |ts| ==> |ts[i]| >= |ts[j]|
  }

  /** Inserts `t` after every string at least as long: the step of a stable sort. */
  function InsertByLength(sorted: seq<string>, t: string): (r: seq<string>)
    ensures multiset(r) == multiset(sorted) + multiset{t}
    decreases |sorted|
  {
    if sorted == [] then [t]
    else if |sorted[0]| >= |t| then
      assert sorted == [sorted[0]] + sorted[1..];
      [sorted[0]] + InsertByLength(sorted[1..], t)
    else [t] + sorted
  }

  /** Inserting into a sequence sorted longest first keeps it sorted. */
  lemma {:induction false} InsertSorted(sorted: seq<string>, t: string)
    requires SortedByLength(sorted)
    ensures SortedByLength(InsertByLength(sorted, t))
    decreases |sorted|
  {
    if sorted != [] && |sorted[0]| >= |t| {
      var rest := InsertByLength(sorted[1..], t);
      InsertSorted(sorted[1..], t);
      forall k | 0 <= k < |rest| ensures |rest[k]| <= |sorted[0]| {
        assert rest[k] in multiset(rest);
        if rest[k] != t {
          assert rest[k] in multiset(sorted[1..]);
          var m :| 0 <= m < |sorted[1..]| && sorted[1..][m] == rest[k];
          assert sorted[m + 1] == rest[k];
        }
      }
      var r := [sorted[0]] + rest;
      forall i, j | 0 <= i < j < |r| ensures |r[i]| >= |r[j]| {
        if i > 0 {
          assert r[i] == rest[i - 1] && r[j] == rest[j - 1];
        } else {
          assert r[j] == rest[j - 1];
        }
      }
    }
  }

  /** `sort((a, b) => b.length - a.length)`: the same strings, longest first. */
  function SortByLength(ts: seq<string>): (r: seq<string>)
    ensures SortedByLength(r)
    ensures multiset(r) == multiset(ts)
    decreases |ts|
  {
    if ts == [] then []
    else
      var n := |ts| - 1;
      assert ts == ts[..n] + [ts[n]];
      var front := SortByLength(ts[..n]);
      InsertSorted(front, ts[n]);
      InsertByLength(front, ts[n])
  }

  function NonEmptyString(): string -> bool
  {
    s => s != ""
  }

  /** `products.map(p => p.title).filter(Boolean).sort(...)`: the titles a reply is searched for. */
  function SearchTitles(products: seq<Product>): (r: seq<string>)
    ensures SortedByLength(r)
    ensures forall t :: t in r <==> t != "" && t in Titles(products)
  {
    var r := SortByLength(Filter(Titles(products), NonEmptyString()));
    assert forall t :: t in r <==> t in multiset(r);
    r
  }

  // ---------------------------------------------------------------------------
  // Finding the titles in a line

  /** Title `t` occurs at `pos` in `line`, ignoring case. */
  predicate MatchesAt(line: string, pos: nat, t: string)
  {
    pos + |t| <= |line| && Lower(line[pos..pos + |t|]) == Lower(t)
  }

  /** The first title from index `k` on that occurs at `pos`. */
  function FirstMatch(line: string, pos: nat, titles: seq<string>, k: nat): (r: Option<nat>)
    requires k <= |titles|
    ensures r.Some? ==> k <= r.value < |titles| && MatchesAt(line, pos, titles[r.value])
                        && forall i :: k <= i < r.value ==> !MatchesAt(line, pos, titles[i])
    ensures r.None? ==> forall i :: k <= i < |titles| ==> !MatchesAt(line, pos, titles[i])
    decreases |titles| - k
  {
    if k == |titles| then None
    else if MatchesAt(line, pos, titles[k]) then Some(k)
    else FirstMatch(line, pos, titles, k + 1)
  }

  /** The title the alternation picks at `pos`: the first one in order that occurs there. */
  function TitleAt(line: string, pos: nat, titles: seq<string>): Option<nat>
  {
    FirstMatch(line, pos, titles, 0)
  }

  /** With the titles longest first, the one picked is at least as long as any title occurring there. */
  lemma LongestFirst(line: string, pos: nat, titles: seq<string>)
    requires SortedByLength(titles)
    requires TitleAt(line, pos, titles).Some?
    ensures forall i :: 0 <= i < |titles| && MatchesAt(line, pos, titles[i]) ==>
              |titles[i]| <= |titles[TitleAt(line, pos, titles).value]|
  {
  }

  predicate NoEmptyTitle(titles: seq<string>)
  {
    forall i :: 0 <= i < |titles| ==> |titles[i]| >= 1
  }

  /** An occurrence found: `len` characters from `at`. */
  datatype Found = Found(at: nat, len: nat)
  {
    function End(): nat { at + len }
  }

  /** The occurrences lie in `line` from `from` on, each non-empty, in order and without overlap. */
  predicate Spans(line: string, ms: seq<Found>, from: nat)
  {
    (forall i :: 0 <= i < |ms| ==> from <= ms[i].at && ms[i].len >= 1 && ms[i].End() <= |line|)
    && (forall i, j :: 0 <= i < j < |ms| ==> ms[i].End() <= ms[j].at)
  }

  /** Position `q` lies inside one of the occurrences. */
  predicate Covered(ms: seq<Found>, q: nat)
  {
    exists i :: 0 <= i < |ms| && ms[i].at <= q < ms[i].End()
  }

  /**
   * The leftmost scan of `String.prototype.split` with the title pattern: from
   * `pos` on, take the title picked at the current position and continue after
   * it, or move one character on.
   */
  function Scan(line: string, titles: seq<string>, pos: nat): seq<Found>
    requires pos <= |line|
    requires NoEmptyTitle(titles)
    decreases |line| - pos
  {
    if pos == |line| then []
    else
      match TitleAt(line, pos, titles)
      case None => Scan(line, titles, pos + 1)
      case Some(j) => [Found(pos, |titles[j]|)] + Scan(line, titles, pos + |titles[j]|)
  }

  lemma CoveredCons(f: Found, ms: seq<Found>, q: nat)
    requires Covered(ms, q)
    ensures Covered([f] + ms, q)
  {
    var i :| 0 <= i < |ms| && ms[i].at <= q < ms[i].End();
    assert ([f] + ms)[i + 1] == ms[i];
  }

  /** The scan finds non-overlapping occurrences in order, after `pos`. */
  lemma {:induction false} ScanSpans(line: string, titles: seq<string>, pos: nat)
    requires pos <= |line|
    requires NoEmptyTitle(titles)
    ensures Spans(line, Scan(line, titles, pos), pos)
    decreases |line| - pos
  {
    if pos < |line| {
      var ms := Scan(line, titles, pos);
      match TitleAt(line, pos, titles)
      case None =>
        ScanSpans(line, titles, pos + 1);
      case Some(j) =>
        var e := pos + |titles[j]|;
        var rest := Scan(line, titles, e);
        ScanSpans(line, titles, e);
        assert ms == [Found(pos, |titles[j]|)] + rest;
        assert forall i :: 0 < i < |ms| ==> ms[i] == rest[i - 1];
    }
  }

  /** Occurrence `f` is the title the alternation picks at its position. */
  predicate Picked(line: string, titles: seq<string>, f: Found)
  {
    TitleAt(line, f.at, titles).Some? && f.len == |titles[TitleAt(line, f.at, titles).value]|
  }

  /** Each occurrence is of the title picked where it starts. */
  lemma {:induction false} ScanPicks(line: string, titles: seq<string>, pos: nat)
    requires pos <= |line|
    requires NoEmptyTitle(titles)
    ensures forall f :: f in Scan(line, titles, pos) ==> Picked(line, titles, f)
    decreases |line| - pos
  {
    if pos < |line| {
      match TitleAt(line, pos, titles)
      case None =>
        ScanPicks(line, titles, pos + 1);
      case Some(j) =>
        ScanPicks(line, titles, pos + |titles[j]|);
    }
  }

  /** Every position from `pos` on where some title occurs lies inside an occurrence: nothing is skipped. */
  lemma {:induction false} ScanCovers(line: string, titles: seq<string>, pos: nat)
    requires pos <= |line|
    requires NoEmptyTitle(titles)
    ensures forall q :: pos <= q < |line| && TitleAt(line, q, titles).Some? ==> Covered(Scan(line, titles, pos), q)
    decreases |line| - pos
  {
    if pos < |line| {
      var ms := Scan(line, titles, pos);
      match TitleAt(line, pos, titles)
      case None =>
        ScanCovers(line, titles, pos + 1);
      case Some(j) =>
        var e := pos + |titles[j]|;
        var rest := Scan(line, titles, e);
        ScanCovers(line, titles, e);
        assert ms == [Found(pos, |titles[j]|)] + rest;
        forall q | pos <= q < |line| && TitleAt(line, q, titles).Some? ensures Covered(ms, q) {
          if q < e {
            assert ms[0].at <= q < ms[0].End();
          } else {
            CoveredCons(Found(pos, |titles[j]|), rest, q);
          }
        }
    }
  }

  // ---------------------------------------------------------------------------
  // The parts of a line

  /** The concatenation of the strings. */
  function Concat(ss: seq<string>): string
    decreases |ss|
  {
    if ss == [] then "" else ss[0] + Concat(ss[1..])
  }

  lemma SpansTail(line: string, ms: seq<Found>, from: nat)
    requires Spans(line, ms, from) && ms != []
    ensures Spans(line, ms[1..], ms[0].End())
  {
    forall i | 0 <= i < |ms| - 1 ensures ms[0].End() <= ms[1..][i].at {
      assert ms[1..][i] == ms[i + 1];
    }
  }

  /**
   * `line.split(pattern)` with the capturing group: the text before the first
   * occurrence, the occurrence, the text up to the next, and so on, ending with
   * the text after the last.
   */
  function Parts(line: string, ms: seq<Found>, from: nat): seq<string>
    requires from <= |line|
    requires Spans(line, ms, from)
    decreases |ms|
  {
    if ms == [] then [line[from..]]
    else
      SpansTail(line, ms, from);
      [line[from..ms[0].at], line[ms[0].at..ms[0].End()]] + Parts(line, ms[1..], ms[0].End())
  }

  /** Concatenating the parts gives back the line. */
  lemma {:induction false} PartsConcat(line: string, ms: seq<Found>, from: nat)
    requires from <= |line|
    requires Spans(line, ms, from)
    ensures Concat(Parts(line, ms, from)) == line[from..]
    decreases |ms|
  {
    if ms != [] {
      SpansTail(line, ms, from);
      var e := ms[0].End();
      var ps := Parts(line, ms, from);
      var rest := Parts(line, ms[1..], e);
      PartsConcat(line, ms[1..], e);
      assert ps[1..] == [line[ms[0].at..e]] + rest;
      assert ps[1..][1..] == rest;
      assert line[from..] == line[from..ms[0].at] + line[ms[0].at..e] + line[e..];
    }
  }

  /** Where gap `i` (the text before occurrence `i`, or after the last) starts. */
  function GapStart(ms: seq<Found>, from: nat, i: nat): nat
    requires i <= |ms|
  {
    if i == 0 then from else ms[i - 1].End()
  }

  /** Where gap `i` ends. */
  function GapEnd(line: string, ms: seq<Found>, i: nat): nat
    requires i <= |ms|
  {
    if i == |ms| then |line| else ms[i].at
  }

  /** One more part than twice the occurrences: a gap before each, and one after the last. */
  lemma {:induction false} PartsLength(line: string, ms: seq<Found>, from: nat)
    requires from <= |line|
    requires Spans(line, ms, from)
    ensures |Parts(line, ms, from)| == 2 * |ms| + 1
    decreases |ms|
  {
    if ms != [] {
      SpansTail(line, ms, from);
      PartsLength(line, ms[1..], ms[0].End());
    }
  }

  /** Part `2i + 1` is the text of occurrence `i`. */
  lemma {:induction false} PartsOdd(line: string, ms: seq<Found>, from: nat, i: nat)
    requires from <= |line|
    requires Spans(line, ms, from)
    requires i < |ms|
    ensures 2 * i + 1 < |Parts(line, ms, from)|
    ensures Parts(line, ms, from)[2 * i + 1] == line[ms[i].at..ms[i].End()]
    decreases |ms|
  {
    PartsLength(line, ms, from);
    if i > 0 {
      SpansTail(line, ms, from);
      var e := ms[0].End();
      PartsOdd(line, ms[1..], e, i - 1);
      assert Parts(line, ms, from)[2 * i + 1] == Parts(line, ms[1..], e)[2 * (i - 1) + 1];
      assert ms[1..][i - 1] == ms[i];
    }
  }

  /** Part `2i` is the text of gap `i`. */
  lemma {:induction false} PartsEven(line: string, ms: seq<Found>, from: nat, i: nat)
    requires from <= |line|
    requires Spans(line, ms, from)
    requires i <= |ms|
    ensures GapStart(ms, from, i) <= GapEnd(line, ms, i) <= |line|
    ensures 2 * i < |Parts(line, ms, from)|
    ensures Parts(line, ms, from)[2 * i] == line[GapStart(ms, from, i)..GapEnd(line, ms, i)]
    decreases |ms|
  {
    PartsLength(line, ms, from);
    if i > 0 {
      SpansTail(line, ms, from);
      var e := ms[0].End();
      var tail := ms[1..];
      PartsEven(line, tail, e, i - 1);
      assert Parts(line, ms, from)[2 * i] == Parts(line, tail, e)[2 * (i - 1)];
      assert GapStart(ms, from, i) == GapStart(tail, e, i - 1);
      assert GapEnd(line, ms, i) == GapEnd(line, tail, i - 1);
    }
  }

  /** No position of a gap lies inside an occurrence. */
  lemma GapNotCovered(line: string, ms: seq<Found>, from: nat, i: nat, q: nat)
    requires from <= |line|
    requires Spans(line, ms, from)
    requires i <= |ms|
    requires GapStart(ms, from, i) <= q < GapEnd(line, ms, i)
    ensures !Covered(ms, q)
  {
  }

  // ---------------------------------------------------------------------------
  // Links

  /** `products.find(p => p.title.toLowerCase() === part.toLowerCase())`, as an index, or -1. */
  function FindTitle(products: seq<Product>, part: string): (k: int)
    ensures -1 <= k < |products|
    ensures k >= 0 ==> Lower(products[k].title) == Lower(part)
                       && forall i :: 0 <= i < k ==> Lower(products[i].title) != Lower(part)
    ensures k == -1 ==> forall i :: 0 <= i < |products| ==> Lower(products[i].title) != Lower(part)
    decreases |products|
  {
    if products == [] then -1
    else if Lower(products[0].title) == Lower(part) then 0
    else
      var k := FindTitle(products[1..], part);
      if k == -1 then -1 else k + 1
  }

  /** A rendered piece of a reply: text, or a link that opens the product. */
  datatype Part = PlainText(text: string) | ProductLink(text: string, product: Product)

  function RenderPart(products: seq<Product>, part: string): Part
  {
    var k := FindTitle(products, part);
    if k >= 0 then ProductLink(part, products[k]) else PlainText(part)
  }

  function PartText(p: Part): string
  {
    p.text
  }

  /**
   * A part is a link exactly when some product's title equals it ignoring case,
   * and then it links to the first such product in catalog order; its text is
   * the part itself.
   */
  lemma RenderPartSpec(products: seq<Product>, part: string)
    ensures PartText(RenderPart(products, part)) == part
    ensures RenderPart(products, part).ProductLink? <==>
      exists k :: 0 <= k < |products| && Lower(products[k].title) == Lower(part)
    ensures RenderPart(products, part).ProductLink? ==>
      exists k :: 0 <= k < |products| && RenderPart(products, part).product == products[k]
        && Lower(products[k].title) == Lower(part)
        && forall i :: 0 <= i < k ==> Lower(products[i].title) != Lower(part)
  {
    var k := FindTitle(products, part);
    if k >= 0 {
      assert 0 <= k < |products| && Lower(products[k].title) == Lower(part);
    }
  }

  lemma SearchTitlesNonEmpty(products: seq<Product>)
    ensures NoEmptyTitle(SearchTitles(products))
  {
    var titles := SearchTitles(products);
    forall i | 0 <= i < |titles| ensures |titles[i]| >= 1 {
      assert titles[i] in titles;
    }
  }

  /** The occurrences of the catalog's titles in a line. */
  function LineMatches(products: seq<Product>, line: string): (ms: seq<Found>)
    ensures Spans(line, ms, 0)
  {
    var titles := SearchTitles(products);
    SearchTitlesNonEmpty(products);
    ScanSpans(line, titles, 0);
    Scan(line, titles, 0)
  }

  /** The parts a line is split into. */
  function LineParts(products: seq<Product>, line: string): seq<string>
  {
    Parts(line, LineMatches(products, line), 0)
  }

  function RenderLine(products: seq<Product>, line: string): (r: seq<Part>)
    ensures |r| == |LineParts(products, line)|
    ensures forall i :: 0 <= i < |r| ==> r[i] == RenderPart(products, LineParts(products, line)[i])
  {
    var ps := LineParts(products, line);
    seq(|ps|, i requires 0 <= i < |ps| => RenderPart(products, ps[i]))
  }

  function Texts(parts: seq<Part>): seq<string>
  {
    seq(|parts|, i requires 0 <= i < |parts| => PartText(parts[i]))
  }

  /** The rendered parts of a line spell out the line exactly. */
  lemma RenderLineText(products: seq<Product>, line: string)
    ensures Concat(Texts(RenderLine(products, line))) == line
  {
    assert Texts(RenderLine(products, line)) == LineParts(products, line);
    PartsConcat(line, LineMatches(products, line), 0);
  }

  /** A part equal to a search title, ignoring case, links. */
  lemma TitleLinks(products: seq<Product>, part: string, t: string)
    requires t in SearchTitles(products) && Lower(part) == Lower(t)
    ensures RenderPart(products, part).ProductLink?
  {
    var k :| 0 <= k < |Titles(products)| && Titles(products)[k] == t;
    assert Lower(products[k].title) == Lower(part);
  }

  /** A part that links is, ignoring case, a search title of its own length. */
  lemma LinkedIsTitle(products: seq<Product>, part: string) returns (t: string)
    requires forall k :: 0 <= k < |products| ==> products[k].title != ""
    requires RenderPart(products, part).ProductLink?
    ensures t in SearchTitles(products) && Lower(t) == Lower(part) && |t| == |part|
  {
    var k := FindTitle(products, part);
    t := products[k].title;
    assert |t| == |Lower(t)| == |Lower(part)| == |part|;
    assert Titles(products)[k] == t;
  }

  /** The text of occurrence `i` matches a catalog title, so it links. */
  lemma OddPartLinks(products: seq<Product>, line: string, i: nat)
    requires i < |LineMatches(products, line)|
    ensures 2 * i + 1 < |LineParts(products, line)|
    ensures RenderPart(products, LineParts(products, line)[2 * i + 1]).ProductLink?
  {
    var titles := SearchTitles(products);
    SearchTitlesNonEmpty(products);
    var ms := LineMatches(products, line);
    assert ms == Scan(line, titles, 0);
    var t := MatchIsTitle(line, titles, ms, i);
    assert LineParts(products, line) == Parts(line, ms, 0);
    TitleLinks(products, Parts(line, ms, 0)[2 * i + 1], t);
  }

  /** The text of occurrence `i` of the scan is, ignoring case, one of the titles. */
  lemma MatchIsTitle(line: string, titles: seq<string>, ms: seq<Found>, i: nat) returns (t: string)
    requires NoEmptyTitle(titles)
    requires ms == Scan(line, titles, 0) && Spans(line, ms, 0)
    requires i < |ms|
    ensures 2 * i + 1 < |Parts(line, ms, 0)|
    ensures t in titles && Lower(Parts(line, ms, 0)[2 * i + 1]) == Lower(t)
  {
    PartsOdd(line, ms, 0, i);
    ScanPicks(line, titles, 0);
    assert ms[i] in ms;
    var j := TitleAt(line, ms[i].at, titles).value;
    t := titles[j];
  }

  /** No gap of the scan is, ignoring case, one of the titles searched for. */
  lemma GapIsNoTitle(line: string, titles: seq<string>, ms: seq<Found>, i: nat, t: string)
    requires NoEmptyTitle(titles) && t in titles
    requires ms == Scan(line, titles, 0) && Spans(line, ms, 0)
    requires i <= |ms|
    ensures 2 * i < |Parts(line, ms, 0)|
    ensures |t| != |Parts(line, ms, 0)[2 * i]| || Lower(t) != Lower(Parts(line, ms, 0)[2 * i])
  {
    PartsEven(line, ms, 0, i);
    var gap := Parts(line, ms, 0)[2 * i];
    var q := GapStart(ms, 0, i);
    if |t| == |gap| && Lower(t) == Lower(gap) {
      var idx :| 0 <= idx < |titles| && titles[idx] == t;
      assert line[q..q + |t|] == gap;
      assert MatchesAt(line, q, titles[idx]);
      ScanCovers(line, titles, 0);
      GapNotCovered(line, ms, 0, i, q);
      assert false;
    }
  }

  /** When no product's title is empty, the text of gap `i` matches no title, so it stays plain. */
  lemma EvenPartPlain(products: seq<Product>, line: string, i: nat)
    requires forall k :: 0 <= k < |products| ==> products[k].title != ""
    requires i <= |LineMatches(products, line)|
    ensures 2 * i < |LineParts(products, line)|
    ensures RenderPart(products, LineParts(products, line)[2 * i]).PlainText?
  {
    var titles := SearchTitles(products);
    SearchTitlesNonEmpty(products);
    var ms := LineMatches(products, line);
    PartsLength(line, ms, 0);
    var gap := LineParts(products, line)[2 * i];
    if RenderPart(products, gap).ProductLink? {
      var t := LinkedIsTitle(products, gap);
      GapIsNoTitle(line, titles, ms, i, t);
      assert false;
    }
  }

  /**
   * The odd parts are the found titles and become links; when no product has an
   * empty title the even parts, the text between them, never do.
   */
  lemma RenderLineLinks(products: seq<Product>, line: string)
    ensures var r := RenderLine(products, line);
      |r| % 2 == 1
      && forall i :: 0 <= i < |r| && i % 2 == 1 ==> r[i].ProductLink?
    ensures (forall k :: 0 <= k < |products| ==> products[k].title != "") ==>
      var r := RenderLine(products, line);
      forall i :: 0 <= i < |r| && i % 2 == 0 ==> r[i].PlainText?
  {
    var ms := LineMatches(products, line);
    PartsLength(line, ms, 0);
    var r := RenderLine(products, line);
    forall i | 0 <= i < |r| && i % 2 == 1 ensures r[i].ProductLink? {
      var m := i / 2;
      assert i == 2 * m + 1;
      OddPartLinks(products, line, m);
    }
    if forall k :: 0 <= k < |products| ==> products[k].title != "" {
      forall i | 0 <= i < |r| && i % 2 == 0 ensures r[i].PlainText? {
        var m := i / 2;
        assert i == 2 * m;
        EvenPartPlain(products, line, m);
      }
    }
  }

  // ---------------------------------------------------------------------------
  // Rendering a message

  /** What a message bubble shows: the raw text, or one paragraph of parts per line. */
  datatype Content = Unsplit(text: string) | Paragraphs(lines: seq<seq<Part>>)

  /** `renderMessageContent`: no catalog or no titles leaves the text as it is. */
  function RenderReply(products: seq<Product>, text: string): Content
  {
    if |products| == 0 || |SearchTitles(products)| == 0 then Unsplit(text)
    else
      var lines := Split(text, '\n');
      Paragraphs(seq(|lines|, i requires 0 <= i < |lines| => RenderLine(products, lines[i])))
  }

  /** A message bubble: the user's lines as plain paragraphs, a reply through `RenderReply`. */
  function RenderMessage(products: seq<Product>, msg: ChatMessage): Content
  {
    if msg.role == User then
      var lines := Split(msg.text, '\n');
      Paragraphs(seq(|lines|, i requires 0 <= i < |lines| => [PlainText(lines[i])]))
    else RenderReply(products, msg.text)
  }

  /** Shown as paragraphs, none holding a link. */
  predicate AllPlain(c: Content)
  {
    c.Paragraphs? && forall i, j :: 0 <= i < |c.lines| && 0 <= j < |c.lines[i]| ==> c.lines[i][j].PlainText?
  }

  function ContentLines(c: Content): seq<string>
  {
    match c
    case Unsplit(text) => [text]
    case Paragraphs(lines) => seq(|lines|, i requires 0 <= i < |lines| => Concat(Texts(lines[i])))
  }

  /** A user's message is shown line by line, as typed, without links. */
  lemma UserMessagePlain(products: seq<Product>, msg: ChatMessage)
    requires msg.role == User
    ensures AllPlain(RenderMessage(products, msg))
    ensures ContentLines(RenderMessage(products, msg)) == Split(msg.text, '\n')
  {
    var c := RenderMessage(products, msg);
    var lines := Split(msg.text, '\n');
    forall i | 0 <= i < |lines| ensures ContentLines(c)[i] == lines[i] {
      assert Texts(c.lines[i]) == [lines[i]];
      assert Concat([lines[i]]) == lines[i] + Concat([]);
    }
  }

  /** A reply split into paragraphs shows each of its lines exactly. */
  lemma ReplyLines(products: seq<Product>, text: string)
    requires RenderReply(products, text).Paragraphs?
    ensures ContentLines(RenderReply(products, text)) == Split(text, '\n')
  {
    var c := RenderReply(products, text);
    var lines := Split(text, '\n');
    forall i | 0 <= i < |lines| ensures ContentLines(c)[i] == lines[i] {
      RenderLineText(products, lines[i]);
    }
  }

  /**
   * Every bubble shows its message's text exactly: the paragraphs joined with
   * line breaks give back the text.
   */
  lemma RenderMessageText(products: seq<Product>, msg: ChatMessage)
    ensures Join(ContentLines(RenderMessage(products, msg)), "\n") == msg.text
  {
    if msg.role == User {
      UserMessagePlain(products, msg);
      JoinSplit(msg.text, '\n');
    } else if RenderReply(products, msg.text).Paragraphs? {
      ReplyLines(products, msg.text);
      JoinSplit(msg.text, '\n');
    }
  }

  /** Without a titled product in the catalog a reply is shown unsplit. */
  lemma UntitledReplyUnsplit(products: seq<Product>, msg: ChatMessage)
    requires msg.role == Model
    requires forall k :: 0 <= k < |products| ==> products[k].title == ""
    ensures RenderMessage(products, msg) == Unsplit(msg.text)
  {
    assert |SearchTitles(products)| == 0;
  }

  // ---------------------------------------------------------------------------
  // The transcript

  /** The text of the error reply. */
  const ErrorReply: string := "Error connecting to concierge service."

  /** The greeting every language change resets the transcript to. */
  function Greeting(text: string, now: int): ChatMessage
  {
    ChatMessage("1", Model, text, now, false)
  }

  /** The user's message of a send, with the clock reading `now`. */
  function UserMessage(text: string, now: nat): ChatMessage
  {
    ChatMessage(NatToDecimal(now), User, text, now, false)
  }

  /** The reply of a send: the answer, or the error text flagged as an error when the request failed. */
  function ReplyMessage(reply: Option<string>, now: nat): ChatMessage
  {
    match reply
    case Some(answer) => ChatMessage(NatToDecimal(now + 1), Model, answer, now, false)
    case None => ChatMessage(NatToDecimal(now), Model, ErrorReply, now, true)
  }

  /** The reply comes from the model, and is flagged exactly when the request failed. */
  lemma ReplyMessageSpec(reply: Option<string>, now: nat)
    ensures ReplyMessage(reply, now).role == Model
    ensures ReplyMessage(reply, now).isError <==> reply.None?
    ensures reply.Some? ==> ReplyMessage(reply, now).text == reply.value
    ensures reply.None? ==> ReplyMessage(reply, now).text == ErrorReply
  {
  }

  /** One conversation turn sent as history: the role and the text. */
  datatype Turn = Turn(role: Role, text: string)

  function History(messages: seq<ChatMessage>): (r: seq<Turn>)
    ensures |r| == |messages|
    ensures forall i :: 0 <= i < |messages| ==> r[i] == Turn(messages[i].role, messages[i].text)
  {
    seq(|messages|, i requires 0 <= i < |messages| => Turn(messages[i].role, messages[i].text))
  }

  /** A send goes ahead only with some non-blank input and no request in flight. */
  predicate MaySend(input: string, isLoading: bool)
  {
    Trim(input) != "" && !isLoading
  }

  /** A blank or whitespace-only input is never sent. */
  lemma MaySendSpec(input: string, isLoading: bool)
    ensures MaySend(input, isLoading) <==> !AllWhitespace(input) && !isLoading
  {
  }

  class Chat {
    var messages: seq<ChatMessage>
    var input: string
    var isLoading: bool

    /** The state before the first effect has run: no messages yet. */
    constructor ()
      ensures messages == [] && input == "" && !isLoading
    {
      messages, input, isLoading := [], "", false;
    }

    /** The language effect, also run once on mount: the transcript is the greeting alone. */
    method LanguageChanged(greeting: string, now: int)
      modifies this
      ensures messages == [Greeting(greeting, now)]
      ensures input == old(input) && isLoading == old(isLoading)
    {
      messages := [Greeting(greeting, now)];
    }

    /** Typing into the text area. */
    method SetInput(v: string)
      modifies this
      ensures input == v && messages == old(messages) && isLoading == old(isLoading)
    {
      input := v;
    }

    /**
     * The first half of `handleSend`, up to the request: the input is taken and
     * cleared, the user's message appended and loading set. `history` is the
     * transcript before the user's message and `userText` the text sent with it.
     */
    method BeginSend(now: nat) returns (sent: bool, history: seq<Turn>, userText: string)
      modifies this
      ensures sent == MaySend(old(input), old(isLoading))
      ensures !sent ==> messages == old(messages) && input == old(input) && isLoading == old(isLoading)
      ensures sent ==> userText == old(input) && history == History(old(messages))
      ensures sent ==> input == "" && isLoading && messages == old(messages) + [UserMessage(old(input), now)]
    {
      sent, history, userText := false, [], "";
      if !MaySend(input, isLoading) {
        return;
      }
      userText := input;
      history := History(messages);
      input := "";
      messages := messages + [UserMessage(userText, now)];
      isLoading := true;
      sent := true;
    }

    /**
     * The second half, when the request settles: `reply` is the answer, or
     * `None` when it failed. The reply goes after whatever the transcript holds
     * by then, and loading ends either way.
     */
    method EndSend(reply: Option<string>, now: nat)
      requires isLoading
      modifies this
      ensures messages == old(messages) + [ReplyMessage(reply, now)]
      ensures !isLoading && input == old(input)
    {
      messages := messages + [ReplyMessage(reply, now)];
      isLoading := false;
    }
  }
}
