/**
 * The array operations the shop's code uses from JavaScript (`filter`,
 * `includes`, `indexOf`) over sequences, and the facts about them that the
 * store's invariants rest on.
 */
module Seqs {

  /** `r` is `s` with some elements left out, the others in their order. */
  predicate IsSubsequence<T(==)>(r: seq<T>, s: seq<T>)
    decreases |s|
  {
    r == [] || (s != [] && ((r[0] == s[0] && IsSubsequence(r[1..], s[1..])) || IsSubsequence(r, s[1..])))
  }

  /** No element occurs twice. */
  predicate NoDups<T(==)>(s: seq<T>)
  {
    forall i, j :: 0 <= i < j < |s| ==> s[i] != s[j]
  }

  /**
   * `s.filter(keep)`: every kept element of `s` exactly as often as in `s`,
   * nothing else, in the original order.
   */
  function Filter<T(==,!new)>(s: seq<T>, keep: T -> bool): (r: seq<T>)
    ensures |r| <= |s|
    ensures forall x :: x in r ==> keep(x) && x in s
    ensures forall x :: x in s && keep(x) ==> x in r
    ensures forall x :: multiset(r)[x] == if keep(x) then multiset(s)[x] else 0
    ensures IsSubsequence(r, s)
    decreases |s|
  {
    if s == [] then []
    else
      var rest := Filter(s[1..], keep);
      assert s == [s[0]] + s[1..];
      assert multiset(s) == multiset{s[0]} + multiset(s[1..]);
      if keep(s[0]) then
        assert ([s[0]] + rest)[1..] == rest;
        [s[0]] + rest
      else
        rest
  }

  /** One step of `filter`. */
  lemma FilterCons<T(!new)>(s: seq<T>, keep: T -> bool)
    requires s != []
    ensures Filter(s, keep) == (if keep(s[0]) then [s[0]] else []) + Filter(s[1..], keep)
  {
  }

  /** Filtering distributes over concatenation. */
  lemma {:induction false} FilterAppend<T(!new)>(s: seq<T>, t: seq<T>, keep: T -> bool)
    ensures Filter(s + t, keep) == Filter(s, keep) + Filter(t, keep)
    decreases |s|
  {
    if s == [] {
      assert s + t == t;
    } else {
      assert (s + t)[0] == s[0];
      assert (s + t)[1..] == s[1..] + t;
      FilterAppend(s[1..], t, keep);
    }
  }

  /** Filtering keeps everything when every element is kept. */
  lemma {:induction false} FilterKeepsAll<T(!new)>(s: seq<T>, keep: T -> bool)
    requires forall i :: 0 <= i < |s| ==> keep(s[i])
    ensures Filter(s, keep) == s
    decreases |s|
  {
    if s != [] {
      FilterKeepsAll(s[1..], keep);
      assert s == [s[0]] + s[1..];
    }
  }

  /** Filtering out exactly one element, between two runs that are kept, leaves the two runs. */
  lemma FilterDropsOne<T(!new)>(a: seq<T>, x: T, b: seq<T>, keep: T -> bool)
    requires !keep(x)
    requires forall i :: 0 <= i < |a| ==> keep(a[i])
    requires forall i :: 0 <= i < |b| ==> keep(b[i])
    ensures Filter(a + [x] + b, keep) == a + b
  {
    FilterAppend(a + [x], b, keep);
    FilterAppend(a, [x], keep);
    FilterKeepsAll(a, keep);
    FilterKeepsAll(b, keep);
    FilterCons([x], keep);
    assert [x][1..] == [];
    assert Filter([x], keep) == [];
    assert Filter(a + [x], keep) == a;
  }

  lemma NoDupsCons<T>(x: T, t: seq<T>)
    ensures NoDups([x] + t) <==> x !in t && NoDups(t)
  {
    var s := [x] + t;
    assert forall i :: 0 <= i < |t| ==> s[i + 1] == t[i];
    if x !in t && NoDups(t) {
      forall i, j | 0 <= i < j < |s| ensures s[i] != s[j] {
        if i > 0 {
          assert s[i] == t[i - 1] && s[j] == t[j - 1];
        } else {
          assert s[j] == t[j - 1];
        }
      }
    }
    if NoDups(s) {
      forall k | 0 <= k < |t| ensures t[k] != x {
        assert s[0] == x && s[k + 1] == t[k];
      }
    }
  }

  /** Filtering never introduces a duplicate. */
  lemma {:induction false} FilterNoDups<T(!new)>(s: seq<T>, keep: T -> bool)
    requires NoDups(s)
    ensures NoDups(Filter(s, keep))
    decreases |s|
  {
    if s != [] {
      assert s == [s[0]] + s[1..];
      NoDupsCons(s[0], s[1..]);
      FilterNoDups(s[1..], keep);
      if keep(s[0]) {
        NoDupsCons(s[0], Filter(s[1..], keep));
      }
    }
  }

  /** Appending an element that is absent keeps the sequence free of duplicates. */
  lemma NoDupsAppend<T>(s: seq<T>, x: T)
    requires NoDups(s) && x !in s
    ensures NoDups(s + [x])
  {
    var r := s + [x];
    forall i, j | 0 <= i < j < |r| ensures r[i] != r[j] {
      if j == |s| {
        assert r[i] == s[i];
      } else {
        assert r[i] == s[i] && r[j] == s[j];
      }
    }
  }

  /** `s.indexOf(x)`: the first position of `x`, or -1 when it is absent. */
  function IndexOf<T(==)>(s: seq<T>, x: T): (r: int)
    ensures -1 <= r < |s|
    ensures r == -1 <==> x !in s
    ensures r >= 0 ==> s[r] == x && x !in s[..r]
    decreases |s|
  {
    if s == [] then -1
    else if s[0] == x then 0
    else
      var k := IndexOf(s[1..], x);
      if k == -1 then -1
      else
        assert s[..k + 1] == [s[0]] + s[1..][..k];
        k + 1
  }

  /** A duplicate-free sequence has as many elements as its set. */
  lemma {:induction false} NoDupsCard<T>(s: seq<T>)
    requires NoDups(s)
    ensures |set x | x in s| == |s|
    decreases |s|
  {
    if s != [] {
      assert s == [s[0]] + s[1..];
      NoDupsCons(s[0], s[1..]);
      NoDupsCard(s[1..]);
      assert (set x | x in s) == {s[0]} + (set x | x in s[1..]);
    }
  }

  /** A duplicate-free sequence whose elements all lie in `t` is no longer than `t`. */
  lemma NoDupsWithin<T>(s: seq<T>, t: seq<T>)
    requires NoDups(s)
    requires forall x :: x in s ==> x in t
    ensures |s| <= |t|
  {
    NoDupsCard(s);
    SetOfSeqCard(t);
    assert (set x | x in s) <= (set x | x in t);
    SubsetCard(set x | x in s, set x | x in t);
  }

  lemma {:induction false} SetOfSeqCard<T>(t: seq<T>)
    ensures |set x | x in t| <= |t|
    decreases |t|
  {
    if t != [] {
      SetOfSeqCard(t[1..]);
      assert (set x | x in t) == {t[0]} + (set x | x in t[1..]);
    }
  }

  lemma SubsetCard<T>(a: set<T>, b: set<T>)
    requires a <= b
    ensures |a| <= |b|
  {
    assert b == a + (b - a);
  }
}
