/**
 * The string operations the shop's code relies on from JavaScript:
 * `trim`, `toLowerCase` (ASCII only), `split` on one character and `join`,
 * `toString` of integers and `replace` of the first occurrence.
 */
module Text {

  /**
   * The characters `String.prototype.trim` removes: the WhiteSpace
   * (tab, vertical tab, form feed, space, no-break space, byte order mark and
   * the space separators) and LineTerminator (LF, CR, U+2028, U+2029) code points.
   */
  predicate IsWhitespace(c: char)
  {
    var n := c as int;
    n == 0x09 || n == 0x0A || n == 0x0B || n == 0x0C || n == 0x0D || n == 0x20 || n == 0xA0
    || n == 0x1680 || (0x2000 <= n <= 0x200A) || n == 0x2028 || n == 0x2029 || n == 0x202F
    || n == 0x205F || n == 0x3000 || n == 0xFEFF
  }

  predicate AllWhitespace(s: string)
  {
    forall i :: 0 <= i < |s| ==> IsWhitespace(s[i])
  }

  /** Neither starts nor ends with whitespace. */
  predicate IsTrimmed(s: string)
  {
    |s| == 0 || (!IsWhitespace(s[0]) && !IsWhitespace(s[|s| - 1]))
  }

  /** Drops the leading whitespace: what remains is a suffix that does not start with whitespace. */
  function TrimStart(s: string): (r: string)
    ensures |r| <= |s| && r == s[|s| - |r|..]
    ensures AllWhitespace(s[..|s| - |r|])
    ensures |r| > 0 ==> !IsWhitespace(r[0])
    decreases |s|
  {
    if |s| > 0 && IsWhitespace(s[0]) then TrimStart(s[1..]) else s
  }

  /** Drops the trailing whitespace: what remains is a prefix that does not end with whitespace. */
  function TrimEnd(s: string): (r: string)
    ensures |r| <= |s| && r == s[..|r|]
    ensures AllWhitespace(s[|r|..])
    ensures |r| > 0 ==> !IsWhitespace(r[|r| - 1])
    decreases |s|
  {
    if |s| > 0 && IsWhitespace(s[|s| - 1]) then TrimEnd(s[..|s| - 1]) else s
  }

  /**
   * `s.trim()`: drops the whitespace at both ends. It is empty exactly when
   * `s` is all whitespace; TrimInfix places it inside `s`.
   */
  function Trim(s: string): (r: string)
    ensures IsTrimmed(r)
    ensures r == "" <==> AllWhitespace(s)
  {
    TrimEmptyIff(s);
    TrimEnd(TrimStart(s))
  }

  lemma TrimEmptyIff(s: string)
    ensures TrimEnd(TrimStart(s)) == "" <==> AllWhitespace(s)
  {
    var t := TrimStart(s);
    var k := |s| - |t|;
    assert |t| > 0 ==> s[k] == t[0];
    if TrimEnd(t) == "" {
      assert t[0..] == t;
      assert AllWhitespace(t);
      assert |t| == 0;
      assert s[..k] == s;
    }
  }

  /** The trimmed string is the infix of `s` at `k` between two whitespace-only ends. */
  lemma TrimInfix(s: string) returns (k: nat)
    ensures k + |Trim(s)| <= |s| && Trim(s) == s[k..k + |Trim(s)|]
    ensures AllWhitespace(s[..k]) && AllWhitespace(s[k + |Trim(s)|..])
  {
    var t := TrimStart(s);
    var r := TrimEnd(t);
    assert Trim(s) == r;
    k := |s| - |t|;
    assert AllWhitespace(s[..k]);
    assert r == t[..|r|] && AllWhitespace(t[|r|..]);
    assert s[k..k + |r|] == t[..|r|];
    assert s[k + |r|..] == t[|r|..];
  }

  /** Trimming a string that is already trimmed leaves it as it is. */
  lemma {:induction false} TrimTrimmed(s: string)
    requires IsTrimmed(s)
    ensures Trim(s) == s
  {
    assert TrimStart(s) == s;
    assert TrimEnd(s) == s;
  }

  /** One leading space before a trimmed string is removed by trim. */
  lemma {:induction false} TrimLeadingSpace(s: string)
    requires IsTrimmed(s)
    ensures Trim(" " + s) == s
  {
    assert (" " + s)[1..] == s;
    assert TrimStart(" " + s) == TrimStart(s);
    TrimTrimmed(s);
    if |s| > 0 {
      assert TrimStart(s) == s;
    }
  }

  /** ASCII `toLowerCase` of one character. */
  function LowerChar(c: char): char
  {
    if 'A' <= c <= 'Z' then (c as int + 32) as char else c
  }

  /** ASCII `toLowerCase`: the same length, every character lowered. */
  function Lower(s: string): (r: string)
    ensures |r| == |s|
    ensures forall i :: 0 <= i < |s| ==> r[i] == LowerChar(s[i])
  {
    seq(|s|, i requires 0 <= i < |s| => LowerChar(s[i]))
  }

  /** Lowering commutes with slicing. */
  lemma LowerSlice(s: string, a: nat, b: nat)
    requires a <= b <= |s|
    ensures Lower(s[a..b]) == Lower(s)[a..b]
  {
  }

  /** `parts.join(sep)`. */
  function Join(parts: seq<string>, sep: string): string
    decreases |parts|
  {
    if |parts| == 0 then ""
    else if |parts| == 1 then parts[0]
    else parts[0] + sep + Join(parts[1..], sep)
  }

  /**
   * `s.split(c)` for a one-character separator: the pieces between the
   * separators, at least one, none containing the separator.
   */
  function Split(s: string, c: char): (r: seq<string>)
    ensures |r| >= 1
    ensures forall k :: 0 <= k < |r| ==> c !in r[k]
    decreases |s|
  {
    if |s| == 0 then [""]
    else if s[0] == c then [""] + Split(s[1..], c)
    else
      var rest := Split(s[1..], c);
      [[s[0]] + rest[0]] + rest[1..]
  }

  /** Joining the pieces of a split with the separator gives back the string. */
  lemma {:induction false} JoinSplit(s: string, c: char)
    ensures Join(Split(s, c), [c]) == s
    decreases |s|
  {
    if |s| == 0 {
    } else if s[0] == c {
      JoinSplit(s[1..], c);
      assert s == [c] + s[1..];
    } else {
      var rest := Split(s[1..], c);
      JoinSplit(s[1..], c);
      if |rest| == 1 {
        assert s == [s[0]] + s[1..];
      } else {
        assert Join(rest, [c]) == rest[0] + [c] + Join(rest[1..], [c]);
        assert ([[s[0]] + rest[0]] + rest[1..])[1..] == rest[1..];
        assert s == [s[0]] + s[1..];
      }
    }
  }

  /** Splitting the join of separator-free pieces gives back the pieces. */
  lemma {:induction false} SplitJoin(parts: seq<string>, c: char)
    requires |parts| >= 1
    requires forall k :: 0 <= k < |parts| ==> c !in parts[k]
    ensures Split(Join(parts, [c]), c) == parts
    decreases |parts|
  {
    if |parts| == 1 {
      SplitNoSep(parts[0], [], c);
      assert parts[0] + [] == parts[0];
    } else {
      var tail := Join(parts[1..], [c]);
      SplitJoin(parts[1..], c);
      assert Join(parts, [c]) == parts[0] + ([c] + tail);
      SplitNoSep(parts[0], [c] + tail, c);
      assert ([c] + tail)[0] == c;
      assert ([c] + tail)[1..] == tail;
      var after := Split([c] + tail, c);
      assert after == [""] + parts[1..];
      assert parts[0] + after[0] == parts[0];
      assert after[1..] == parts[1..];
      assert [parts[0]] + parts[1..] == parts;
    }
  }

  /** A separator-free prefix is glued onto the first piece of the rest. */
  lemma {:induction false} SplitNoSep(a: string, b: string, c: char)
    requires c !in a
    ensures Split(a + b, c) == [a + Split(b, c)[0]] + Split(b, c)[1..]
    decreases |a|
  {
    if |a| == 0 {
      assert a + b == b;
      var x := Split(b, c);
      assert a + x[0] == x[0];
      assert [x[0]] + x[1..] == x;
    } else {
      assert (a + b)[0] == a[0];
      assert (a + b)[1..] == a[1..] + b;
      SplitNoSep(a[1..], b, c);
      assert [a[0]] + (a[1..] + Split(b, c)[0]) == a + Split(b, c)[0];
    }
  }

  /** The decimal digit character of `d`. */
  function DigitChar(d: nat): (c: char)
    requires d < 10
    ensures '0' <= c <= '9'
  {
    ('0' as int + d) as char
  }

  predicate IsDigit(c: char)
  {
    '0' <= c <= '9'
  }

  /** `n.toString()` for a non-negative integer: decimal digits with no leading zero. */
  function NatToDecimal(n: nat): (r: string)
    ensures |r| >= 1
    ensures forall i :: 0 <= i < |r| ==> IsDigit(r[i])
    ensures r[0] == '0' ==> n == 0 && r == "0"
    decreases n
  {
    if n < 10 then [DigitChar(n)] else NatToDecimal(n / 10) + [DigitChar(n % 10)]
  }

  /** The value of a string of decimal digits. */
  function DecimalValue(s: string): nat
    requires forall i :: 0 <= i < |s| ==> IsDigit(s[i])
    decreases |s|
  {
    if |s| == 0 then 0
    else
      assert IsDigit(s[|s| - 1]);
      DecimalValue(s[..|s| - 1]) * 10 + (s[|s| - 1] as int - '0' as int)
  }

  /** Reading back the digits that `toString` wrote gives the number. */
  lemma {:induction false} DecimalRoundTrip(n: nat)
    ensures DecimalValue(NatToDecimal(n)) == n
    decreases n
  {
    if n >= 10 {
      var r := NatToDecimal(n);
      assert r[..|r| - 1] == NatToDecimal(n / 10);
      DecimalRoundTrip(n / 10);
    }
  }

  /** A number below 10^k has at most k digits. */
  lemma {:induction false} DecimalLength(n: nat, k: nat, bound: nat)
    requires bound == Pow10(k) && n < bound && k >= 1
    ensures |NatToDecimal(n)| <= k
    decreases k
  {
    if n >= 10 {
      assert k >= 2 by {
        assert Pow10(1) == 10;
      }
      DecimalLength(n / 10, k - 1, Pow10(k - 1));
    }
  }

  function Pow10(k: nat): (r: nat)
    ensures r >= 1
  {
    if k == 0 then 1 else 10 * Pow10(k - 1)
  }

  /** `i.toString()` for any integer: a minus sign before the digits of a negative number. */
  function IntToDecimal(i: int): (r: string)
    ensures i >= 0 ==> r == NatToDecimal(i)
    ensures i < 0 ==> r == "-" + NatToDecimal(-i)
  {
    if i < 0 then "-" + NatToDecimal(-i) else NatToDecimal(i)
  }

  /** `pat` occurs in `s` at position `k`. */
  predicate OccursAt(s: string, pat: string, k: nat)
  {
    k + |pat| <= |s| && s[k..k + |pat|] == pat
  }

  /**
   * `s.indexOf(pat, k)`, given that `pat` does not occur before `k`: the first
   * occurrence searched from `k` (hence the first in `s`), or -1 when there is none.
   */
  function IndexOfFrom(s: string, pat: string, k: nat): (r: int)
    requires k <= |s|
    requires forall j :: 0 <= j < k ==> !OccursAt(s, pat, j)
    ensures r == -1 ==> forall j :: 0 <= j <= |s| ==> !OccursAt(s, pat, j)
    ensures r != -1 ==> 0 <= r <= |s| && OccursAt(s, pat, r)
                        && forall j :: 0 <= j < r ==> !OccursAt(s, pat, j)
    decreases |s| - k
  {
    if OccursAt(s, pat, k) then k
    else if k == |s| then -1
    else IndexOfFrom(s, pat, k + 1)
  }

  /**
   * `s.replace(pat, v)` with a string pattern and a replacement free of `$`
   * patterns: the first occurrence of `pat` is replaced, or nothing when none.
   */
  function ReplaceFirst(s: string, pat: string, v: string): (r: string)
    ensures (forall k :: 0 <= k <= |s| ==> !OccursAt(s, pat, k)) ==> r == s
    ensures forall k :: 0 <= k <= |s| && OccursAt(s, pat, k)
              && (forall j :: 0 <= j < k ==> !OccursAt(s, pat, j))
              ==> r == s[..k] + v + s[k + |pat|..]
  {
    var i := IndexOfFrom(s, pat, 0);
    if i == -1 then s else s[..i] + v + s[i + |pat|..]
  }

  /**
   * Filling a template: when the text before the placeholder holds no copy of
   * the placeholder's first character, the first occurrence is the placeholder
   * itself, and it is replaced by `v`.
   */
  lemma ReplacePlaceholder(before: string, ph: string, after: string, v: string)
    requires |ph| >= 1 && ph[0] !in before
    ensures ReplaceFirst(before + ph + after, ph, v) == before + v + after
  {
    var t := before + ph + after;
    var k := |before|;
    assert t[k..k + |ph|] == ph;
    forall j | 0 <= j < k ensures !OccursAt(t, ph, j) {
      assert t[j] == before[j];
      if j + |ph| <= |t| {
        assert t[j..j + |ph|][0] == t[j];
      }
    }
    assert t[..k] == before && t[k + |ph|..] == after;
  }
}
