/**
 * The few Python built-in behaviours the core relies on, stated exactly:
 * `int(x)` on a float (truncation toward zero), `str(n)` on an int,
 * `str.strip()`, `str.startswith`, `line.split(':')[1]`, `str.replace`
 * and `''.join`.
 */
module Builtins {
  import opened Wrappers

  // ---------------------------------------------------------------------
  // int(x) for a float x: truncation toward zero (not floor)
  // ---------------------------------------------------------------------

  /** Python's `int(x)`: drops the fractional part, rounding toward zero. */
  function Trunc(x: real): (r: int)
    ensures x >= 0.0 ==> 0 <= r && r as real <= x < r as real + 1.0
    ensures x < 0.0 ==> r <= 0 && r as real - 1.0 < x <= r as real
  {
    if x >= 0.0 then x.Floor else -((-x).Floor)
  }

  /** Truncation and floor part ways exactly on negative non-integers. */
  lemma TruncIsNotFloor(x: real)
    requires x < 0.0 && x != x.Floor as real
    ensures Trunc(x) == x.Floor + 1
  {
  }

  // ---------------------------------------------------------------------
  // str(n) for an int n
  // ---------------------------------------------------------------------

  predicate IsDigit(c: char) {
    '0' as int <= c as int <= '9' as int
  }

  function DigitChar(d: nat): (c: char)
    requires d < 10
    ensures IsDigit(c) && (c as int) - ('0' as int) == d
  {
    "0123456789"[d]
  }

  /** Decimal digits of `n`, most significant first, with no leading zero. */
  function NatToString(n: nat): (s: string)
    ensures 1 <= |s|
    ensures forall k :: 0 <= k < |s| ==> IsDigit(s[k])
    ensures |s| > 1 ==> s[0] != '0'
  {
    if n < 10 then [DigitChar(n)] else NatToString(n / 10) + [DigitChar(n % 10)]
  }

  /** Reads a string of decimal digits back as a number (the inverse of NatToString). */
  function DigitsValue(s: string): nat
    requires forall k :: 0 <= k < |s| ==> IsDigit(s[k])
  {
    if s == [] then 0
    else
      assert IsDigit(s[|s| - 1]);
      10 * DigitsValue(s[..|s| - 1]) + ((s[|s| - 1] as int) - ('0' as int))
  }

  lemma {:induction false} NatToStringRoundTrip(n: nat)
    ensures DigitsValue(NatToString(n)) == n
  {
    if n >= 10 {
      var s := NatToString(n);
      assert s[..|s| - 1] == NatToString(n / 10);
      NatToStringRoundTrip(n / 10);
    }
  }

  lemma NatToStringInjective(m: nat, n: nat)
    requires NatToString(m) == NatToString(n)
    ensures m == n
  {
    NatToStringRoundTrip(m);
    NatToStringRoundTrip(n);
  }

  /** The number of digits of `n`, by magnitude. */
  lemma {:induction false} NatToStringLength(n: nat)
    ensures n < 10 <==> |NatToString(n)| == 1
    ensures 10 <= n < 100 <==> |NatToString(n)| == 2
    ensures 100 <= n < 1000 <==> |NatToString(n)| == 3
  {
    if n >= 10 {
      NatToStringLength(n / 10);
    }
  }

  /** Python's `str(i)`: a leading '-' for negatives, then the digits. */
  function IntToString(i: int): (s: string)
    ensures 1 <= |s|
    ensures forall k :: 0 < k < |s| ==> IsDigit(s[k])
    ensures (s[0] == '-') <==> i < 0
    ensures i >= 0 ==> s == NatToString(i)
    ensures i < 0 ==> s == "-" + NatToString(-i)
  {
    if i < 0 then "-" + NatToString(-i) else NatToString(i)
  }

  lemma IntToStringInjective(i: int, j: int)
    requires IntToString(i) == IntToString(j)
    ensures i == j
  {
    var s := IntToString(i);
    assert (i < 0) == (j < 0) by {
      assert s[0] == '-' <==> i < 0;
      assert s[0] == '-' <==> j < 0;
    }
    if i < 0 {
      var a: nat, b: nat := -i, -j;
      var da, db := NatToString(a), NatToString(b);
      assert s == "-" + da && s == "-" + db;
      assert da == s[1..] == db;
      NatToStringInjective(a, b);
    } else {
      NatToStringInjective(i, j);
    }
  }

  // ---------------------------------------------------------------------
  // str.strip()
  // ---------------------------------------------------------------------

  /** The characters Python's `str.strip()` removes (`str.isspace`). */
  predicate IsSpace(c: char) {
    var n := c as int;
    (9 <= n <= 13) || (0x1c <= n <= 0x20) || n == 0x85 || n == 0xa0 || n == 0x1680
    || (0x2000 <= n <= 0x200a) || n == 0x2028 || n == 0x2029 || n == 0x202f
    || n == 0x205f || n == 0x3000
  }

  function StripLeft(s: string): (r: string)
    ensures |r| <= |s| && r == s[|s| - |r|..]
    ensures forall k :: 0 <= k < |s| - |r| ==> IsSpace(s[k])
    ensures r == [] || !IsSpace(r[0])
  {
    if |s| > 0 && IsSpace(s[0]) then StripLeft(s[1..]) else s
  }

  function StripRight(s: string): (r: string)
    ensures |r| <= |s| && r == s[..|r|]
    ensures forall k :: |r| <= k < |s| ==> IsSpace(s[k])
    ensures r == [] || !IsSpace(r[|r| - 1])
  {
    if |s| > 0 && IsSpace(s[|s| - 1]) then StripRight(s[..|s| - 1]) else s
  }

  /** Python's `s.strip()`: the longest middle slice with no surrounding whitespace. */
  function Strip(s: string): (r: string)
    ensures |r| <= |s|
    ensures r == [] || (!IsSpace(r[0]) && !IsSpace(r[|r| - 1]))
    ensures forall c :: c in r ==> c in s
  {
    var l := StripLeft(s);
    var r := StripRight(l);
    StripSlice(s, l, r);
    r
  }

  /**
   * `strip()` keeps one contiguous slice of the text, starting where the
   * leading whitespace ends, and everything around that slice is whitespace.
   */
  lemma StripIsSlice(s: string)
    ensures var i, r := |s| - |StripLeft(s)|, Strip(s);
      0 <= i && i + |r| <= |s| && (forall k :: 0 <= k < |r| ==> r[k] == s[i + k])
      && (forall k :: 0 <= k < i ==> IsSpace(s[k]))
      && (forall k :: i + |r| <= k < |s| ==> IsSpace(s[k]))
  {
    var l := StripLeft(s);
    var r := Strip(s);
    assert r == StripRight(l);
    StripSlice(s, l, r);
  }

  /** Stripping leaves nothing exactly when the text is all whitespace. */
  lemma StripEmpty(s: string)
    ensures Strip(s) == [] <==> forall x :: x in s ==> IsSpace(x)
  {
    var i, r := |s| - |StripLeft(s)|, Strip(s);
    StripIsSlice(s);
    if r == [] {
      forall x | x in s ensures IsSpace(x) {
        var k :| 0 <= k < |s| && s[k] == x;
        assert k < i || i + |r| <= k;
      }
    } else {
      assert r[0] == s[i] && r[0] in s;
    }
  }

  /**
   * A suffix `l` of `s` after leading whitespace, cut down to a prefix `r`
   * before trailing whitespace, is one slice of `s` with only whitespace
   * around it.
   */
  lemma StripSlice(s: string, l: string, r: string)
    requires |l| <= |s| && l == s[|s| - |l|..]
    requires forall k :: 0 <= k < |s| - |l| ==> IsSpace(s[k])
    requires l == [] || !IsSpace(l[0])
    requires |r| <= |l| && r == l[..|r|]
    requires forall k :: |r| <= k < |l| ==> IsSpace(l[k])
    requires r == [] || !IsSpace(r[|r| - 1])
    ensures |r| <= |s|
    ensures var i := |s| - |l|;
      0 <= i && i + |r| <= |s| && (forall k :: 0 <= k < |r| ==> r[k] == s[i + k])
      && (forall k :: 0 <= k < i ==> IsSpace(s[k]))
      && (forall k :: i + |r| <= k < |s| ==> IsSpace(s[k]))
    ensures r == [] || (!IsSpace(r[0]) && !IsSpace(r[|r| - 1]))
    ensures forall c :: c in r ==> c in s
  {
    var i := |s| - |l|;
    forall k | 0 <= k < |r|
      ensures r[k] == s[i + k]
    {
      assert r[k] == l[k];
    }
    forall k | i + |r| <= k < |s|
      ensures IsSpace(s[k])
    {
      assert s[k] == l[k - i];
    }
    if r != [] {
      assert r[0] == l[0];
    }
    forall c | c in r
      ensures c in s
    {
      var k :| 0 <= k < |r| && r[k] == c;
      assert s[i + k] == c;
    }
  }

  // ---------------------------------------------------------------------
  // str.startswith and line.split(':')[1]
  // ---------------------------------------------------------------------

  predicate StartsWith(s: string, prefix: string) {
    |prefix| <= |s| && s[..|prefix|] == prefix
  }

  /** Index of the first occurrence of `c` in `s`, if any. */
  function IndexOf(s: string, c: char): (r: Option<nat>)
    ensures r.None? <==> c !in s
    ensures r.Some? ==> r.value < |s| && s[r.value] == c && c !in s[..r.value]
  {
    if s == [] then None
    else if s[0] == c then Some(0)
    else match IndexOf(s[1..], c)
      case None => None
      case Some(i) => assert s[1..][..i] == s[1..i + 1]; Some(i + 1)
  }

  /**
   * Python's `line.split(':')[1]`: the text between the first ':' and the
   * next one (or the end of the line). `None` stands for the IndexError
   * raised when the line has no ':' at all.
   */
  function ColonField(line: string): (r: Option<string>)
    ensures r.None? <==> ':' !in line
    ensures r.Some? ==> ':' !in r.value
    ensures r.Some? ==> exists i :: 0 <= i < |line| && line[i] == ':' && ':' !in line[..i]
                                 && i + 1 + |r.value| <= |line|
                                 && line[i + 1..i + 1 + |r.value|] == r.value
                                 && (i + 1 + |r.value| == |line| || line[i + 1 + |r.value|] == ':')
  {
    match IndexOf(line, ':')
    case None => None
    case Some(i) =>
      var rest := line[i + 1..];
      match IndexOf(rest, ':')
      case None =>
        assert line[i + 1..i + 1 + |rest|] == rest;
        Some(rest)
      case Some(j) =>
        assert rest[..j] == line[i + 1..i + 1 + j] && line[i + 1 + j] == rest[j];
        Some(rest[..j])
  }

  // ---------------------------------------------------------------------
  // str.replace and ''.join
  // ---------------------------------------------------------------------

  /** Python's `s.replace(c, '')` for a one-character `c`. */
  function RemoveChar(s: string, c: char): (r: string)
    ensures c !in r
    ensures multiset(r) == multiset(s)[c := 0]
  {
    if s == [] then []
    else
      assert s == [s[0]] + s[1..];
      if s[0] == c then RemoveChar(s[1..], c)
    else [s[0]] + RemoveChar(s[1..], c)
  }

  /**
   * Removal works piece by piece: the kept characters of a concatenation
   * are those of each part, in order. With the multiset in RemoveChar's
   * contract this fixes the result for every input.
   */
  lemma {:induction false} RemoveCharAppend(a: string, b: string, c: char)
    ensures RemoveChar(a + b, c) == RemoveChar(a, c) + RemoveChar(b, c)
    decreases |a|
  {
    if a != [] {
      assert (a + b)[1..] == a[1..] + b;
      RemoveCharAppend(a[1..], b, c);
    } else {
      assert a + b == b;
    }
  }

  /** The characters left after removing `c` are exactly the others. */
  lemma RemoveCharMembers(s: string, c: char, x: char)
    ensures x in RemoveChar(s, c) <==> x in s && x != c
  {
    var r := RemoveChar(s, c);
    assert x in r <==> multiset(r)[x] > 0;
    assert x in s <==> multiset(s)[x] > 0;
  }

  /** A text without `c` is left as it is. */
  lemma {:induction false} RemoveCharAbsent(s: string, c: char)
    requires c !in s
    ensures RemoveChar(s, c) == s
    decreases |s|
  {
    if s != [] {
      assert s == [s[0]] + s[1..];
      RemoveCharAbsent(s[1..], c);
    }
  }

  /**
   * Python's `s.replace(pat, rep)` for a non-empty `pat`: one left-to-right
   * pass replacing non-overlapping occurrences; the replacement text is not
   * scanned again.
   */
  function ReplaceAll(s: string, pat: string, rep: string): (r: string)
    requires pat != []
    ensures forall x :: x in r ==> x in s || x in rep
    decreases |s|
  {
    if s == [] then []
    else if StartsWith(s, pat) then rep + ReplaceAll(s[|pat|..], pat, rep)
    else [s[0]] + ReplaceAll(s[1..], pat, rep)
  }

  /** `pat` occurs in `s` starting at index i. */
  predicate OccursAt(s: string, pat: string, i: int) {
    0 <= i <= |s| && StartsWith(s[i..], pat)
  }

  /** With no occurrence of the pattern the text is unchanged. */
  lemma {:induction false} ReplaceAllNoMatch(s: string, pat: string, rep: string)
    requires pat != [] && forall i :: !OccursAt(s, pat, i)
    ensures ReplaceAll(s, pat, rep) == s
    decreases |s|
  {
    if s != [] {
      assert !OccursAt(s, pat, 0) && s[0..] == s;
      forall i ensures !OccursAt(s[1..], pat, i) {
        if 0 <= i <= |s[1..]| {
          assert s[1..][i..] == s[i + 1..];
          assert !OccursAt(s, pat, i + 1);
        }
      }
      ReplaceAllNoMatch(s[1..], pat, rep);
    }
  }

  /** An occurrence at the front is replaced, and scanning resumes after it. */
  lemma ReplaceAllAtMatch(pat: string, rep: string, t: string)
    requires pat != []
    ensures ReplaceAll(pat + t, pat, rep) == rep + ReplaceAll(t, pat, rep)
  {
    assert (pat + t)[..|pat|] == pat && (pat + t)[|pat|..] == t;
  }

  /** A character that does not start an occurrence is copied, and scanning moves on by one. */
  lemma ReplaceAllSkip(x: char, t: string, pat: string, rep: string)
    requires pat != [] && !StartsWith([x] + t, pat)
    ensures ReplaceAll([x] + t, pat, rep) == [x] + ReplaceAll(t, pat, rep)
  {
    assert ([x] + t)[1..] == t;
  }

  /** With a non-empty replacement, only the empty text is replaced by the empty text. */
  lemma ReplaceAllEmpty(s: string, pat: string, rep: string)
    requires pat != [] && rep != []
    ensures ReplaceAll(s, pat, rep) == [] <==> s == []
  {
  }

  /** The occurrences do not overlap and are replaced left to right: ", , ," becomes ", ,". */
  lemma ReplaceAllLeftToRight()
    ensures ReplaceAll("1, ,2", ", ,", ",") == "1,2"
    ensures ReplaceAll(", , ,", ", ,", ",") == ", ,"
  {
    assert "1, ,2" == ['1'] + ", ,2" && ", ,2" == ", ," + "2";
    assert ", , ," == ", ," + " ,";
    assert (['1'] + ", ,2")[..3][0] == '1';
    ReplaceAllSkip('1', ", ,2", ", ,", ",");
    ReplaceAllAtMatch(", ,", ",", "2");
    ReplaceAllNoMatch("2", ", ,", ",");
    ReplaceAllAtMatch(", ,", ",", " ,");
    ReplaceAllNoMatch(" ,", ", ,", ",");
  }

  /** Python's `''.join(parts)`. */
  function Join(parts: seq<string>): string {
    if parts == [] then [] else Join(parts[..|parts| - 1]) + parts[|parts| - 1]
  }

  lemma {:induction false} JoinAppend(a: seq<string>, b: seq<string>)
    ensures Join(a + b) == Join(a) + Join(b)
    decreases |b|
  {
    if b != [] {
      assert (a + b)[..|a + b| - 1] == a + b[..|b| - 1];
      JoinAppend(a, b[..|b| - 1]);
    } else {
      assert a + b == a;
    }
  }
}
