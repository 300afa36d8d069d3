/**
 * The Kotlin string operations the view-models and the report generator rely
 * on: decimal rendering of a `Long` (string templates), `trim()`,
 * `contains(…, ignoreCase = true)`, `List.distinct()` and `replace`.
 */
module Strings {

  // ---------------------------------------------------------------------------
  // Decimal rendering of integers (the `$n` of a Kotlin string template)
  // ---------------------------------------------------------------------------

  predicate IsDigit(c: char) { '0' <= c <= '9' }

  predicate IsDigits(s: string) { forall i :: 0 <= i < |s| ==> IsDigit(s[i]) }

  function DigitChar(d: nat): (c: char)
    requires d < 10
    ensures IsDigit(c) && DigitValue(c) == d
  {
    "0123456789"[d]
  }

  function DigitValue(c: char): (d: nat)
    requires IsDigit(c)
    ensures d < 10
  {
    (c as int - '0' as int) as nat
  }

  /** The decimal digits of `n`, most significant first, without leading zeros. */
  function NatToString(n: nat): (s: string)
    ensures |s| > 0 && IsDigits(s)
    ensures |s| > 1 ==> s[0] != '0'
    decreases n
  {
    if n < 10 then [DigitChar(n)] else NatToString(n / 10) + [DigitChar(n % 10)]
  }

  /** `n.toString()` for a Kotlin `Long`: a leading '-' for negatives, then the digits of |n|. */
  function IntToString(n: int): (s: string)
    ensures IsNumeral(s)
    ensures n < 0 <==> s[0] == '-'
    ensures n < 0 ==> s[1..] == NatToString(-n)
    ensures n >= 0 ==> s == NatToString(n)
  {
    if n < 0 then "-" + NatToString(-n) else NatToString(n)
  }

  /** Reads a string of decimal digits back as a number. */
  function ParseNat(s: string): nat
    requires IsDigits(s)
  {
    if s == [] then 0 else ParseNat(s[..|s| - 1]) * 10 + DigitValue(s[|s| - 1])
  }

  /** A decimal numeral: digits, optionally after one '-'. */
  predicate IsNumeral(s: string)
  {
    |s| > 0 && (if s[0] == '-' then IsDigits(s[1..]) else IsDigits(s))
  }

  /** A numeral's characters are digits and, first, possibly '-'. */
  lemma NumeralCharacters(s: string)
    requires IsNumeral(s)
    ensures forall k :: 0 <= k < |s| ==> IsDigit(s[k]) || (k == 0 && s[k] == '-')
  {
    if s[0] == '-' {
      forall k | 0 < k < |s| ensures IsDigit(s[k]) {
        assert s[k] == s[1..][k - 1];
      }
    }
  }

  /** Reads a decimal numeral back as a number. */
  function ParseInt(s: string): int
    requires IsNumeral(s)
  {
    if s[0] == '-' then -(ParseNat(s[1..]) as int) else ParseNat(s)
  }

  lemma {:induction false} ParseNatToString(n: nat)
    ensures ParseNat(NatToString(n)) == n
    decreases n
  {
    if n >= 10 {
      var s := NatToString(n);
      assert s[..|s| - 1] == NatToString(n / 10);
      ParseNatToString(n / 10);
    }
  }

  /** Parsing undoes rendering: the decimal rendering loses no information. */
  lemma ParseIntToString(n: int)
    ensures ParseInt(IntToString(n)) == n
  {
    if n < 0 {
      ParseNatToString(-n);
    } else {
      ParseNatToString(n);
    }
  }

  /** Distinct numbers have distinct renderings. */
  lemma IntToStringInjective(a: int, b: int)
    ensures IntToString(a) == IntToString(b) <==> a == b
  {
    if IntToString(a) == IntToString(b) {
      ParseIntToString(a);
      ParseIntToString(b);
    }
  }

  // ---------------------------------------------------------------------------
  // Kotlin `String.trim()`
  // ---------------------------------------------------------------------------

  /**
   * Kotlin's `Char.isWhitespace()` on the JVM: `Character.isWhitespace` or
   * `Character.isSpaceChar` (ASCII controls 9-13 and 28-31, the space
   * separators including no-break spaces, and the line/paragraph separators).
   */
  predicate IsWhitespace(c: char)
  {
    || '\t' <= c <= '\r'
    || '\U{1C}' <= c <= ' '
    || c == '\U{A0}' || c == '\U{1680}'
    || '\U{2000}' <= c <= '\U{200A}'
    || c == '\U{2028}' || c == '\U{2029}' || c == '\U{202F}' || c == '\U{205F}' || c == '\U{3000}'
  }

  predicate AllWhitespace(s: string) { forall i :: 0 <= i < |s| ==> IsWhitespace(s[i]) }

  /** How many whitespace characters `s` starts with. */
  function LeadingWhitespace(s: string): (n: nat)
    ensures n <= |s|
    decreases |s|
  {
    if s != [] && IsWhitespace(s[0]) then 1 + LeadingWhitespace(s[1..]) else 0
  }

  /** How many whitespace characters `s` ends with. */
  function TrailingWhitespace(s: string): (n: nat)
    ensures n <= |s|
    decreases |s|
  {
    if s != [] && IsWhitespace(s[|s| - 1]) then 1 + TrailingWhitespace(s[..|s| - 1]) else 0
  }

  /** The count stops at the first character that is not whitespace. */
  lemma {:induction false} LeadingWhitespaceSpec(s: string)
    ensures AllWhitespace(s[..LeadingWhitespace(s)])
    ensures LeadingWhitespace(s) < |s| ==> !IsWhitespace(s[LeadingWhitespace(s)])
    decreases |s|
  {
    if s != [] && IsWhitespace(s[0]) {
      LeadingWhitespaceSpec(s[1..]);
      var n := LeadingWhitespace(s[1..]);
      assert s[..n + 1] == [s[0]] + s[1..][..n];
    }
  }

  /** The count stops at the last character that is not whitespace. */
  lemma {:induction false} TrailingWhitespaceSpec(s: string)
    ensures AllWhitespace(s[|s| - TrailingWhitespace(s)..])
    ensures TrailingWhitespace(s) < |s| ==> !IsWhitespace(s[|s| - TrailingWhitespace(s) - 1])
    decreases |s|
  {
    if s != [] && IsWhitespace(s[|s| - 1]) {
      var init := s[..|s| - 1];
      TrailingWhitespaceSpec(init);
      var n := TrailingWhitespace(init);
      assert s[|s| - (n + 1)..] == init[|init| - n..] + [s[|s| - 1]];
    }
  }

  /** The count covers the whole string exactly when it is blank. */
  lemma {:induction false} LeadingWhitespaceAll(s: string)
    ensures LeadingWhitespace(s) == |s| <==> AllWhitespace(s)
    decreases |s|
  {
    if s != [] {
      LeadingWhitespaceAll(s[1..]);
      if AllWhitespace(s[1..]) && IsWhitespace(s[0]) {
        forall k | 0 <= k < |s| ensures IsWhitespace(s[k]) {
          if k > 0 { assert s[k] == s[1..][k - 1]; }
        }
      }
      if AllWhitespace(s) {
        forall k | 0 <= k < |s| - 1 ensures IsWhitespace(s[1..][k]) {
          assert s[1..][k] == s[k + 1];
        }
      }
    }
  }

  /** The count covers the whole string exactly when it is blank. */
  lemma TrailingWhitespaceAll(s: string)
    ensures TrailingWhitespace(s) == |s| <==> AllWhitespace(s)
  {
    TrailingWhitespaceSpec(s);
    if TrailingWhitespace(s) == |s| {
      assert s[|s| - TrailingWhitespace(s)..] == s;
    }
  }

  /** Kotlin `trimStart()`: `s` after its leading whitespace. */
  function TrimStart(s: string): string
  {
    s[LeadingWhitespace(s)..]
  }

  /** Kotlin `trimEnd()`: `s` before its trailing whitespace. */
  function TrimEnd(s: string): string
  {
    s[..|s| - TrailingWhitespace(s)]
  }

  /** Kotlin `trim()`: `s` without its leading and trailing whitespace. */
  function Trim(s: string): string
  {
    TrimEnd(TrimStart(s))
  }

  /**
   * What `trim()` promises: its result is the slice of `s` that starts after
   * the leading whitespace, only whitespace stands outside it, and it neither
   * starts nor ends with whitespace.
   */
  lemma TrimIsSlice(s: string)
    ensures LeadingWhitespace(s) + |Trim(s)| <= |s|
    ensures Trim(s) == s[LeadingWhitespace(s)..LeadingWhitespace(s) + |Trim(s)|]
    ensures AllWhitespace(s[..LeadingWhitespace(s)])
    ensures AllWhitespace(s[LeadingWhitespace(s) + |Trim(s)|..])
    ensures Trim(s) != [] ==> !IsWhitespace(Trim(s)[0]) && !IsWhitespace(Trim(s)[|Trim(s)| - 1])
  {
    var t := TrimStart(s);
    LeadingWhitespaceSpec(s);
    TrailingWhitespaceSpec(t);
    TrimmedSlice(s, LeadingWhitespace(s), t, |t| - TrailingWhitespace(t), Trim(s));
  }

  /**
   * The first `n` characters `r` of the suffix `t` of `s` after position `i`:
   * where they sit in `s`, and that what follows them in `s` is what follows
   * them in `t`.
   */
  lemma TrimmedSlice(s: string, i: nat, t: string, n: nat, r: string)
    requires i <= |s| && t == s[i..] && n <= |t| && r == t[..n]
    requires AllWhitespace(t[n..])
    requires t != [] ==> !IsWhitespace(t[0])
    requires n > 0 ==> !IsWhitespace(t[n - 1])
    ensures i + |r| <= |s| && r == s[i..i + |r|]
    ensures AllWhitespace(s[i + |r|..])
    ensures r != [] ==> !IsWhitespace(r[0]) && !IsWhitespace(r[|r| - 1])
  {
    PrefixOfSuffix(s, i, n);
    assert s[i + n..] == t[n..];
    if r != [] {
      assert r[0] == t[0] && r[n - 1] == t[n - 1];
    }
  }

  /** A prefix of a suffix is a slice; the characters after it are the suffix's tail. */
  lemma PrefixOfSuffix(s: string, i: nat, n: nat)
    requires i + n <= |s|
    ensures s[i..][..n] == s[i..i + n]
    ensures s[i..][n..] == s[i + n..]
    ensures n > 0 ==> s[i..][..n][0] == s[i] && s[i..][..n][n - 1] == s[i..][n - 1]
  {
  }

  /** `trim()` yields the empty string exactly for blank input. */
  lemma TrimBlank(s: string)
    ensures Trim(s) == [] <==> AllWhitespace(s)
  {
    var i := LeadingWhitespace(s);
    var t := TrimStart(s);
    LeadingWhitespaceSpec(s);
    LeadingWhitespaceAll(s);
    TrailingWhitespaceAll(t);
    if i < |s| {
      assert t[0] == s[i];
    }
  }

  /** Trimming twice is trimming once. */
  lemma TrimIdempotent(s: string)
    ensures Trim(Trim(s)) == Trim(s)
  {
    var r := Trim(s);
    TrimIsSlice(s);
    if r != [] {
      assert LeadingWhitespace(r) == 0;
      assert TrimStart(r) == r;
      assert TrailingWhitespace(r) == 0;
      assert TrimEnd(r) == r;
    }
  }

  // ---------------------------------------------------------------------------
  // Kotlin `String.contains(other, ignoreCase = true)`
  // ---------------------------------------------------------------------------

  /** Upper-case of an ASCII letter; every other character maps to itself. */
  function UpperAscii(c: char): char
  {
    if 'a' <= c <= 'z' then (c as int - 32) as char else c
  }

  /** `Char.equals(other, ignoreCase = true)` restricted to ASCII case mapping. */
  predicate CharEqualsIgnoreCase(a: char, b: char)
  {
    a == b || UpperAscii(a) == UpperAscii(b)
  }

  predicate EqualsIgnoreCase(a: string, b: string)
  {
    |a| == |b| && forall i :: 0 <= i < |a| ==> CharEqualsIgnoreCase(a[i], b[i])
  }

  /** `p` occurs in `s` at position `i`, ignoring case. */
  predicate MatchesAt(s: string, p: string, i: nat)
  {
    i + |p| <= |s| && EqualsIgnoreCase(s[i..i + |p|], p)
  }

  /** `s.contains(p, ignoreCase = true)`: tries every start position from the left. */
  function ContainsIgnoreCase(s: string, p: string): bool
    decreases |s|
  {
    if |s| < |p| then false
    else EqualsIgnoreCase(s[..|p|], p) || ContainsIgnoreCase(s[1..], p)
  }

  /** The scan finds `p` exactly when `p` matches `s` at some position, ignoring case. */
  lemma {:induction false} ContainsIgnoreCaseSpec(s: string, p: string)
    ensures ContainsIgnoreCase(s, p) <==> exists i: nat :: MatchesAt(s, p, i)
    decreases |s|
  {
    if |s| < |p| {
      assert forall i: nat :: !MatchesAt(s, p, i);
    } else if EqualsIgnoreCase(s[..|p|], p) {
      assert s[0..0 + |p|] == s[..|p|];
      assert MatchesAt(s, p, 0);
    } else {
      ContainsIgnoreCaseSpec(s[1..], p);
      if ContainsIgnoreCase(s[1..], p) {
        var j: nat :| MatchesAt(s[1..], p, j);
        assert s[1..][j..j + |p|] == s[j + 1..j + 1 + |p|];
        assert MatchesAt(s, p, j + 1);
      }
      if exists i: nat :: MatchesAt(s, p, i) {
        var i: nat :| MatchesAt(s, p, i);
        assert i != 0 by { assert s[..|p|] == s[0..0 + |p|]; }
        assert s[1..][i - 1..i - 1 + |p|] == s[i..i + |p|];
        assert MatchesAt(s[1..], p, i - 1);
      }
    }
  }

  // ---------------------------------------------------------------------------
  // Kotlin `List.distinct()`
  // ---------------------------------------------------------------------------

  predicate NoDuplicates<T(==)>(s: seq<T>)
  {
    forall i, j :: 0 <= i < j < |s| ==> s[i] != s[j]
  }

  /** `distinct()`: keeps the first occurrence of every element, in order. */
  function Distinct<T(==)>(s: seq<T>): seq<T>
  {
    if s == [] then []
    else
      var init := s[..|s| - 1];
      if s[|s| - 1] in init then Distinct(init) else Distinct(init) + [s[|s| - 1]]
  }

  /** `distinct()` removes exactly the repetitions: no duplicates, the same elements. */
  /** Where `x` first occurs in `s`. */
  function FirstIndex<T(==)>(s: seq<T>, x: T): (i: nat)
    requires x in s
    ensures i < |s| && s[i] == x && x !in s[..i]
  {
    if s[0] == x then 0 else 1 + FirstIndex(s[1..], x)
  }

  /** An element of a prefix first occurs in the whole sequence where it first occurs in the prefix. */
  lemma {:induction false} FirstIndexInPrefix<T>(s: seq<T>, n: nat, x: T)
    requires n <= |s| && x in s[..n]
    ensures FirstIndex(s[..n], x) == FirstIndex(s, x)
    decreases n
  {
    assert s[..n][0] == s[0];
    if s[0] != x {
      var k :| 0 <= k < n && s[..n][k] == x;
      assert s[..n][1..] == s[1..][..n - 1];
      assert s[1..][..n - 1][k - 1] == x;
      FirstIndexInPrefix(s[1..], n - 1, x);
    }
  }

  /**
   * What `distinct()` promises: no duplicates, exactly the input's elements,
   * and those in the order of their first occurrences in the input.
   */
  lemma {:induction false} DistinctSpec<T>(s: seq<T>)
    ensures NoDuplicates(Distinct(s))
    ensures forall x :: x in Distinct(s) <==> x in s
    ensures forall i, j :: 0 <= i < j < |Distinct(s)| ==> FirstIndex(s, Distinct(s)[i]) < FirstIndex(s, Distinct(s)[j])
  {
    if s != [] {
      var init := s[..|s| - 1];
      DistinctSpec(init);
      assert s == init + [s[|s| - 1]];
      assert init == s[..|s| - 1];
      var r := Distinct(s);
      var p := Distinct(init);
      forall x | x in init
        ensures FirstIndex(init, x) == FirstIndex(s, x)
      {
        FirstIndexInPrefix(s, |s| - 1, x);
      }
      forall i, j | 0 <= i < j < |r|
        ensures FirstIndex(s, r[i]) < FirstIndex(s, r[j])
      {
        assert r[i] == p[i] && p[i] in p;
        if j < |p| {
          assert r[j] == p[j];
        } else {
          assert r[j] == s[|s| - 1] && r[j] !in init;
          assert FirstIndex(s, r[j]) == |s| - 1;
        }
      }
    }
  }

  /** An element not seen before is kept, at the end. */
  lemma DistinctSnoc<T>(s: seq<T>, x: T)
    requires x !in s
    ensures Distinct(s + [x]) == Distinct(s) + [x]
  {
    assert (s + [x])[..|s + [x]| - 1] == s;
  }

  // ---------------------------------------------------------------------------
  // Kotlin `String.replace(oldValue, newValue)`
  // ---------------------------------------------------------------------------

  /** Replaces every non-overlapping occurrence of `p`, scanning from the left. */
  function Replace(s: string, p: string, r: string): string
    requires p != []
    decreases |s|
  {
    if |s| < |p| then s
    else if s[..|p|] == p then r + Replace(s[|p|..], p, r)
    else [s[0]] + Replace(s[1..], p, r)
  }

  /** When `p` begins with a character absent from `a`, `p` occurs in `a + p` only at the end. */
  lemma {:induction false} ReplaceAfterPrefix(a: string, p: string, r: string)
    requires p != [] && p[0] !in a
    ensures Replace(a + p, p, r) == a + r
    decreases |a|
  {
    if a == [] {
      assert (a + p)[|p|..] == [];
    } else {
      var s := a + p;
      assert s[..|p|] != p by { assert s[..|p|][0] == a[0] != p[0]; }
      assert s[1..] == a[1..] + p;
      ReplaceAfterPrefix(a[1..], p, r);
      assert [a[0]] + (a[1..] + r) == a + r;
    }
  }
}
