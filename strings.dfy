/** String operations of Python's `str` that the model needs, on `seq<char>`. */
module Strings {

  /** `s.startswith(p)`. */
  predicate StartsWith(s: string, p: string) {
    |p| <= |s| && s[..|p|] == p
  }

  /** `s[:n]` for a non-negative `n`. */
  function Take(s: string, n: nat): (r: string)
    ensures |r| == if |s| <= n then |s| else n
    ensures r == s[..|r|]
  {
    if |s| <= n then s else s[..n]
  }

  /** Lower-casing of one character; only the ASCII letters are mapped. */
  function LowerChar(c: char): char {
    if 'A' <= c <= 'Z' then (c as int + 32) as char else c
  }

  /** `s.lower()`, restricted to ASCII letters. */
  function Lower(s: string): (r: string)
    ensures |r| == |s|
    ensures forall i :: 0 <= i < |s| ==> r[i] == LowerChar(s[i])
  {
    seq(|s|, i requires 0 <= i < |s| => LowerChar(s[i]))
  }

  /** The only characters that lower-case to the lower-case letter `c` are `c` and its capital. */
  lemma LowerCharInverse(c: char, lower: char)
    requires 'a' <= lower <= 'z'
    ensures LowerChar(c) == lower <==> c == lower || c as int == lower as int - 32
  {
  }

  predicate IsDigit(c: char) {
    '0' <= c <= '9'
  }

  predicate AllDigits(s: string) {
    forall i :: 0 <= i < |s| ==> IsDigit(s[i])
  }

  function DigitChar(d: nat): (c: char)
    requires d < 10
    ensures IsDigit(c)
  {
    ('0' as int + d) as char
  }

  function DigitValue(c: char): (d: nat)
    requires IsDigit(c)
    ensures d < 10 && DigitChar(d) == c
  {
    c as int - '0' as int
  }

  /** The decimal notation of `n`, as Python's `str(n)` or an f-string writes it. */
  function Decimal(n: nat): (r: string)
    ensures |r| >= 1
    decreases n
  {
    if n < 10 then [DigitChar(n)] else Decimal(n / 10) + [DigitChar(n % 10)]
  }

  /** `str(i)` for any integer. */
  function IntToString(i: int): (r: string)
    ensures |r| >= 1
  {
    if i < 0 then "-" + Decimal(-i) else Decimal(i)
  }

  /** The number a string of decimal digits denotes (Python's `int(s)` on digits). */
  function ParseDecimal(s: string): nat
    requires AllDigits(s)
  {
    if s == [] then 0 else 10 * ParseDecimal(s[..|s| - 1]) + DigitValue(s[|s| - 1])
  }

  /** `Decimal` writes only digits, and reading them back gives the number. */
  lemma {:induction false} DecimalRoundTrip(n: nat)
    ensures AllDigits(Decimal(n))
    ensures ParseDecimal(Decimal(n)) == n
    decreases n
  {
    if n >= 10 {
      DecimalRoundTrip(n / 10);
      var s := Decimal(n);
      assert s[..|s| - 1] == Decimal(n / 10);
    }
  }

  /** A number from 1000 to 9999 is written with exactly four digits. */
  lemma {:induction false} FourDigits(n: nat)
    requires 1000 <= n <= 9999
    ensures |Decimal(n)| == 4
  {
    assert |Decimal(n / 1000)| == 1;
    assert |Decimal(n / 100)| == |Decimal(n / 1000)| + 1 by { assert (n / 100) / 10 == n / 1000; }
    assert |Decimal(n / 10)| == |Decimal(n / 100)| + 1 by { assert (n / 10) / 10 == n / 100; }
  }

  /** `pat` occurs in `s` at position `i`. */
  predicate MatchAt(s: string, i: nat, pat: string) {
    i + |pat| <= |s| && s[i..i + |pat|] == pat
  }

  /** `s.replace(pat, "")`: every occurrence of a non-empty `pat`, scanning left to right, removed. */
  function RemoveAll(s: string, pat: string): (r: string)
    requires pat != []
    ensures |r| <= |s|
    decreases |s|
  {
    if s == [] then []
    else if MatchAt(s, 0, pat) then RemoveAll(s[|pat|..], pat)
    else [s[0]] + RemoveAll(s[1..], pat)
  }

  /** Removing a pattern that does not occur leaves the string as it is. */
  lemma {:induction false} RemoveAllAbsent(s: string, pat: string)
    requires pat != []
    requires forall i :: 0 <= i < |s| ==> !MatchAt(s, i, pat)
    ensures RemoveAll(s, pat) == s
    decreases |s|
  {
    if s != [] {
      assert !MatchAt(s, 0, pat);
      forall i | 0 <= i < |s[1..]| ensures !MatchAt(s[1..], i, pat) {
        assert !MatchAt(s, i + 1, pat);
      }
      RemoveAllAbsent(s[1..], pat);
    }
  }

  /** When `pat` occurs in `u + pat` only at the end, removing it gives back `u`. */
  lemma {:induction false} RemoveAllSuffix(u: string, pat: string)
    requires pat != []
    requires forall i :: 0 <= i < |u| ==> !MatchAt(u + pat, i, pat)
    ensures RemoveAll(u + pat, pat) == u
    decreases |u|
  {
    var s := u + pat;
    if u == [] {
      assert MatchAt(s, 0, pat);
      assert s[|pat|..] == [];
    } else {
      assert !MatchAt(s, 0, pat);
      assert s[1..] == u[1..] + pat;
      forall i | 0 <= i < |u[1..]| ensures !MatchAt(u[1..] + pat, i, pat) {
        assert !MatchAt(s, i + 1, pat);
      }
      RemoveAllSuffix(u[1..], pat);
      assert [u[0]] + u[1..] == u;
    }
  }

  /**
   * When the first occurrence of `pat` in `u + pat + v` starts right after `u`,
   * removing all occurrences keeps `u` and continues in `v`.
   */
  lemma {:induction false} RemoveAllFirst(u: string, pat: string, v: string)
    requires pat != []
    requires forall i :: 0 <= i < |u| ==> !MatchAt(u + pat + v, i, pat)
    ensures RemoveAll(u + pat + v, pat) == u + RemoveAll(v, pat)
    decreases |u|
  {
    var s := u + pat + v;
    if u == [] {
      assert s == pat + v;
      assert MatchAt(s, 0, pat);
      assert s[|pat|..] == v;
    } else {
      assert !MatchAt(s, 0, pat);
      assert s[1..] == u[1..] + pat + v;
      forall i | 0 <= i < |u[1..]| ensures !MatchAt(u[1..] + pat + v, i, pat) {
        assert !MatchAt(s, i + 1, pat);
      }
      RemoveAllFirst(u[1..], pat, v);
      assert [u[0]] + u[1..] == u;
    }
  }

  /** `s.split(sep)[-1]` for the one-character separator `sep`: the text after its last occurrence. */
  function LastSegment(s: string, sep: char): (r: string)
    ensures sep !in r
    ensures |r| <= |s| && r == s[|s| - |r|..]
    ensures |r| < |s| ==> s[|s| - |r| - 1] == sep
  {
    if s == [] then []
    else if s[|s| - 1] == sep then []
    else LastSegment(s[..|s| - 1], sep) + [s[|s| - 1]]
  }
}
