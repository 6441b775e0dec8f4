/** Character-level string helpers shared by the PHP and JavaScript parts of the model:
    trimming by a whitespace class, decimal digits, and removal of every occurrence
    of a fixed pattern (PHP's `str_replace` with an empty replacement). */
module Strings {

  predicate IsDigit(c: char) {
    '0' <= c <= '9'
  }

  predicate AllDigits(s: string) {
    forall i :: 0 <= i < |s| ==> IsDigit(s[i])
  }

  predicate HasPrefix(s: string, p: string) {
    |p| <= |s| && s[..|p|] == p
  }

  /** Every character of `s` belongs to the whitespace class `ws`. */
  predicate AllIn(s: string, ws: char -> bool) {
    forall i :: 0 <= i < |s| ==> ws(s[i])
  }

  // ---------------------------------------------------------------------------
  // Trimming

  function TrimStart(s: string, ws: char -> bool): (r: string)
    ensures |r| <= |s| && r == s[|s| - |r|..]
    ensures r == [] || !ws(r[0])
    ensures AllIn(s[..|s| - |r|], ws)
    ensures AllIn(s, ws) ==> r == []
  {
    if |s| > 0 && ws(s[0]) then
      var r := TrimStart(s[1..], ws);
      TrimStartStep(s, r, ws);
      r
    else s
  }

  /** What `TrimStart` promises of the rest of `s` carries over to `s` when its first
      character is whitespace. */
  lemma TrimStartStep(s: string, r: string, ws: char -> bool)
    requires |s| > 0 && ws(s[0])
    requires |r| <= |s| - 1 && r == s[1..][|s| - 1 - |r|..]
    requires AllIn(s[1..][..|s| - 1 - |r|], ws)
    requires AllIn(s[1..], ws) ==> r == []
    ensures r == s[|s| - |r|..]
    ensures AllIn(s[..|s| - |r|], ws)
    ensures AllIn(s, ws) ==> r == []
  {
    var m := |s| - |r|;
    assert s[1..][m - 1..] == s[m..];
    forall i | 0 <= i < m ensures ws(s[..m][i]) {
      if i > 0 { assert s[..m][i] == s[1..][..m - 1][i - 1]; }
    }
    if AllIn(s, ws) {
      assert AllIn(s[1..], ws) by {
        forall i | 0 <= i < |s| - 1 ensures ws(s[1..][i]) { assert s[1..][i] == s[i + 1]; }
      }
    }
  }

  function TrimEnd(s: string, ws: char -> bool): (r: string)
    ensures |r| <= |s| && r == s[..|r|]
    ensures r == [] || !ws(r[|r| - 1])
    ensures AllIn(s[|r|..], ws)
    ensures AllIn(s, ws) ==> r == []
  {
    if |s| > 0 && ws(s[|s| - 1]) then TrimEnd(s[..|s| - 1], ws) else s
  }

  /** Strips the characters of class `ws` from both ends. */
  function Trim(s: string, ws: char -> bool): string {
    TrimEnd(TrimStart(s, ws), ws)
  }

  /** Where the trimmed text starts inside `s`. */
  function TrimOffset(s: string, ws: char -> bool): nat {
    |s| - |TrimStart(s, ws)|
  }

  /** A prefix `t` of the suffix of `s` that starts at `k` is the slice of `s` from `k`. */
  lemma PrefixOfSuffix(s: string, k: nat, l: string, t: string)
    requires k <= |s| && l == s[k..] && |t| <= |l| && t == l[..|t|]
    ensures k + |t| <= |s| && s[k..k + |t|] == t && s[k + |t|..] == l[|t|..]
  {
    assert s[k..][..|t|] == s[k..k + |t|];
    assert s[k..][|t|..] == s[k + |t|..];
  }

  /** What trimming cut on either side is whitespace. */
  lemma TrimMiddle(s: string, ws: char -> bool)
    ensures var t, k := Trim(s, ws), TrimOffset(s, ws);
            && k + |t| <= |s| && s[k..k + |t|] == t
            && AllIn(s[..k], ws) && AllIn(s[k + |t|..], ws)
  {
    var l := TrimStart(s, ws);
    var t := TrimEnd(l, ws);
    var k := |s| - |l|;
    assert l == s[k..] && AllIn(s[..k], ws);
    assert t == l[..|t|] && AllIn(l[|t|..], ws);
    PrefixOfSuffix(s, k, l, t);
    assert Trim(s, ws) == t && TrimOffset(s, ws) == k;
  }

  /** No whitespace is left at either end of the trimmed string. */
  lemma TrimEnds(s: string, ws: char -> bool)
    ensures var t := Trim(s, ws); t == [] || (!ws(t[0]) && !ws(t[|t| - 1]))
  {
    var l := TrimStart(s, ws);
    var t := TrimEnd(l, ws);
    assert t == [] || t[0] == l[0];
  }

  /** The trimmed string is the middle of `s`: what was cut on either side is whitespace,
      and no whitespace is left at either end. */
  lemma TrimShape(s: string, ws: char -> bool)
    ensures var t, k := Trim(s, ws), TrimOffset(s, ws);
            && k + |t| <= |s| && s[k..k + |t|] == t
            && AllIn(s[..k], ws) && AllIn(s[k + |t|..], ws)
    ensures var t := Trim(s, ws); t == [] || (!ws(t[0]) && !ws(t[|t| - 1]))
  {
    TrimMiddle(s, ws);
    TrimEnds(s, ws);
  }

  /** Trimming twice is trimming once. */
  lemma TrimIdempotent(s: string, ws: char -> bool)
    ensures Trim(Trim(s, ws), ws) == Trim(s, ws)
  {
    TrimShape(s, ws);
    var t := Trim(s, ws);
    assert TrimStart(t, ws) == t;
    assert TrimEnd(t, ws) == t;
  }

  /** Leading whitespace in front of a text that does not start with whitespace is cut. */
  lemma {:induction false} TrimStartPadded(a: string, r: string, ws: char -> bool)
    requires AllIn(a, ws) && (r == [] || !ws(r[0]))
    ensures TrimStart(a + r, ws) == r
    decreases |a|
  {
    if a == [] {
      assert a + r == r;
    } else {
      assert (a + r)[0] == a[0] && (a + r)[1..] == a[1..] + r;
      TrimStartPadded(a[1..], r, ws);
    }
  }

  /** Trailing whitespace after a text that does not end with whitespace is cut. */
  lemma {:induction false} TrimEndPadded(r: string, b: string, ws: char -> bool)
    requires AllIn(b, ws) && (r == [] || !ws(r[|r| - 1]))
    ensures TrimEnd(r + b, ws) == r
    decreases |b|
  {
    if b == [] {
      assert r + b == r;
    } else {
      var s := r + b;
      assert s[|s| - 1] == b[|b| - 1] && s[..|s| - 1] == r + b[..|b| - 1];
      TrimEndPadded(r, b[..|b| - 1], ws);
    }
  }

  /** Trimming a text padded with whitespace on both sides gives back the text, when
      the text itself neither starts nor ends with whitespace. */
  lemma TrimPadded(a: string, m: string, b: string, ws: char -> bool)
    requires AllIn(a, ws) && AllIn(b, ws)
    requires m != [] && !ws(m[0]) && !ws(m[|m| - 1])
    ensures Trim(a + m + b, ws) == m
  {
    assert a + m + b == a + (m + b);
    assert (m + b)[0] == m[0];
    TrimStartPadded(a, m + b, ws);
    TrimEndPadded(m, b, ws);
  }

  /** A string is trimmed to nothing exactly when it is all whitespace. */
  lemma TrimEmptyIff(s: string, ws: char -> bool)
    ensures Trim(s, ws) == [] <==> AllIn(s, ws)
  {
    var l := TrimStart(s, ws);
    var t := TrimEnd(l, ws);
    if t == [] {
      assert AllIn(l, ws) by { assert l[|t|..] == l; }
      var k := |s| - |l|;
      assert l == [];
      forall i | 0 <= i < |s| ensures ws(s[i]) {
        assert s[i] == s[..k][i];
      }
    }
  }

  // ---------------------------------------------------------------------------
  // Decimal numbers

  function DigitChar(d: nat): (c: char)
    requires d < 10
    ensures IsDigit(c)
  {
    "0123456789"[d]
  }

  function DigitValue(c: char): nat
    requires IsDigit(c)
  {
    (c as int - '0' as int) as nat
  }

  lemma DigitRoundTrip(d: nat)
    requires d < 10
    ensures DigitValue(DigitChar(d)) == d
  {
  }

  /** The decimal representation of a natural number, without leading zeros. */
  function NatToString(n: nat): (r: string)
    ensures |r| > 0 && AllDigits(r)
    ensures n < 10 <==> |r| == 1
    decreases n
  {
    if n < 10 then [DigitChar(n)] else NatToString(n / 10) + [DigitChar(n % 10)]
  }

  /** The value of a string of decimal digits, read from the left. */
  function DigitsToNat(ds: string): nat
    requires AllDigits(ds)
    decreases |ds|
  {
    if ds == [] then 0 else DigitsToNat(ds[..|ds| - 1]) * 10 + DigitValue(ds[|ds| - 1])
  }

  /** Reading back a formatted number gives the number. */
  lemma {:induction false} NatToStringRoundTrip(n: nat)
    ensures DigitsToNat(NatToString(n)) == n
    decreases n
  {
    var r := NatToString(n);
    if n < 10 {
      DigitRoundTrip(n);
    } else {
      NatToStringRoundTrip(n / 10);
      assert r[..|r| - 1] == NatToString(n / 10);
      DigitRoundTrip(n % 10);
    }
  }

  /** Different numbers have different representations. */
  lemma NatToStringInjective(m: nat, n: nat)
    requires NatToString(m) == NatToString(n)
    ensures m == n
  {
    NatToStringRoundTrip(m);
    NatToStringRoundTrip(n);
  }

  // ---------------------------------------------------------------------------
  // Removal of every occurrence of a pattern, scanning left to right

  /** `p` occurs in `s` at position `i`. */
  predicate OccursAt(s: string, p: string, i: nat) {
    i + |p| <= |s| && s[i..i + |p|] == p
  }

  /** `str_replace(p, '', s)`: occurrences are found left to right without overlap. */
  function RemoveAll(s: string, p: string): string
    requires |p| > 0
    decreases |s|
  {
    if |s| == 0 then s
    else if HasPrefix(s, p) then RemoveAll(s[|p|..], p)
    else [s[0]] + RemoveAll(s[1..], p)
  }

  /** A string that does not start with the pattern keeps its first character. */
  lemma RemoveAllHead(s: string, p: string)
    requires |p| > 0 && |s| > 0 && !HasPrefix(s, p)
    ensures RemoveAll(s, p) != [] && RemoveAll(s, p)[0] == s[0]
  {
  }

  /** A string with no occurrence of the pattern is left unchanged. */
  lemma {:induction false} RemoveAllAbsent(s: string, p: string)
    requires |p| > 0
    requires forall i: nat :: !OccursAt(s, p, i)
    ensures RemoveAll(s, p) == s
    decreases |s|
  {
    if |s| > 0 {
      assert !HasPrefix(s, p) by { assert !OccursAt(s, p, 0); }
      forall i: nat ensures !OccursAt(s[1..], p, i) {
        assert !OccursAt(s, p, i + 1);
        if i + |p| <= |s| - 1 {
          assert s[1..][i..i + |p|] == s[i + 1..i + 1 + |p|];
        }
      }
      RemoveAllAbsent(s[1..], p);
    }
  }
}
