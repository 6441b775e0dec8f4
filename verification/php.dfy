/** The part of PHP's value model the plugin relies on: arrays with ordered keys,
    `isset`, the boolean and integer casts, string conversion and `trim`. */
module Php {
  import opened Strings

  /** A PHP array key. */
  datatype Key = IntKey(i: int) | StrKey(s: string)

  /** A PHP value. An array keeps its entries in insertion order, as PHP arrays do;
      `json_decode(..., true)` turns JSON objects into string-keyed arrays and JSON
      lists into arrays keyed 0, 1, 2, ... */
  datatype Value =
    | Null
    | Bool(b: bool)
    | Int(i: int)
    | Str(s: string)
    | Arr(entries: seq<(Key, Value)>)

  // ---------------------------------------------------------------------------
  // Array access

  function Lookup(es: seq<(Key, Value)>, k: Key): Value {
    if es == [] then Null else if es[0].0 == k then es[0].1 else Lookup(es[1..], k)
  }

  /** `$v[$k]`: a missing key, or an offset into something that is not an array, reads as null. */
  function Get(v: Value, k: Key): Value {
    if v.Arr? then Lookup(v.entries, k) else Null
  }

  function Field(v: Value, name: string): Value {
    Get(v, StrKey(name))
  }

  function Index(v: Value, i: int): Value {
    Get(v, IntKey(i))
  }

  /** `isset($v[...])`: the offset exists and is not null. */
  predicate IsSet(v: Value) {
    !v.Null?
  }

  function KeysOf(es: seq<(Key, Value)>): set<Key> {
    set e | e in es :: e.0
  }

  /** `$a[$k] = $x`: replaces the entry in place when the key exists, else appends it. */
  function Put(es: seq<(Key, Value)>, k: Key, x: Value): (r: seq<(Key, Value)>)
    ensures KeysOf(r) == KeysOf(es) + {k}
  {
    if es == [] then [(k, x)]
    else if es[0].0 == k then
      assert es == [es[0]] + es[1..];
      [(k, x)] + es[1..]
    else
      var r := [es[0]] + Put(es[1..], k, x);
      assert KeysOf(r) == {es[0].0} + KeysOf(Put(es[1..], k, x)) by {
        forall e | e in r ensures e == es[0] || e in Put(es[1..], k, x) { }
      }
      assert KeysOf(es) == {es[0].0} + KeysOf(es[1..]) by {
        assert es == [es[0]] + es[1..];
      }
      r
  }

  /** After `$a[$k] = $x`, `$a[$k]` is `$x` and every other key reads as before. */
  lemma {:induction false} PutLookup(es: seq<(Key, Value)>, k: Key, x: Value, j: Key)
    ensures Lookup(Put(es, k, x), j) == if j == k then x else Lookup(es, j)
  {
    if es != [] && es[0].0 != k {
      PutLookup(es[1..], k, x, j);
    }
  }

  /** An array built from string keys, in the order given. */
  function Record(fields: seq<(string, Value)>): (r: Value)
    ensures r.Arr? && |r.entries| == |fields|
  {
    Arr(seq(|fields|, i requires 0 <= i < |fields| => (StrKey(fields[i].0), fields[i].1)))
  }

  /** The names of a record's fields are pairwise distinct. */
  predicate DistinctNames(fields: seq<(string, Value)>) {
    forall a, b :: 0 <= a < b < |fields| ==> fields[a].0 != fields[b].0
  }

  /** Each field of a record reads back as the value it was built with. */
  lemma {:induction false} RecordField(fields: seq<(string, Value)>, i: nat)
    requires i < |fields| && DistinctNames(fields)
    ensures Field(Record(fields), fields[i].0) == fields[i].1
  {
    var es := Record(fields).entries;
    if i > 0 {
      assert DistinctNames(fields[1..]) by {
        forall a, b | 0 <= a < b < |fields| - 1 ensures fields[1..][a].0 != fields[1..][b].0 {
          assert fields[a + 1].0 != fields[b + 1].0;
        }
      }
      RecordField(fields[1..], i - 1);
      assert es[1..] == Record(fields[1..]).entries;
      assert es[0].0 != StrKey(fields[i].0);
    }
  }

  /** A record's keys are exactly its field names. */
  lemma RecordKeys(fields: seq<(string, Value)>)
    ensures KeysOf(Record(fields).entries) == set f | f in fields :: StrKey(f.0)
  {
    var es := Record(fields).entries;
    forall k | k in KeysOf(es) ensures k in set f | f in fields :: StrKey(f.0) {
      var e :| e in es && e.0 == k;
      var j :| 0 <= j < |es| && es[j] == e;
      assert fields[j] in fields;
    }
    forall k | k in set f | f in fields :: StrKey(f.0) ensures k in KeysOf(es) {
      var f :| f in fields && StrKey(f.0) == k;
      var j :| 0 <= j < |fields| && fields[j] == f;
      assert es[j] in es;
    }
  }

  /** The values a `foreach` visits: the entries of an array in order, nothing for anything else. */
  function Items(v: Value): (r: seq<Value>)
    ensures v.Arr? ==> |r| == |v.entries|
  {
    if v.Arr? then seq(|v.entries|, i requires 0 <= i < |v.entries| => v.entries[i].1) else []
  }

  // ---------------------------------------------------------------------------
  // Casts

  /** The `(bool)` cast. `empty($x)` on a set variable is its negation. */
  predicate Truthy(v: Value) {
    match v
    case Null => false
    case Bool(b) => b
    case Int(i) => i != 0
    case Str(s) => s != "" && s != "0"
    case Arr(es) => es != []
  }

  /** `empty($x)`. */
  predicate Empty(v: Value) {
    !Truthy(v)
  }

  function IntToString(i: int): (r: string)
    ensures |r| > 0
  {
    if i < 0 then "-" + NatToString(-i) else NatToString(i)
  }

  /** The `(string)` conversion. */
  function ToStr(v: Value): string {
    match v
    case Null => ""
    case Bool(b) => if b then "1" else ""
    case Int(i) => IntToString(i)
    case Str(s) => s
    case Arr(_) => "Array"
  }

  /** Whitespace that PHP allows before the digits of a numeric string. */
  predicate IsNumericSpace(c: char) {
    c == ' ' || c == '\t' || c == '\n' || c == '\r' || c == '\U{B}' || c == '\U{C}'
  }

  function SkipSpace(s: string): (r: string)
    ensures |r| <= |s|
  {
    if s != [] && IsNumericSpace(s[0]) then SkipSpace(s[1..]) else s
  }

  /** The longest run of digits at the start of `s`. */
  function DigitPrefix(s: string): (r: string)
    ensures AllDigits(r) && |r| <= |s|
  {
    if s != [] && IsDigit(s[0]) then [s[0]] + DigitPrefix(s[1..]) else []
  }

  lemma {:induction false} DigitPrefixOfDigits(s: string)
    requires AllDigits(s)
    ensures DigitPrefix(s) == s
  {
    if s != [] {
      DigitPrefixOfDigits(s[1..]);
    }
  }

  /** The range of PHP's integers. */
  const IntMax := 0x7fff_ffff_ffff_ffff
  const IntMin := -0x8000_0000_0000_0000

  /** A number brought into PHP's integer range: out-of-range values saturate, as they
      do when a numeric string that reads as a float is converted to an integer. */
  function Cap(x: int): (r: int)
    ensures IntMin <= r <= IntMax
    ensures IntMin <= x <= IntMax ==> r == x
    ensures x > IntMax ==> r == IntMax
    ensures x < IntMin ==> r == IntMin
  {
    if x > IntMax then IntMax else if x < IntMin then IntMin else x
  }

  /** An exponent at the start of `s`: `e` or `E`, an optional sign and at least one
      digit; without a digit there is no exponent. */
  function Exponent(s: string): (r: int)
  {
    if |s| >= 2 && (s[0] == 'e' || s[0] == 'E') then
      var t := s[1..];
      var digits := if t[0] == '-' || t[0] == '+' then t[1..] else t;
      var n: int := DigitsToNat(DigitPrefix(digits));
      if t[0] == '-' then -n else n
    else 0
  }

  /** The digits after a decimal point at the start of `rest`, if it starts with one. */
  function Fraction(rest: string): (r: string)
    ensures AllDigits(r)
    ensures rest != [] && rest[0] == '.' ==> |r| < |rest|
  {
    if rest != [] && rest[0] == '.' then DigitPrefix(rest[1..]) else []
  }

  /** What follows the decimal point and its digits, or `rest` itself without a point. */
  function AfterFraction(rest: string): string {
    if rest != [] && rest[0] == '.' then rest[1 + |Fraction(rest)|..] else rest
  }

  /** `n` times ten to the power `k`, truncated toward zero when `k` is negative. */
  function Scale(n: nat, k: int): nat
    decreases if k >= 0 then k else -k
  {
    if k == 0 then n else if k > 0 then Scale(10 * n, k - 1) else Scale(n / 10, k + 1)
  }

  lemma AllDigitsConcat(a: string, b: string)
    requires AllDigits(a) && AllDigits(b)
    ensures AllDigits(a + b)
  {
    assert forall i :: 0 <= i < |a + b| ==> (a + b)[i] == if i < |a| then a[i] else b[i - |a|];
  }

  /** The unsigned number at the start of `t`, truncated toward zero: digits, then a
      decimal point with more digits, then an exponent. Without a digit before or
      after the point it is 0. */
  function UnsignedLead(t: string): nat {
    var whole := DigitPrefix(t);
    var rest := t[|whole|..];
    var frac := Fraction(rest);
    if whole == [] && frac == [] then 0
    else
      AllDigitsConcat(whole, frac);
      Scale(DigitsToNat(whole + frac), Exponent(AfterFraction(rest)) - |frac|)
  }

  /** The integer `intval` reads from a string: optional whitespace, an optional sign and
      a decimal number, possibly with a fraction and an exponent; anything after it is
      ignored, a string that does not start with a number reads as 0, and the value is
      truncated toward zero and saturated to the integer range. */
  function LeadingInt(s: string): int {
    var t := SkipSpace(s);
    if t != [] && t[0] == '-' then Cap(-(UnsignedLead(t[1..]) as int))
    else if t != [] && t[0] == '+' then Cap(UnsignedLead(t[1..]))
    else Cap(UnsignedLead(t))
  }

  /** `intval($v)`. */
  function IntVal(v: Value): int {
    match v
    case Null => 0
    case Bool(b) => if b then 1 else 0
    case Int(i) => i
    case Str(s) => LeadingInt(s)
    case Arr(es) => if es == [] then 0 else 1
  }

  /** A run of digits followed by anything but a digit, a point or an exponent reads as
      its own value. */
  lemma UnsignedLeadOfDigits(ds: string)
    requires ds != [] && AllDigits(ds)
    ensures UnsignedLead(ds) == DigitsToNat(ds)
  {
    DigitPrefixOfDigits(ds);
    assert ds[|ds|..] == [] && ds + [] == ds;
  }

  /** A run of digits reads as its value, saturated at the largest integer. */
  lemma LeadingIntOfDigits(ds: string)
    requires ds != [] && AllDigits(ds)
    ensures LeadingInt(ds) == Cap(DigitsToNat(ds))
    ensures DigitsToNat(ds) > IntMax ==> LeadingInt(ds) == IntMax
  {
    assert IsDigit(ds[0]);
    UnsignedLeadOfDigits(ds);
    LeadingIntUnsigned(ds);
  }

  /** A minus sign before a run of digits reads as the negated value, saturated at the
      smallest integer. */
  lemma LeadingIntOfNegative(ds: string)
    requires ds != [] && AllDigits(ds)
    ensures LeadingInt("-" + ds) == Cap(-(DigitsToNat(ds) as int))
  {
    var t := "-" + ds;
    assert t[0] == '-' && t[1..] == ds;
    UnsignedLeadOfDigits(ds);
    LeadingIntNegative(t);
  }

  /** A string that starts with a minus sign reads as its negated number. */
  lemma LeadingIntNegative(t: string)
    requires t != [] && t[0] == '-'
    ensures LeadingInt(t) == Cap(-(UnsignedLead(t[1..]) as int))
  {
    assert SkipSpace(t) == t;
  }

  /** A string that starts with a digit reads as its number. */
  lemma LeadingIntUnsigned(t: string)
    requires t != [] && IsDigit(t[0])
    ensures LeadingInt(t) == Cap(UnsignedLead(t))
  {
    assert SkipSpace(t) == t;
  }

  /** An exponent scales the digits before it: `<digits>e<digits>` reads as the first
      value times a power of ten, saturated. */
  lemma LeadingIntOfExponent(ds: string, es: string)
    requires ds != [] && AllDigits(ds) && es != [] && AllDigits(es)
    ensures LeadingInt(ds + "e" + es) == Cap(Scale(DigitsToNat(ds), DigitsToNat(es)))
  {
    var t := ds + "e" + es;
    assert IsDigit(t[0]);
    UnsignedLeadOfExponent(ds, es);
    LeadingIntUnsigned(t);
  }

  lemma UnsignedLeadOfExponent(ds: string, es: string)
    requires ds != [] && AllDigits(ds) && es != [] && AllDigits(es)
    ensures UnsignedLead(ds + "e" + es) == Scale(DigitsToNat(ds), DigitsToNat(es))
  {
    var t := ds + "e" + es;
    var rest := "e" + es;
    assert t == ds + rest;
    DigitPrefixStops(ds, rest);
    assert t[|ds|..] == rest;
    assert Fraction(rest) == [] && AfterFraction(rest) == rest;
    ExponentOfDigits(es);
    UnsignedLeadWhole(t, ds, rest);
  }

  /** A number without a decimal point: its digits scaled by its exponent. */
  lemma UnsignedLeadWhole(t: string, ds: string, rest: string)
    requires ds != [] && DigitPrefix(t) == ds && rest == t[|ds|..] && Fraction(rest) == []
    ensures UnsignedLead(t) == Scale(DigitsToNat(ds), Exponent(AfterFraction(rest)))
  {
    assert ds + [] == ds;
  }

  lemma ExponentOfDigits(es: string)
    requires es != [] && AllDigits(es)
    ensures Exponent("e" + es) == DigitsToNat(es)
  {
    var after := "e" + es;
    assert after[1..] == es;
    assert es[0] != '-' && es[0] != '+' by { assert IsDigit(es[0]); }
    DigitPrefixOfDigits(es);
  }

  /** The digit run of digits followed by a non-digit is those digits. */
  lemma {:induction false} DigitPrefixStops(ds: string, rest: string)
    requires AllDigits(ds) && rest != [] && !IsDigit(rest[0])
    ensures DigitPrefix(ds + rest) == ds
  {
    if ds == [] {
      assert ds + rest == rest;
    } else {
      assert (ds + rest)[1..] == ds[1..] + rest;
      DigitPrefixStops(ds[1..], rest);
    }
  }

  /** The exponent form of a small page number: `"2e1"` reads as 20, not 2. */
  lemma ExponentPageNumber()
    ensures IntVal(Str("2e1")) == 20
  {
    assert "2e1" == "2" + "e" + "1";
    LeadingIntOfExponent("2", "1");
    assert DigitsToNat("2") == 2 by { assert "2"[..0] == []; }
    assert DigitsToNat("1") == 1 by { assert "1"[..0] == []; }
    assert Scale(2, 1) == 20;
  }

  /** `intval` reads back what the string conversion of an integer wrote, for every
      integer PHP can hold. */
  lemma IntValOfString(i: int)
    requires IntMin <= i <= IntMax
    ensures IntVal(Str(IntToString(i))) == i
  {
    var n: nat := if i < 0 then -i else i;
    NatToStringRoundTrip(n);
    if i < 0 {
      LeadingIntOfNegative(NatToString(n));
    } else {
      LeadingIntOfDigits(NatToString(n));
    }
  }

  // ---------------------------------------------------------------------------
  // trim()

  /** The characters PHP's `trim` strips by default: space, tab, newline, carriage
      return, NUL and vertical tab. */
  predicate IsTrimSpace(c: char) {
    c == ' ' || c == '\t' || c == '\n' || c == '\r' || c == '\0' || c == '\U{B}'
  }

  function PhpTrim(s: string): string {
    Trim(s, IsTrimSpace)
  }
}
