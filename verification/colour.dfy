/** The darker shade of the primary colour that the front-end enqueue step computes:
    each channel of a `#rrggbb` colour lowered by 25, never below 0. The inline CSS
    written right after it uses only the stored colours, so the shade is computed and
    then never read. */
module Colour {

  predicate IsHexDigit(c: char) {
    ('0' <= c <= '9') || ('a' <= c <= 'f') || ('A' <= c <= 'F')
  }

  function HexValue(c: char): (v: nat)
    requires IsHexDigit(c)
    ensures v < 16
  {
    if '0' <= c <= '9' then (c as int - '0' as int) as nat
    else if 'a' <= c <= 'f' then (c as int - 'a' as int + 10) as nat
    else (c as int - 'A' as int + 10) as nat
  }

  /** The digit `sprintf('%x')` writes: lower-case. */
  function LowerHexDigit(d: nat): (c: char)
    requires d < 16
    ensures IsHexDigit(c) && HexValue(c) == d && !('A' <= c <= 'F')
  {
    "0123456789abcdef"[d]
  }

  /** `preg_match('/^#[a-f0-9]{6}$/i', $s)`. The `i` flag admits upper-case digits, and
      PCRE's `$` also matches before one final newline, so `"#aabbcc\n"` matches too. */
  predicate MatchesHexColour(s: string) {
    && (|s| == 7 || (|s| == 8 && s[7] == '\n'))
    && s[0] == '#'
    && forall i :: 1 <= i < 7 ==> IsHexDigit(s[i])
  }

  /** Channel `k` (0 red, 1 green, 2 blue): `hexdec(substr($hex, 2k, 2))` where `$hex`
      is the text after the `#`. */
  function Channel(s: string, k: nat): (v: nat)
    requires MatchesHexColour(s) && k < 3
    ensures v < 256
  {
    16 * HexValue(s[1 + 2 * k]) + HexValue(s[2 + 2 * k])
  }

  /** `sprintf('%02x', $v)`. */
  function Hex2(v: nat): (r: string)
    requires v < 256
    ensures |r| == 2 && IsHexDigit(r[0]) && IsHexDigit(r[1])
    ensures !('A' <= r[0] <= 'F') && !('A' <= r[1] <= 'F')
    ensures 16 * HexValue(r[0]) + HexValue(r[1]) == v
  {
    [LowerHexDigit(v / 16), LowerHexDigit(v % 16)]
  }

  /** `sprintf('#%02x%02x%02x', $r, $g, $b)`. */
  function FormatHex(r: nat, g: nat, b: nat): (s: string)
    requires r < 256 && g < 256 && b < 256
    ensures MatchesHexColour(s) && |s| == 7
    ensures forall i :: 1 <= i < 7 ==> !('A' <= s[i] <= 'F')
    ensures Channel(s, 0) == r && Channel(s, 1) == g && Channel(s, 2) == b
  {
    var x, y, z := Hex2(r), Hex2(g), Hex2(b);
    var s := "#" + x + y + z;
    assert s[1] == x[0] && s[2] == x[1] && s[3] == y[0] && s[4] == y[1] && s[5] == z[0] && s[6] == z[1];
    s
  }

  /** `max(0, $c - 25)`. */
  function DarkenChannel(c: nat): (d: nat)
    ensures d == 0 || d == c - 25
    ensures d <= c && (c >= 25 ==> d == c - 25) && (c < 25 ==> d == 0)
  {
    if c >= 25 then c - 25 else 0
  }

  /** The darker colour: a matching colour is re-emitted as seven lower-case characters
      with every channel lowered by 25 and floored at 0; anything else comes back as it was. */
  function DarkerColour(s: string): (r: string)
    ensures !MatchesHexColour(s) ==> r == s
    ensures MatchesHexColour(s) ==>
              && MatchesHexColour(r) && |r| == 7
              && (forall i :: 1 <= i < 7 ==> !('A' <= r[i] <= 'F'))
              && Channel(r, 0) == DarkenChannel(Channel(s, 0))
              && Channel(r, 1) == DarkenChannel(Channel(s, 1))
              && Channel(r, 2) == DarkenChannel(Channel(s, 2))
  {
    if MatchesHexColour(s) then
      var red, green, blue := DarkenChannel(Channel(s, 0)), DarkenChannel(Channel(s, 1)), DarkenChannel(Channel(s, 2));
      var r := FormatHex(red, green, blue);
      r
    else s
  }

  /** Darkening a darkened colour lowers each channel of the original by 50, floored at 0. */
  lemma DarkerTwice(s: string, k: nat)
    requires MatchesHexColour(s) && k < 3
    ensures var d := DarkerColour(DarkerColour(s));
            MatchesHexColour(d) && Channel(d, k) == if Channel(s, k) >= 50 then Channel(s, k) - 50 else 0
  {
    DarkerChannel(s, k);
    DarkerChannel(DarkerColour(s), k);
  }

  lemma DarkerChannel(s: string, k: nat)
    requires MatchesHexColour(s) && k < 3
    ensures MatchesHexColour(DarkerColour(s)) && Channel(DarkerColour(s), k) == DarkenChannel(Channel(s, k))
  {
    if k == 0 {} else if k == 1 {} else {}
  }

  /** The trailing newline that `$` lets through is dropped from the darker colour. */
  lemma TrailingNewlineDropped()
    ensures DarkerColour("#ffffff\n") == "#e6e6e6"
  {
    var s := "#ffffff\n";
    assert MatchesHexColour(s);
    assert Channel(s, 0) == 255 && Channel(s, 1) == 255 && Channel(s, 2) == 255;
    assert Hex2(230) == "e6";
  }
}
