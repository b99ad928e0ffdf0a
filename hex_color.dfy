/**
 * `toRgba(hex, alpha)`: turns a 3- or 6-digit hex colour into the red, green
 * and blue bytes of an `rgba(...)` colour, passing the alpha through.
 *
 * The JavaScript steps are kept one by one: `hex.replace('#', '')` removes the
 * FIRST '#' only, a three-digit string has each digit doubled, `parseInt(_, 16)`
 * reads the digits, and the channels come out of `>> 16`, `>> 8` and `& 255`,
 * which work on the 32-bit two's complement image of the number (ToInt32).
 */
module HexColor {

  /** The colour as `toRgba` formats it: three channels and the alpha it was given. */
  datatype Rgba = Rgba(r: int, g: int, b: int, alpha: real)

  predicate IsHexDigit(c: char) {
    '0' <= c <= '9' || 'a' <= c <= 'f' || 'A' <= c <= 'F'
  }

  predicate AllHex(s: string) {
    forall i :: 0 <= i < |s| ==> IsHexDigit(s[i])
  }

  /** The value `parseInt` gives one hex digit, in either case. */
  function HexVal(c: char): (v: nat)
    requires IsHexDigit(c)
    ensures v < 16
    ensures '0' <= c <= '9' ==> v < 10
    ensures !('0' <= c <= '9') ==> 10 <= v
  {
    if '0' <= c <= '9' then c as int - '0' as int
    else if 'a' <= c <= 'f' then c as int - 'a' as int + 10
    else c as int - 'A' as int + 10
  }

  lemma HexValIgnoresCase(c: char)
    requires 'a' <= c <= 'f'
    ensures IsHexDigit((c as int - 32) as char) && HexVal((c as int - 32) as char) == HexVal(c)
  {
  }

  // ---------------------------------------------------------------------------
  // `hex.replace('#', '')`

  /** Position of the first occurrence of `c` in `s`. */
  function IndexOf(s: string, c: char): (i: nat)
    requires c in s
    ensures i < |s| && s[i] == c
    ensures c !in s[..i]
  {
    if s[0] == c then 0
    else
      var j := IndexOf(s[1..], c);
      assert s[1..][..j] == s[1..j + 1];
      assert s[..j + 1] == [s[0]] + s[1..j + 1];
      j + 1
  }

  /** `s.replace(c, '')` with a one-character string pattern. */
  function RemoveFirst(s: string, c: char): string {
    if s == [] then s
    else if s[0] == c then s[1..]
    else [s[0]] + RemoveFirst(s[1..], c)
  }

  /** Only the first `c` goes: everything before and after it stays, and a string without `c` is unchanged. */
  lemma {:induction false} RemoveFirstSpec(s: string, c: char)
    ensures c !in s ==> RemoveFirst(s, c) == s
    ensures c in s ==> RemoveFirst(s, c) == s[..IndexOf(s, c)] + s[IndexOf(s, c) + 1..]
  {
    if s != [] && s[0] != c {
      RemoveFirstSpec(s[1..], c);
      if c in s {
        assert c in s[1..];
        var i, j := IndexOf(s, c), IndexOf(s[1..], c);
        assert i == j + 1;
        assert s[..i] == [s[0]] + s[1..][..j];
        assert s[i + 1..] == s[1..][j + 1..];
      }
    }
  }

  function Sanitize(hex: string): string {
    RemoveFirst(hex, '#')
  }

  // ---------------------------------------------------------------------------
  // `sanitized.split('').map((c) => c + c).join('')`

  function Doubled(s: string): (r: string)
    ensures |r| == 2 * |s|
    ensures forall i :: 0 <= i < |r| ==> r[i] == s[i / 2]
  {
    if s == [] then []
    else [s[0], s[0]] + Doubled(s[1..])
  }

  // ---------------------------------------------------------------------------
  // `parseInt(digits, 16)`

  function Pow16(n: nat): (p: nat)
    ensures p >= 1
  {
    if n == 0 then 1 else 16 * Pow16(n - 1)
  }

  /** The number a string of hex digits denotes, most significant digit first. */
  function ParseHex(s: string): (v: nat)
    requires AllHex(s)
    ensures v < Pow16(|s|)
  {
    if s == [] then 0
    else ParseHex(s[..|s| - 1]) * 16 + HexVal(s[|s| - 1])
  }

  lemma ParseHexStep(s: string, k: nat)
    requires AllHex(s) && 0 < k <= |s|
    ensures AllHex(s[..k]) && AllHex(s[..k - 1])
    ensures ParseHex(s[..k]) == ParseHex(s[..k - 1]) * 16 + HexVal(s[k - 1])
  {
    assert s[..k][..k - 1] == s[..k - 1];
  }

  // ---------------------------------------------------------------------------
  // JavaScript's 32-bit operators

  /** ECMAScript ToInt32: the integer modulo 2^32, read as two's complement. */
  function ToInt32(x: int): (r: int)
    ensures -0x8000_0000 <= r < 0x8000_0000
    ensures (x - r) % 0x1_0000_0000 == 0
  {
    var m := x % 0x1_0000_0000;
    if m < 0x8000_0000 then m else m - 0x1_0000_0000
  }

  function Pow2(n: nat): (p: nat)
    ensures p >= 1
  {
    if n == 0 then 1 else 2 * Pow2(n - 1)
  }

  /** `x >> n`: the sign-propagating shift, i.e. ToInt32(x) divided by 2^n rounding down. */
  function ShiftRight(x: int, n: nat): int
    requires n < 32
  {
    ToInt32(x) / Pow2(n)
  }

  /** `x & 255`: the low eight bits of ToInt32(x), which is its remainder modulo 256. */
  function And255(x: int): (r: int)
    ensures 0 <= r < 256
  {
    ToInt32(x) % 256
  }

  lemma ToInt32Offset(x: int) returns (q: int)
    ensures ToInt32(x) == x - q * 0x1_0000_0000
  {
    var m := x % 0x1_0000_0000;
    q := if m < 0x8000_0000 then x / 0x1_0000_0000 else x / 0x1_0000_0000 + 1;
  }

  lemma ToInt32Small(x: int)
    requires -0x8000_0000 <= x < 0x8000_0000
    ensures ToInt32(x) == x
  {
  }

  /** Taking away a multiple of 2^32 moves `x / 2^n` by a multiple of 2^(32-n) and leaves the low byte alone. */
  lemma DropWrap(v: int, q: int)
    ensures (v - q * 0x1_0000_0000) / 0x1_0000 == v / 0x1_0000 - q * 0x1_0000
    ensures (v - q * 0x1_0000_0000) / 0x100 == v / 0x100 - q * 0x100_0000
    ensures (v - q * 0x1_0000_0000) % 0x100 == v % 0x100
  {
  }

  lemma DropBytes(a: int, k: int)
    ensures (a - k * 0x100) % 0x100 == a % 0x100
  {
  }

  /** For a non-negative integer, the JavaScript mask-and-shift picks out plain base-256 digits. */
  lemma {:induction false} JsChannels(v: int)
    requires v >= 0
    ensures And255(ShiftRight(v, 16)) == (v / 0x1_0000) % 256
    ensures And255(ShiftRight(v, 8)) == (v / 0x100) % 256
    ensures And255(v) == v % 256
  {
    assert Pow2(8) == 0x100 && Pow2(16) == 0x1_0000;
    var q := ToInt32Offset(v);
    DropWrap(v, q);
    var t := ToInt32(v);
    ToInt32Small(t / 0x1_0000);
    ToInt32Small(t / 0x100);
    DropBytes(v / 0x1_0000, q * 0x100);
    DropBytes(v / 0x100, q * 0x1_0000);
  }

  // ---------------------------------------------------------------------------
  // `toRgba`

  /**
   * The inputs `toRgba` is defined on: after the first '#' is removed, one to
   * thirteen hex digits, a count `parseInt` reads exactly (below 2^53).
   */
  predicate ValidHex(hex: string) {
    var s := Sanitize(hex);
    1 <= |s| <= 13 && AllHex(s)
  }

  /** The `bigint` of `toRgba`: the short form is read with every digit doubled. */
  function ColorValue(sanitized: string): nat
    requires AllHex(sanitized)
  {
    if |sanitized| == 3 then ParseHex(Doubled(sanitized)) else ParseHex(sanitized)
  }

  function ToRgba(hex: string, alpha: real): (c: Rgba)
    requires ValidHex(hex)
    ensures 0 <= c.r < 256 && 0 <= c.g < 256 && 0 <= c.b < 256
    ensures c.alpha == alpha
  {
    var bigint := ColorValue(Sanitize(hex));
    Rgba(And255(ShiftRight(bigint, 16)), And255(ShiftRight(bigint, 8)), And255(bigint), alpha)
  }

  /** The two digits of a channel in the long form. */
  function Byte(hi: char, lo: char): (b: int)
    requires IsHexDigit(hi) && IsHexDigit(lo)
    ensures 0 <= b < 256
  {
    16 * HexVal(hi) + HexVal(lo)
  }

  /** Six digits: red, green and blue are the digit pairs 1-2, 3-4 and 5-6. */
  lemma SixDigitChannels(hex: string, alpha: real)
    requires ValidHex(hex) && |Sanitize(hex)| == 6
    ensures var s := Sanitize(hex);
            ToRgba(hex, alpha) == Rgba(Byte(s[0], s[1]), Byte(s[2], s[3]), Byte(s[4], s[5]), alpha)
  {
    var s := Sanitize(hex);
    PairsOfSix(s);
    JsChannels(ParseHex(s));
  }

  lemma PairsOfSix(s: string)
    requires |s| == 6 && AllHex(s)
    ensures var v := ParseHex(s);
            (v / 0x1_0000) % 256 == Byte(s[0], s[1]) &&
            (v / 0x100) % 256 == Byte(s[2], s[3]) &&
            v % 256 == Byte(s[4], s[5])
  {
    var hi, mid, lo := Byte(s[0], s[1]), Byte(s[2], s[3]), Byte(s[4], s[5]);
    SixDigitValue(s);
    DigitsOfBase256(hi, mid, lo);
  }

  lemma SixDigitValue(s: string)
    requires |s| == 6 && AllHex(s)
    ensures ParseHex(s) == Byte(s[0], s[1]) * 0x1_0000 + Byte(s[2], s[3]) * 0x100 + Byte(s[4], s[5])
  {
    assert s[..6] == s;
    assert s[..0] == [];
    ParseHexStep(s, 1);
    ParseHexStep(s, 2);
    ParseHexStep(s, 3);
    ParseHexStep(s, 4);
    ParseHexStep(s, 5);
    ParseHexStep(s, 6);
  }

  lemma DigitsOfBase256(hi: int, mid: int, lo: int)
    requires 0 <= hi < 256 && 0 <= mid < 256 && 0 <= lo < 256
    ensures var v := hi * 0x1_0000 + mid * 0x100 + lo;
            (v / 0x1_0000) % 256 == hi && (v / 0x100) % 256 == mid && v % 256 == lo
  {
    var v := hi * 0x1_0000 + mid * 0x100 + lo;
    assert v / 0x1_0000 == hi;
    assert v / 0x100 == hi * 0x100 + mid;
  }

  /** Three digits: each channel is its digit doubled, i.e. 17 times the digit. */
  lemma ThreeDigitChannels(hex: string, alpha: real)
    requires ValidHex(hex) && |Sanitize(hex)| == 3
    ensures var s := Sanitize(hex);
            ToRgba(hex, alpha) == Rgba(17 * HexVal(s[0]), 17 * HexVal(s[1]), 17 * HexVal(s[2]), alpha)
  {
    var s := Sanitize(hex);
    var d := Doubled(s);
    assert d[0] == d[1] == s[0] && d[2] == d[3] == s[1] && d[4] == d[5] == s[2];
    PairsOfSix(d);
    JsChannels(ParseHex(d));
  }

  /** `#2af` is `#22aaff`: the short form equals the long form with every digit doubled. */
  lemma ShortFormIsDoubledLongForm(hex: string, alpha: real)
    requires ValidHex(hex) && |Sanitize(hex)| == 3
    ensures ValidHex("#" + Doubled(Sanitize(hex)))
    ensures ToRgba(hex, alpha) == ToRgba("#" + Doubled(Sanitize(hex)), alpha)
  {
    var long := "#" + Doubled(Sanitize(hex));
    assert Sanitize(long) == Doubled(Sanitize(hex));
  }

  /** The strip takes away one '#': a second leading '#' stays and makes the input malformed. */
  lemma OnlyFirstHashStripped(s: string)
    ensures Sanitize("#" + s) == s
    ensures !ValidHex("##" + s)
  {
    assert ("##" + s)[1..] == "#" + s;
    assert Sanitize("##" + s)[0] == '#';
  }

  /** The first '#' goes wherever it stands: `a + "#" + b` reads as `a + b`. */
  lemma {:induction false} HashAnywhere(a: string, b: string)
    requires '#' !in a
    ensures Sanitize(a + "#" + b) == a + b
  {
    if a != [] {
      assert (a + "#" + b)[1..] == a[1..] + "#" + b;
      HashAnywhere(a[1..], b);
      assert [a[0]] + (a[1..] + b) == a + b;
    }
  }

  lemma ShortDigits()
    ensures AllHex("2af") && AllHex("22aaff")
  {
    assert forall i :: 0 <= i < 3 ==> "2af"[i] in "0123456789abcdef";
    assert forall i :: 0 <= i < 6 ==> "22aaff"[i] in "0123456789abcdef";
  }

  /** `#2af` is `#22aaff`, the colour (0x22, 0xaa, 0xff). */
  lemma ShortFormExample(alpha: real)
    ensures ValidHex("#2af") && ValidHex("#22aaff")
    ensures ToRgba("#2af", alpha) == ToRgba("#22aaff", alpha) == Rgba(0x22, 0xaa, 0xff, alpha)
  {
    ShortDigits();
    OnlyFirstHashStripped("2af");
    OnlyFirstHashStripped("22aaff");
    ThreeDigitChannels("#2af", alpha);
    SixDigitChannels("#22aaff", alpha);
  }

  /** `2a#f` loses its '#' in the middle and reads as `#2af`. */
  lemma HashInsideExample(alpha: real)
    ensures ValidHex("2a#f") && ValidHex("#2af")
    ensures ToRgba("2a#f", alpha) == ToRgba("#2af", alpha)
  {
    ShortDigits();
    HashAnywhere("2a", "f");
    assert "2a" + "#" + "f" == "2a#f";
    assert "2a" + "f" == "2af";
    OnlyFirstHashStripped("2af");
  }

  // ---------------------------------------------------------------------------
  // The colours the page itself stores

  /** What an `<input type="color">` yields and what every catalog accent is: '#' and six digits. */
  predicate IsSimpleColor(s: string) {
    |s| == 7 && s[0] == '#' && AllHex(s[1..])
  }

  lemma SimpleColorChannels(s: string, alpha: real)
    requires IsSimpleColor(s)
    ensures Sanitize(s) == s[1..] && ValidHex(s)
    ensures ToRgba(s, alpha) == Rgba(Byte(s[1], s[2]), Byte(s[3], s[4]), Byte(s[5], s[6]), alpha)
  {
    SixDigitChannels(s, alpha);
  }
}
