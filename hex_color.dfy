/**
 * `hexFromRGB` (app.jsx): the `#RRGGBB` notation of CSS Color Module Level 4,
 * section 5.2, built from `Number.prototype.toString(16)` of each rounded
 * channel, padded to two digits and upper-cased; and a parser for that
 * notation, which is its partner in the round-trip lemmas below.
 */
module HexColor {
  import opened Wrappers
  import opened Rounding

  predicate IsLowerHexDigit(c: char) { '0' <= c <= '9' || 'a' <= c <= 'f' }
  predicate IsUpperHexDigit(c: char) { '0' <= c <= '9' || 'A' <= c <= 'F' }
  predicate IsHexDigit(c: char) { IsLowerHexDigit(c) || IsUpperHexDigit(c) }

  predicate AllLowerHex(s: string) { forall i :: 0 <= i < |s| ==> IsLowerHexDigit(s[i]) }
  predicate AllHex(s: string) { forall i :: 0 <= i < |s| ==> IsHexDigit(s[i]) }

  /** The digit `toString(16)` writes for `d < 16` (lower case, as JavaScript does). */
  function Digit(d: nat): (c: char)
    requires d < 16
    ensures IsLowerHexDigit(c) && DigitValue(c) == d
  {
    if d < 10 then ('0' as int + d) as char else ('a' as int + d - 10) as char
  }

  /** The value of one hex digit of either case. */
  function DigitValue(c: char): (v: nat)
    requires IsHexDigit(c)
    ensures v < 16
  {
    if '0' <= c <= '9' then c as int - '0' as int
    else if 'a' <= c <= 'f' then c as int - 'a' as int + 10
    else c as int - 'A' as int + 10
  }

  /** The number a string of hex digits denotes, most significant digit first. */
  function ValueOf(s: string): nat
    requires AllHex(s)
  {
    if s == [] then 0 else 16 * ValueOf(s[..|s| - 1]) + DigitValue(s[|s| - 1])
  }

  /** `n.toString(16)`: the shortest lower-case base-16 spelling of `n`. */
  function Base16(n: nat): (s: string)
    ensures AllLowerHex(s) && ValueOf(s) == n
    ensures |s| == 1 <==> n < 16
    ensures n < 256 ==> |s| <= 2
    ensures |s| >= 1
  {
    if n < 16 then
      [Digit(n)]
    else
      var s := Base16(n / 16) + [Digit(n % 16)];
      assert s[..|s| - 1] == Base16(n / 16);
      s
  }

  lemma TwoDigits(s: string)
    requires |s| == 2 && AllHex(s)
    ensures ValueOf(s) == 16 * DigitValue(s[0]) + DigitValue(s[1])
  {
    var p := s[..1];
    assert p[..0] == [] && p[0] == s[0];
    assert ValueOf(p) == DigitValue(s[0]);
  }

  /** `toHex(v)` with `v = num / den`: `Math.round(v).toString(16)`, padded with one `0` when it has a single digit. */
  function ToHex(num: nat, den: nat): (s: string)
    requires den > 0
    ensures AllLowerHex(s) && ValueOf(s) == RoundHalfUp(num, den)
    ensures |s| >= 2
    ensures RoundHalfUp(num, den) < 256 ==> |s| == 2
  {
    var h := Base16(RoundHalfUp(num, den));
    if |h| == 1 then
      var s := "0" + h;
      TwoDigits(s);
      assert h[..0] == [];
      s
    else
      h
  }

  /** `String.prototype.toUpperCase` on the ASCII letters it meets here. */
  function UpperChar(c: char): char
  {
    if 'a' <= c <= 'z' then (c as int - 32) as char else c
  }

  function ToUpper(s: string): (u: string)
    ensures |u| == |s|
    ensures forall i :: 0 <= i < |s| ==> u[i] == UpperChar(s[i])
  {
    seq(|s|, i requires 0 <= i < |s| => UpperChar(s[i]))
  }

  /**
   * `hexFromRGB(r / den, g / den, b / den)`: the page calls it with the
   * channel means, which are fractions over the pixel count.
   */
  function HexFromRGB(r: nat, g: nat, b: nat, den: nat): (s: string)
    requires den > 0
    ensures |s| >= 7 && s[0] == '#'
    ensures forall i :: 1 <= i < |s| ==> IsUpperHexDigit(s[i])
  {
    UpperSpelling(ToHex(r, den), ToHex(g, den), ToHex(b, den));
    ToUpper("#" + ToHex(r, den) + ToHex(g, den) + ToHex(b, den))
  }

  lemma UpperSpelling(x: string, y: string, z: string)
    requires AllLowerHex(x) && AllLowerHex(y) && AllLowerHex(z)
    ensures var s := ToUpper("#" + x + y + z);
      s[0] == '#' && forall i :: 1 <= i < |s| ==> IsUpperHexDigit(s[i])
  {
    var t := "#" + x + y + z;
    forall i | 1 <= i < |t| ensures IsLowerHexDigit(t[i]) {
      if i < 1 + |x| { assert t[i] == x[i - 1]; }
      else if i < 1 + |x| + |y| { assert t[i] == y[i - 1 - |x|]; }
      else { assert t[i] == z[i - 1 - |x| - |y|]; }
    }
  }

  datatype Rgb = Rgb(r: nat, g: nat, b: nat)

  /** `#RRGGBB` with upper-case digits, the form `hexFromRGB` produces. */
  predicate IsUpperHexColor(s: string)
  {
    |s| == 7 && s[0] == '#' && forall i :: 1 <= i < 7 ==> IsUpperHexDigit(s[i])
  }

  /** Reads the six-digit `#RRGGBB` notation (digits of either case); anything else is rejected. */
  function ParseHexColor(s: string): (c: Option<Rgb>)
    ensures c.Some? <==> |s| == 7 && s[0] == '#' && AllHex(s[1..])
    ensures c.Some? ==> c.value.r < 256 && c.value.g < 256 && c.value.b < 256
  {
    if |s| == 7 && s[0] == '#' && AllHex(s[1..]) then
      assert AllHex(s[1..3]) && AllHex(s[3..5]) && AllHex(s[5..7]) by {
        forall i | 1 <= i < 7 ensures IsHexDigit(s[i]) { assert s[1..][i - 1] == s[i]; }
      }
      TwoDigits(s[1..3]);
      TwoDigits(s[3..5]);
      TwoDigits(s[5..7]);
      Some(Rgb(ValueOf(s[1..3]), ValueOf(s[3..5]), ValueOf(s[5..7])))
    else
      None
  }

  lemma UpperKeepsValue(c: char)
    requires IsLowerHexDigit(c)
    ensures IsUpperHexDigit(UpperChar(c)) && DigitValue(UpperChar(c)) == DigitValue(c)
  {
  }

  /** Upper-casing two lower-case digits keeps the value they spell. */
  lemma UpperPair(t: string)
    requires |t| == 2 && AllLowerHex(t)
    ensures var u := ToUpper(t); IsUpperHexDigit(u[0]) && IsUpperHexDigit(u[1]) && ValueOf(u) == ValueOf(t)
  {
    var u := ToUpper(t);
    UpperKeepsValue(t[0]);
    UpperKeepsValue(t[1]);
    TwoDigits(t);
    TwoDigits(u);
  }

  lemma UpperDistributes(x: string, y: string, z: string)
    ensures ToUpper("#" + x + y + z) == "#" + ToUpper(x) + ToUpper(y) + ToUpper(z)
  {
    var l, r := ToUpper("#" + x + y + z), "#" + ToUpper(x) + ToUpper(y) + ToUpper(z);
    forall i | 0 <= i < |l| ensures l[i] == r[i] {
      if i == 0 { }
      else if i < 1 + |x| { }
      else if i < 1 + |x| + |y| { }
      else { }
    }
  }

  /** A `#` followed by three upper-case digit pairs is a colour, and it parses to the pairs' values. */
  lemma Assemble(x: string, y: string, z: string)
    requires |x| == 2 && IsUpperHexDigit(x[0]) && IsUpperHexDigit(x[1])
    requires |y| == 2 && IsUpperHexDigit(y[0]) && IsUpperHexDigit(y[1])
    requires |z| == 2 && IsUpperHexDigit(z[0]) && IsUpperHexDigit(z[1])
    ensures IsUpperHexColor("#" + x + y + z)
    ensures ParseHexColor("#" + x + y + z) == Some(Rgb(ValueOf(x), ValueOf(y), ValueOf(z)))
  {
    var s := "#" + x + y + z;
    assert s == ['#', x[0], x[1], y[0], y[1], z[0], z[1]];
    assert s[1..3] == x && s[3..5] == y && s[5..7] == z;
    forall i | 1 <= i < 7 ensures IsUpperHexDigit(s[i]) {
      if i == 1 || i == 2 { assert s[i] == x[i - 1]; }
      else if i == 3 || i == 4 { assert s[i] == y[i - 3]; }
      else { assert s[i] == z[i - 5]; }
    }
    assert AllHex(s[1..]);
    assert ParseHexColor(s) == Some(Rgb(ValueOf(s[1..3]), ValueOf(s[3..5]), ValueOf(s[5..7])));
  }

  /**
   * For channels whose rounded values are in 0..255, `hexFromRGB` gives `#`
   * and six upper-case digits, and reading them back gives the rounded channels.
   */
  lemma {:induction false} HexRoundTrip(r: nat, g: nat, b: nat, den: nat)
    requires den > 0
    requires r <= 255 * den && g <= 255 * den && b <= 255 * den
    ensures IsUpperHexColor(HexFromRGB(r, g, b, den))
    ensures ParseHexColor(HexFromRGB(r, g, b, den))
         == Some(Rgb(RoundHalfUp(r, den), RoundHalfUp(g, den), RoundHalfUp(b, den)))
  {
    RoundAtMost(r, den, 255);
    RoundAtMost(g, den, 255);
    RoundAtMost(b, den, 255);
    var x, y, z := ToHex(r, den), ToHex(g, den), ToHex(b, den);
    UpperDistributes(x, y, z);
    UpperPair(x);
    UpperPair(y);
    UpperPair(z);
    Assemble(ToUpper(x), ToUpper(y), ToUpper(z));
  }

  lemma SameValueSameChar(t: char, u: char)
    requires IsLowerHexDigit(t) && IsUpperHexDigit(u) && DigitValue(t) == DigitValue(u)
    ensures UpperChar(t) == u
  {
  }

  /** An upper-case digit pair is spelled back the same by `toHex` of its value. */
  lemma {:induction false} PairRespelled(p: string)
    requires |p| == 2 && IsUpperHexDigit(p[0]) && IsUpperHexDigit(p[1])
    ensures ToUpper(ToHex(ValueOf(p), 1)) == p
  {
    TwoDigits(p);
    var v := ValueOf(p);
    var t := ToHex(v, 1);
    TwoDigits(t);
    SameValueSameChar(t[0], p[0]);
    SameValueSameChar(t[1], p[1]);
  }

  /**
   * The other direction: every `#RRGGBB` colour with upper-case digits is
   * what `hexFromRGB` makes of the channels it denotes.
   */
  lemma {:induction false} HexParseFormat(s: string)
    requires IsUpperHexColor(s)
    ensures ParseHexColor(s).Some?
    ensures var c := ParseHexColor(s).value; HexFromRGB(c.r, c.g, c.b, 1) == s
  {
    var x, y, z := s[1..3], s[3..5], s[5..7];
    assert s == "#" + x + y + z;
    Assemble(x, y, z);
    PairRespelled(x);
    PairRespelled(y);
    PairRespelled(z);
    UpperDistributes(ToHex(ValueOf(x), 1), ToHex(ValueOf(y), 1), ToHex(ValueOf(z), 1));
  }
}
