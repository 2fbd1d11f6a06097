/**
 * The CSS hex colour notation `#RGB`, `#RGBA`, `#RRGGBB`, `#RRGGBBAA` (CSS Color Module Level 4,
 * section 5.2) as the editor reads and writes it. The decoder is the same code in all three colour
 * picker revisions: drop the first "#", trim, accept only 3, 4, 6 or 8 characters, double each
 * character of the short forms, and read each pair with `parseInt(pair, 16)`, which does not
 * validate: it skips leading white space, takes a sign and an `0x` prefix, and reads the longest
 * run of hex digits, giving NaN when there is none. The encoder rounds and clamps each value and
 * writes it with `toString(16).padStart(2, "0")`.
 */
module Hex {
  import opened Js
  import opened Wrappers
  import Text

  /** The value of a radix-16 digit in either case, or -1 for any other character. */
  function DigitValue(c: char): int
  {
    if '0' <= c <= '9' then c as int - '0' as int
    else if 'a' <= c <= 'f' then c as int - 'a' as int + 10
    else if 'A' <= c <= 'F' then c as int - 'A' as int + 10
    else -1
  }

  predicate IsDigit(c: char) { DigitValue(c) >= 0 }

  /** The lowercase digit `Number.prototype.toString(16)` writes for a value below 16. */
  function Digit(d: int): char
    requires 0 <= d < 16
  {
    "0123456789abcdef"[d]
  }

  lemma DigitFacts(d: int)
    requires 0 <= d < 16
    ensures DigitValue(Digit(d)) == d && IsLowerHexDigit(Digit(d))
  {
    if d < 8 {
      if d < 4 { if d < 2 {} else {} } else { if d < 6 {} else {} }
    } else {
      if d < 12 { if d < 10 {} else {} } else { if d < 14 {} else {} }
    }
  }

  /** The length of the run of hex digits that starts `s`. */
  function DigitRun(s: string): (n: nat)
    ensures n <= |s|
    ensures forall i :: 0 <= i < n ==> IsDigit(s[i])
    ensures n < |s| ==> !IsDigit(s[n])
  {
    if |s| > 0 && IsDigit(s[0]) then 1 + DigitRun(s[1..]) else 0
  }

  /** The number a string of hex digits denotes, most significant digit first. */
  function ValueOf(digits: string): nat
    requires forall i :: 0 <= i < |digits| ==> IsDigit(digits[i])
  {
    if |digits| == 0 then 0
    else
      var last := digits[|digits| - 1];
      assert IsDigit(last);
      ValueOf(digits[..|digits| - 1]) * 16 + DigitValue(last)
  }

  /** `parseInt(s, 16)`, following the steps of the ECMAScript `parseInt` algorithm: leading white
    * space is skipped, then a sign, then an `0x` prefix, then the longest run of digits is read. */
  function ParseInt16(s: string): Number
  {
    ParseSigned(Text.TrimStart(s))
  }

  /** The sign step: "-" negates what follows, "+" is dropped. */
  function ParseSigned(t: string): Number
  {
    if |t| > 0 && t[0] == '-' then
      (match ParseUnsigned(t[1..]) case NaN => NaN case Num(v) => Num(-v))
    else if |t| > 0 && t[0] == '+' then ParseUnsigned(t[1..])
    else ParseUnsigned(t)
  }

  /** The radix-prefix step: with radix 16 an `0x` or `0X` prefix is dropped. */
  function ParseUnsigned(u: string): Number
  {
    if |u| >= 2 && u[0] == '0' && (u[1] == 'x' || u[1] == 'X') then ParseRun(u[2..]) else ParseRun(u)
  }

  /** The digit step: the longest run of digits, NaN when there is none. */
  function ParseRun(b: string): Number
  {
    var n := DigitRun(b);
    if n == 0 then NaN else Num(ValueOf(b[..n]) as real)
  }

  /** `s.replace(c, "")` with a one-character pattern: only the first occurrence goes. */
  function RemoveFirst(s: string, c: char): (r: string)
    ensures c !in s ==> r == s
    ensures c in s ==> |r| == |s| - 1
    ensures forall x :: x in r ==> x in s
  {
    if |s| == 0 then s
    else if s[0] == c then s[1..]
    else [s[0]] + RemoveFirst(s[1..], c)
  }

  /** `s.split("").map(ch => ch + ch).join("")`. */
  function Expand(s: string): (r: string)
    ensures |r| == 2 * |s|
    ensures forall i :: 0 <= i < |s| ==> r[2 * i] == s[i] && r[2 * i + 1] == s[i]
  {
    if |s| == 0 then "" else [s[0], s[0]] + Expand(s[1..])
  }

  /** The text that the decoder measures: the first "#" removed, then trimmed. */
  function Stripped(hex: string): string
  {
    Text.Trim(RemoveFirst(hex, '#'))
  }

  predicate ValidLength(n: int) { n == 3 || n == 4 || n == 6 || n == 8 }

  /** A decoded colour: each component is whatever `parseInt` gave, NaN and negatives included. */
  datatype RGBA = RGBA(r: Number, g: Number, b: Number, a: Number)

  /** `parseInt(pair, 16)` on a string of exactly two characters, written out case by case;
    * `PairValueIsParseInt` proves it equal to `ParseInt16([c0, c1])`. */
  function PairValue(c0: char, c1: char): Number
  {
    if Text.IsSpace(c0) || c0 == '+' then (if IsDigit(c1) then Num(DigitValue(c1) as real) else NaN)
    else if c0 == '-' then (if IsDigit(c1) then Num(-(DigitValue(c1) as real)) else NaN)
    else if !IsDigit(c0) then NaN
    else if c0 == '0' && (c1 == 'x' || c1 == 'X') then NaN
    else if IsDigit(c1) then Num((DigitValue(c0) * 16 + DigitValue(c1)) as real)
    else Num(DigitValue(c0) as real)
  }

  /** `parseInt(e.slice(i, i + 2), 16)`. */
  function PairAt(e: string, i: nat): Number
    requires i + 2 <= |e|
  {
    PairValue(e[i], e[i + 1])
  }

  /** `hex2RGBA` of source/elements/color_picker.ts, identical to `RGBA_MODEL.fromHex` of
    * source/elements.ts and to the string case of `hex2RGBA` in elements.js. */
  function Hex2RGBA(hex: string): (r: Option<RGBA>)
    ensures r.None? <==> !ValidLength(|Stripped(hex)|)
  {
    Decode(Stripped(hex))
  }

  /** The decoder after the "#" is removed and the text trimmed. */
  function Decode(s: string): (r: Option<RGBA>)
    ensures r.None? <==> !ValidLength(|s|)
  {
    if !ValidLength(|s|) then None
    else
      var e := if |s| == 3 || |s| == 4 then Expand(s) else s;
      Some(RGBA(PairAt(e, 0), PairAt(e, 2), PairAt(e, 4), if |e| == 8 then PairAt(e, 6) else Num(255.0)))
  }

  // ---------------------------------------------------------------- encoding

  /** `n.toString(16)` for a non-negative integer. */
  function ToString16(n: nat): (r: string)
    ensures |r| >= 1
    ensures n < 16 <==> |r| == 1
  {
    if n < 16 then [Digit(n)] else ToString16(n / 16) + [Digit(n % 16)]
  }

  /** `s.padStart(width, c)`. */
  function PadStart(s: string, width: nat, c: char): (r: string)
    ensures |r| == if |s| >= width then |s| else width
    decreases width - |s|
  {
    if |s| >= width then s else PadStart([c] + s, width, c)
  }

  /** `Math.min(Math.max(n, 0), 255)`. */
  function Clamp255(n: int): (r: int)
    ensures 0 <= r <= 255
    ensures 0 <= n <= 255 ==> r == n
  {
    if n < 0 then 0 else if n > 255 then 255 else n
  }

  /** One component as the encoders write it: rounded, clamped, two lowercase hex digits; NaN
    * survives `Math.round`, `Math.max` and `Math.min` and prints as "NaN". */
  function EncodeComponent(x: Number): string
  {
    match x
    case NaN => "NaN"
    case Num(v) => PadStart(ToString16(Clamp255(Round(v))), 2, '0')
  }

  function EncodeAll(values: seq<Number>): string
  {
    if |values| == 0 then "" else EncodeComponent(values[0]) + EncodeAll(values[1..])
  }

  /** `RGBorRGBA2Hex` of source/elements/color_picker.ts. */
  function Encode(values: seq<Number>): string
  {
    "#" + EncodeAll(values)
  }

  /** The four-component encoding both RGBA models write: `RGBA_MODEL.toHex` of
    * source/elements/color_picker.ts and of source/elements.ts. */
  function EncodeRGBA(c: RGBA): string
  {
    Encode([c.r, c.g, c.b, c.a])
  }

  /** A component that survives the encoder unchanged: a whole number in [0, 255]. */
  predicate IsByte(x: Number)
  {
    x.Num? && 0.0 <= x.value <= 255.0 && x.value.Floor as real == x.value
  }

  predicate IsLowerHexDigit(c: char) { '0' <= c <= '9' || 'a' <= c <= 'f' }

  predicate AllLowerHex(s: string) { forall i :: 0 <= i < |s| ==> IsLowerHexDigit(s[i]) }

  // ---------------------------------------------------------------- lemmas

  /** Two hex digits are what `toString(16).padStart(2, "0")` writes for a value below 256. */
  lemma HexByteDigits(n: int)
    requires 0 <= n <= 255
    ensures PadStart(ToString16(n), 2, '0') == [Digit(n / 16), Digit(n % 16)]
  {
    if n < 16 {
      assert ToString16(n) == [Digit(n)];
      assert PadStart(ToString16(n), 2, '0') == PadStart(['0'] + [Digit(n)], 2, '0');
      assert Digit(0) == '0';
    } else {
      assert n / 16 < 16;
      assert ToString16(n) == [Digit(n / 16)] + [Digit(n % 16)];
    }
  }

  /** The encoder writes every finite component as two lowercase hex digits of the clamped value. */
  lemma EncodeComponentDigits(x: Number)
    requires x.Num?
    ensures var n := Clamp255(Round(x.value));
      EncodeComponent(x) == [Digit(n / 16), Digit(n % 16)]
  {
    HexByteDigits(Clamp255(Round(x.value)));
  }

  lemma EncodeComponentShape(x: Number)
    requires x.Num?
    ensures |EncodeComponent(x)| == 2 && AllLowerHex(EncodeComponent(x))
  {
    var n := Clamp255(Round(x.value));
    SplitByte(n);
    var hi, lo := n / 16, n % 16;
    EncodeComponentDigits(x);
    var d := [Digit(hi), Digit(lo)];
    DigitFacts(hi);
    DigitFacts(lo);
    assert EncodeComponent(x) == d;
    assert AllLowerHex(d);
  }

  lemma {:induction false} EncodeLength(values: seq<Number>)
    requires forall i :: 0 <= i < |values| ==> values[i].Num?
    ensures |EncodeAll(values)| == 2 * |values|
  {
    if |values| > 0 {
      EncodeComponentShape(values[0]);
      EncodeLength(values[1..]);
      assert EncodeAll(values) == EncodeComponent(values[0]) + EncodeAll(values[1..]);
    }
  }

  lemma LowerHexConcat(a: string, b: string)
    requires AllLowerHex(a) && AllLowerHex(b)
    ensures AllLowerHex(a + b)
  {
    forall i | 0 <= i < |a + b|
      ensures IsLowerHexDigit((a + b)[i])
    {
      if i < |a| {
        assert (a + b)[i] == a[i];
      } else {
        assert (a + b)[i] == b[i - |a|];
      }
    }
  }

  lemma {:induction false} EncodeDigits(values: seq<Number>)
    requires forall i :: 0 <= i < |values| ==> values[i].Num?
    ensures AllLowerHex(EncodeAll(values))
  {
    if |values| > 0 {
      EncodeComponentShape(values[0]);
      var head := EncodeComponent(values[0]);
      var rest := EncodeAll(values[1..]);
      EncodeDigits(values[1..]);
      LowerHexConcat(head, rest);
      assert EncodeAll(values) == head + rest;
    }
  }

  /** For finite values the output is "#" followed by two lowercase hex digits per value. */
  lemma EncodeShape(values: seq<Number>)
    requires forall i :: 0 <= i < |values| ==> values[i].Num?
    ensures |EncodeAll(values)| == 2 * |values|
    ensures AllLowerHex(EncodeAll(values))
    ensures |Encode(values)| == 1 + 2 * |values| && Encode(values)[0] == '#'
  {
    EncodeLength(values);
    EncodeDigits(values);
  }

  // ---------------------------------------------------------------- parseInt on a pair

  /** The digit step on zero, one and two characters. */
  lemma ParseRunShort(c0: char, c1: char)
    ensures ParseRun([]) == NaN
    ensures ParseRun([c0]) == if IsDigit(c0) then Num(DigitValue(c0) as real) else NaN
    ensures ParseRun([c0, c1]) ==
      if !IsDigit(c0) then NaN
      else if IsDigit(c1) then Num((DigitValue(c0) * 16 + DigitValue(c1)) as real)
      else Num(DigitValue(c0) as real)
  {
    assert [c0][1..] == [] && [c0][..1] == [c0] && [c0][..0] == [];
    if IsDigit(c0) {
      assert DigitRun([c0]) == 1;
      assert ValueOf([c0]) == DigitValue(c0);
    }
    var s := [c0, c1];
    assert s[1..] == [c1] && [c1][1..] == [];
    if IsDigit(c0) && IsDigit(c1) {
      assert DigitRun([c1]) == 1;
      assert DigitRun(s) == 2;
      assert s[..2] == s && s[..1] == [c0];
      assert ValueOf([c0]) == DigitValue(c0);
      assert ValueOf(s) == ValueOf([c0]) * 16 + DigitValue(c1);
    } else if IsDigit(c0) {
      assert DigitRun(s) == 1;
      assert s[..1] == [c0];
    }
  }

  /** White space is neither a digit nor a sign. */
  lemma SpaceIsNotDigit(c: char)
    requires Text.IsSpace(c)
    ensures !IsDigit(c) && c != '-' && c != '+'
  {
  }

  /** `trimStart` on two characters. */
  lemma TrimStartPair(c0: char, c1: char)
    ensures Text.TrimStart([c0, c1]) ==
      if !Text.IsSpace(c0) then [c0, c1] else if !Text.IsSpace(c1) then [c1] else []
  {
    assert [c0, c1][1..] == [c1] && [c1][1..] == [];
  }

  /** The sign and prefix steps on one character. */
  lemma ParseSignedOne(c: char)
    ensures ParseSigned([c]) == if IsDigit(c) then Num(DigitValue(c) as real) else NaN
  {
    ParseRunShort(c, c);
    assert [c][1..] == [];
  }

  /** The sign and prefix steps on two characters, the first of which is not white space. */
  lemma ParseSignedPair(c0: char, c1: char)
    requires !Text.IsSpace(c0)
    ensures c0 == '-' ==>
      ParseSigned([c0, c1]) == (if IsDigit(c1) then Num(-(DigitValue(c1) as real)) else NaN)
    ensures c0 == '+' ==>
      ParseSigned([c0, c1]) == (if IsDigit(c1) then Num(DigitValue(c1) as real) else NaN)
    ensures c0 != '-' && c0 != '+' ==> ParseSigned([c0, c1]) == ParseUnsigned([c0, c1])
  {
    var s := [c0, c1];
    assert s[1..] == [c1];
    ParseRunShort(c1, c1);
    assert [c1][1..] == [];
  }

  /** The prefix and digit steps on two characters: "0x" reads as NaN, otherwise the run. */
  lemma ParseUnsignedPair(c0: char, c1: char)
    ensures ParseUnsigned([c0, c1]) ==
      if c0 == '0' && (c1 == 'x' || c1 == 'X') then NaN else ParseRun([c0, c1])
  {
    assert [c0, c1][2..] == [];
    ParseRunShort(c0, c1);
  }

  /** The case analysis of `PairValue` is `parseInt` on the two-character string. */
  lemma PairValueIsParseInt(c0: char, c1: char)
    ensures PairValue(c0, c1) == ParseInt16([c0, c1])
  {
    TrimStartPair(c0, c1);
    if Text.IsSpace(c0) {
      SpaceIsNotDigit(c0);
      if Text.IsSpace(c1) {
        SpaceIsNotDigit(c1);
        assert ParseSigned([]) == NaN by { ParseRunShort(c0, c1); }
      } else {
        ParseSignedOne(c1);
      }
    } else {
      ParseSignedPair(c0, c1);
      ParseUnsignedPair(c0, c1);
      ParseRunShort(c0, c1);
    }
  }

  // ---------------------------------------------------------------- round trip

  lemma SplitByte(n: int)
    requires 0 <= n <= 255
    ensures 0 <= n / 16 < 16 && 0 <= n % 16 < 16 && (n / 16) * 16 + n % 16 == n
  {
  }

  /** The two digits the encoder writes for a value below 256 are read back as that value. */
  lemma ParseByte(n: int)
    requires 0 <= n <= 255
    ensures PairValue(Digit(n / 16), Digit(n % 16)) == Num(n as real)
  {
    var hi, lo := n / 16, n % 16;
    SplitByte(n);
    DigitFacts(hi);
    DigitFacts(lo);
    var c0, c1 := Digit(hi), Digit(lo);
    assert !Text.IsSpace(c0) && c0 != '+' && c0 != '-' && IsDigit(c0) && IsDigit(c1);
    assert PairValue(c0, c1) == Num((hi * 16 + lo) as real);
  }

  lemma RoundOfByte(x: Number)
    requires IsByte(x)
    ensures Clamp255(Round(x.value)) as real == x.value
  {
  }

  /** `parseInt` reads back every component the encoder writes for a whole number in [0, 255]. */
  lemma ParseComponent(x: Number)
    requires IsByte(x)
    ensures var e := EncodeComponent(x);
      |e| == 2 && PairValue(e[0], e[1]) == x && ParseInt16(e) == x
  {
    RoundOfByte(x);
    var n := Clamp255(Round(x.value));
    EncodeComponentDigits(x);
    ParseByte(n);
    var e := EncodeComponent(x);
    PairValueIsParseInt(e[0], e[1]);
    assert e == [e[0], e[1]];
  }

  /** A string of one-character-per-colour digits never starts or ends in white space. */
  lemma DigitsAreTrimmed(s: string)
    requires |s| > 0 && AllLowerHex(s)
    ensures Text.Trim(s) == s
  {
    Text.TrimOfTrimmed(s);
  }

  /** The decoder sees exactly the digits written after a leading "#". */
  lemma StrippedOfDigits(t: string)
    requires |t| > 0 && AllLowerHex(t)
    ensures Stripped("#" + t) == t
  {
    assert RemoveFirst("#" + t, '#') == t;
    DigitsAreTrimmed(t);
  }

  /** Eight digits after a "#" decode pair by pair. */
  lemma DecodeDigits8(p: string, q: string, u: string, w: string)
    requires |p| == 2 && |q| == 2 && |u| == 2 && |w| == 2
    requires AllLowerHex(p + q + u + w)
    ensures Hex2RGBA("#" + (p + q + u + w)) ==
      Some(RGBA(PairValue(p[0], p[1]), PairValue(q[0], q[1]), PairValue(u[0], u[1]), PairValue(w[0], w[1])))
  {
    var t := p + q + u + w;
    StrippedOfDigits(t);
    assert t[0] == p[0] && t[1] == p[1] && t[2] == q[0] && t[3] == q[1];
    assert t[4] == u[0] && t[5] == u[1] && t[6] == w[0] && t[7] == w[1];
  }

  /** Six digits after a "#" decode pair by pair, opaque. */
  lemma DecodeDigits6(p: string, q: string, u: string)
    requires |p| == 2 && |q| == 2 && |u| == 2
    requires AllLowerHex(p + q + u)
    ensures Hex2RGBA("#" + (p + q + u)) ==
      Some(RGBA(PairValue(p[0], p[1]), PairValue(q[0], q[1]), PairValue(u[0], u[1]), Num(255.0)))
  {
    var t := p + q + u;
    StrippedOfDigits(t);
    assert t[0] == p[0] && t[1] == p[1] && t[2] == q[0] && t[3] == q[1];
    assert t[4] == u[0] && t[5] == u[1];
  }

  lemma EncodeCons(x: Number, rest: seq<Number>)
    ensures EncodeAll([x] + rest) == EncodeComponent(x) + EncodeAll(rest)
  {
    assert ([x] + rest)[1..] == rest;
  }

  lemma EncodeAllThree(r: Number, g: Number, b: Number)
    ensures EncodeAll([r, g, b]) == EncodeComponent(r) + EncodeComponent(g) + EncodeComponent(b)
  {
    var p, q, u := EncodeComponent(r), EncodeComponent(g), EncodeComponent(b);
    assert [r, g, b][1..] == [g, b];
    assert [g, b][1..] == [b];
    assert EncodeAll([b]) == EncodeComponent(b) by { assert [b][1..] == []; }
    assert EncodeAll([r, g, b]) == p + (q + u);
    assert p + (q + u) == p + q + u;
  }

  lemma EncodeFour(r: Number, g: Number, b: Number, a: Number)
    ensures Encode([r, g, b, a]) ==
      "#" + (EncodeComponent(r) + EncodeComponent(g) + EncodeComponent(b) + EncodeComponent(a))
  {
    var p, q, u, w := EncodeComponent(r), EncodeComponent(g), EncodeComponent(b), EncodeComponent(a);
    EncodeAllThree(g, b, a);
    EncodeCons(r, [g, b, a]);
    assert [r] + [g, b, a] == [r, g, b, a];
    assert EncodeAll([r, g, b, a]) == p + (q + u + w);
    assert p + (q + u + w) == p + q + u + w;
  }

  lemma EncodeThree(r: Number, g: Number, b: Number)
    ensures Encode([r, g, b]) == "#" + (EncodeComponent(r) + EncodeComponent(g) + EncodeComponent(b))
  {
    EncodeAllThree(r, g, b);
  }

  /** Round trip for the four-component encoder: whole components in [0, 255] come back. */
  lemma RoundTripRGBA(r: Number, g: Number, b: Number, a: Number)
    requires IsByte(r) && IsByte(g) && IsByte(b) && IsByte(a)
    ensures Hex2RGBA(Encode([r, g, b, a])) == Some(RGBA(r, g, b, a))
  {
    EncodeFour(r, g, b, a);
    EncodeComponentShape(r); EncodeComponentShape(g);
    EncodeComponentShape(b); EncodeComponentShape(a);
    var p, q, u, w := EncodeComponent(r), EncodeComponent(g), EncodeComponent(b), EncodeComponent(a);
    LowerHexConcat(p, q); LowerHexConcat(p + q, u); LowerHexConcat(p + q + u, w);
    DecodeDigits8(p, q, u, w);
    ParseComponent(r); ParseComponent(g); ParseComponent(b); ParseComponent(a);
  }

  /** Round trip for the three-component encoder: the colour comes back opaque. */
  lemma RoundTripRGB(r: Number, g: Number, b: Number)
    requires IsByte(r) && IsByte(g) && IsByte(b)
    ensures Hex2RGBA(Encode([r, g, b])) == Some(RGBA(r, g, b, Num(255.0)))
  {
    EncodeThree(r, g, b);
    EncodeComponentShape(r); EncodeComponentShape(g); EncodeComponentShape(b);
    var p, q, u := EncodeComponent(r), EncodeComponent(g), EncodeComponent(b);
    LowerHexConcat(p, q); LowerHexConcat(p + q, u);
    DecodeDigits6(p, q, u);
    ParseComponent(r); ParseComponent(g); ParseComponent(b);
  }

  /** Round trip through an RGBA model: `fromHex(toHex(c)) == c` for whole components in [0, 255]. */
  lemma RoundTripRecord(c: RGBA)
    requires IsByte(c.r) && IsByte(c.g) && IsByte(c.b) && IsByte(c.a)
    ensures Hex2RGBA(EncodeRGBA(c)) == Some(c)
  {
    RoundTripRGBA(c.r, c.g, c.b, c.a);
  }

  /** The RGBA encoding is always nine characters, "#" and eight lowercase digits. */
  lemma EncodeRGBAShape(c: RGBA)
    requires c.r.Num? && c.g.Num? && c.b.Num? && c.a.Num?
    ensures var h := EncodeRGBA(c); |h| == 9 && h[0] == '#' && AllLowerHex(h[1..])
  {
    EncodeShape([c.r, c.g, c.b, c.a]);
  }

  // ---------------------------------------------------------------- short forms

  /** Short forms are read by doubling each digit: "#abc" decodes like "#aabbcc". */
  lemma ShortFormDoubling(s: string)
    requires |s| == 3 || |s| == 4
    requires !Text.IsSpace(s[0]) && !Text.IsSpace(s[|s| - 1])
    ensures Hex2RGBA("#" + s) == Hex2RGBA("#" + Expand(s))
  {
    var e := Expand(s);
    StrippedOfHashed(s);
    assert e[0] == s[0] && e[|e| - 1] == s[|s| - 1];
    StrippedOfHashed(e);
    DecodeExpanded(s);
  }

  /** Text with no white space at either end, after a "#", is what the decoder measures. */
  lemma StrippedOfHashed(t: string)
    requires |t| > 0 && !Text.IsSpace(t[0]) && !Text.IsSpace(t[|t| - 1])
    ensures Stripped("#" + t) == t
  {
    assert RemoveFirst("#" + t, '#') == t;
    Text.TrimOfTrimmed(t);
  }

  lemma DecodeExpanded(s: string)
    requires |s| == 3 || |s| == 4
    ensures Decode(s) == Decode(Expand(s))
  {
  }

  /** Alpha is 255 unless the expanded text has eight digits: the 3- and 6-digit forms are opaque. */
  lemma AlphaDefault(hex: string)
    requires |Stripped(hex)| == 3 || |Stripped(hex)| == 6
    ensures Hex2RGBA(hex).Some? && Hex2RGBA(hex).value.a == Num(255.0)
  {
  }

  /** The 4-digit form carries its own alpha, read from its doubled fourth digit. */
  lemma AlphaOfShortForm(hex: string)
    requires |Stripped(hex)| == 4
    ensures var c := Stripped(hex)[3];
      Hex2RGBA(hex).Some? && Hex2RGBA(hex).value.a == PairValue(c, c)
  {
  }
}
