/** The colour of an organisation in the pie chart: a 31-hash computed with a 32-bit shift. */
module OrgColor {

  type CodeUnit = x: int | 0 <= x < 0x1_0000

  const TWO_24 := 0x100_0000
  const TWO_31 := 0x8000_0000
  const TWO_32 := 0x1_0000_0000
  const TWO_53 := 0x20_0000_0000_0000

  /** The longest text whose intermediate values all stay below 2^53, where doubles are exact. */
  const MAX_EXACT := 0x40_0000 - 0x80

  /** ECMA-262 ToInt32 of an integer. */
  function ToInt32(x: int): int {
    var low := x % TWO_32;
    if low < TWO_31 then low else low - TWO_32
  }

  /** `x << 5`. */
  function ShiftLeft5(x: int): int {
    ToInt32(ToInt32(x) * 32)
  }

  /** The hash in plain integers. */
  function Poly31(s: seq<CodeUnit>): nat {
    if s == [] then 0 else 31 * Poly31(s[..|s| - 1]) + s[|s| - 1]
  }

  predicate Exact(x: int) {
    -TWO_53 < x < TWO_53
  }

  predicate Congruent(a: int, b: int) {
    (a - b) % TWO_32 == 0
  }

  lemma ToInt32Facts(x: int)
    ensures Congruent(ToInt32(x), x) && -TWO_31 <= ToInt32(x) < TWO_31
  {
    assert x == TWO_32 * (x / TWO_32) + x % TWO_32;
    MultipleIsZero(-(x / TWO_32));
    MultipleIsZero(-(x / TWO_32) - 1);
  }

  lemma MultipleIsZero(k: int)
    ensures (TWO_32 * k) % TWO_32 == 0
  {
  }

  /** A congruence is a multiple of 2^32. */
  lemma CongruentQuotient(a: int, b: int)
    ensures Congruent(a, b) <==> a - b == TWO_32 * ((a - b) / TWO_32)
  {
  }

  /** One turn of the loop multiplies by 31 modulo 2^32, and grows by at most 2^31 and a code unit. */
  lemma StepFacts(value: int, poly: int, c: CodeUnit)
    requires Congruent(value, poly)
    ensures Congruent(c + (ShiftLeft5(value) - value), 31 * poly + c)
    ensures -TWO_31 <= ShiftLeft5(value) < TWO_31
  {
    ToInt32Facts(value);
    ToInt32Facts(ToInt32(value) * 32);
    CongruentQuotient(value, poly);
    CongruentQuotient(ToInt32(value), value);
    CongruentQuotient(ShiftLeft5(value), ToInt32(value) * 32);
    var p, q, r := (value - poly) / TWO_32, (ToInt32(value) - value) / TWO_32, (ShiftLeft5(value) - ToInt32(value) * 32) / TWO_32;
    assert ShiftLeft5(value) - value - 31 * poly == TWO_32 * (r + 32 * q + 31 * p);
    MultipleIsZero(r + 32 * q + 31 * p);
  }

  /** `intConversion`: congruent to the 31-hash, with every intermediate value exact. */
  method IntConversion(str: seq<CodeUnit>) returns (value: int)
    requires |str| <= MAX_EXACT
    ensures Congruent(value, Poly31(str)) && Exact(value)
  {
    value := 0;
    for i := 0 to |str|
      invariant Congruent(value, Poly31(str[..i]))
      invariant -(i * (TWO_31 + 0x1_0000)) <= value <= i * (TWO_31 + 0x1_0000)
    {
      StepFacts(value, Poly31(str[..i]), str[i]);
      assert str[..i + 1][..i] == str[..i];
      GrowthIsExact(i + 1);
      var difference := ShiftLeft5(value) - value;
      assert Exact(difference);
      value := str[i] + difference;
    }
    assert str[..|str|] == str;
    GrowthIsExact(|str|);
  }

  lemma GrowthIsExact(n: nat)
    requires n <= MAX_EXACT
    ensures n * (TWO_31 + 0x1_0000) < TWO_53
  {
    assert n * (TWO_31 + 0x1_0000) <= MAX_EXACT * (TWO_31 + 0x1_0000);
  }

  // ---------------------------------------------------------------- the text

  function UpperHexDigit(d: nat): char
    requires d < 16
  {
    (if d < 10 then '0' as int + d else 'A' as int + d - 10) as char
  }

  function UpperHexValue(c: char): int {
    if '0' <= c <= '9' then c as int - '0' as int else if 'A' <= c <= 'F' then c as int - 'A' as int + 10 else -1
  }

  /** `n.toString(16).toUpperCase()`. */
  function UpperHex(n: nat): string {
    if n < 16 then [UpperHexDigit(n)] else UpperHex(n / 16) + [UpperHexDigit(n % 16)]
  }

  function ParseHex(s: string): int {
    if s == [] then 0 else 16 * ParseHex(s[..|s| - 1]) + UpperHexValue(s[|s| - 1])
  }

  /** `i & 0x00ffffff` keeps the low 24 bits of the two's complement form. */
  function Low24(i: int): nat {
    i % TWO_24
  }

  /** `getRGBColor`. */
  function GetRGBColor(i: int): string {
    var c := UpperHex(Low24(i));
    "#" + "00000"[..if 6 - |c| < 0 then 0 else if 6 - |c| > 5 then 5 else 6 - |c|] + c
  }

  function Power16(k: nat): nat {
    if k == 0 then 1 else 16 * Power16(k - 1)
  }

  lemma {:induction false} UpperHexLength(n: nat, k: nat)
    requires 0 < k && n < Power16(k)
    ensures 0 < |UpperHex(n)| <= k
  {
    if n >= 16 {
      assert Power16(k) == 16 * Power16(k - 1);
      assert Power16(0) == 1;
      UpperHexLength(n / 16, k - 1);
    }
  }

  lemma UpperHexDigitValue(d: nat)
    requires d < 16
    ensures UpperHexValue(UpperHexDigit(d)) == d
  {
  }

  lemma {:induction false} UpperHexParses(n: nat)
    ensures ParseHex(UpperHex(n)) == n
  {
    UpperHexDigitValue(n % 16);
    if n < 16 {
      assert UpperHex(n)[..0] == [];
    } else {
      UpperHexParses(n / 16);
      assert UpperHex(n)[..|UpperHex(n)| - 1] == UpperHex(n / 16);
    }
  }

  lemma {:induction false} UpperHexIsDigits(n: nat)
    ensures forall i :: 0 <= i < |UpperHex(n)| ==> UpperHexValue(UpperHex(n)[i]) >= 0
  {
    UpperHexDigitValue(n % 16);
    if n >= 16 {
      UpperHexIsDigits(n / 16);
    }
  }

  lemma {:induction false} LeadingZeros(zeros: string, s: string)
    requires forall i :: 0 <= i < |zeros| ==> zeros[i] == '0'
    ensures ParseHex(zeros + s) == ParseHex(s)
  {
    if s == [] {
      assert zeros + s == zeros;
      ZerosParse(zeros);
    } else {
      LeadingZeros(zeros, s[..|s| - 1]);
      assert (zeros + s)[..|zeros + s| - 1] == zeros + s[..|s| - 1];
    }
  }

  lemma {:induction false} ZerosParse(zeros: string)
    requires forall i :: 0 <= i < |zeros| ==> zeros[i] == '0'
    ensures ParseHex(zeros) == 0
  {
    if zeros != [] {
      ZerosParse(zeros[..|zeros| - 1]);
    }
  }

  /** The colour is always `#` and six upper-case hexadecimal digits that read back the low 24 bits. */
  lemma ColorReadsBack(i: int)
    ensures |GetRGBColor(i)| == 7 && GetRGBColor(i)[0] == '#'
    ensures forall k :: 1 <= k < 7 ==> UpperHexValue(GetRGBColor(i)[k]) >= 0
    ensures ParseHex(GetRGBColor(i)[1..]) == Low24(i)
  {
    var c := UpperHex(Low24(i));
    assert Power16(6) == TWO_24 by {
      assert Power16(3) == 16 * Power16(2) == 16 * (16 * Power16(1)) == 4096;
      assert Power16(6) == 16 * Power16(5) == 16 * (16 * Power16(4)) == 16 * (16 * (16 * Power16(3)));
    }
    UpperHexLength(Low24(i), 6);
    UpperHexParses(Low24(i));
    UpperHexIsDigits(Low24(i));
    var zeros := "00000"[..6 - |c|];
    assert GetRGBColor(i)[1..] == zeros + c;
    LeadingZeros(zeros, c);
    forall k | 1 <= k < 7
      ensures UpperHexValue(GetRGBColor(i)[k]) >= 0
    {
      assert GetRGBColor(i)[k] == (zeros + c)[k - 1];
    }
  }

  lemma CongruentLow24(a: int, b: int)
    requires Congruent(a, b)
    ensures Low24(a) == Low24(b)
  {
    CongruentQuotient(a, b);
    assert a == b + TWO_24 * (256 * ((a - b) / TWO_32));
    AddMultiple(b, 256 * ((a - b) / TWO_32));
  }

  lemma AddMultiple(b: int, k: int)
    ensures (b + TWO_24 * k) % TWO_24 == b % TWO_24
  {
  }

  /** `getRGBColor(intConversion(text))` shows the 31-hash of the text modulo 2^24; the code applies it
      to the 64 hexadecimal digits of a SHA-256 digest. */
  method ColorOfText(text: seq<CodeUnit>) returns (color: string)
    requires |text| <= MAX_EXACT
    ensures |color| == 7 && color[0] == '#'
    ensures ParseHex(color[1..]) == Poly31(text) % TWO_24
  {
    var value := IntConversion(text);
    color := GetRGBColor(value);
    ColorReadsBack(value);
    CongruentLow24(value, Poly31(text));
  }
}
