/** Decimal and hexadecimal text, and the lock key a block is guarded by. */
module Text {

  type byte = x: int | 0 <= x < 256

  function Digit(d: nat): char
    requires d < 10
  {
    ('0' as int + d) as char
  }

  /** The value of a decimal digit; -1 for any other character. */
  function DigitValue(c: char): int {
    if '0' <= c <= '9' then c as int - '0' as int else -1
  }

  /** `n.toString()`. */
  function Dec(n: nat): string {
    if n < 10 then [Digit(n)] else Dec(n / 10) + [Digit(n % 10)]
  }

  function ParseDec(s: string): int {
    if s == [] then 0 else 10 * ParseDec(s[..|s| - 1]) + DigitValue(s[|s| - 1])
  }

  lemma {:induction false} DecRoundTrip(n: nat)
    ensures ParseDec(Dec(n)) == n
  {
    if n < 10 {
      assert Dec(n)[..0] == [];
    } else {
      DecRoundTrip(n / 10);
      assert Dec(n)[..|Dec(n)| - 1] == Dec(n / 10);
    }
  }

  lemma {:induction false} DecIsDigits(n: nat)
    ensures Dec(n) != "" && forall i :: 0 <= i < |Dec(n)| ==> '0' <= Dec(n)[i] <= '9'
  {
    if n >= 10 {
      DecIsDigits(n / 10);
    }
  }

  /** The key a block is entered under in `blocksInProcess`: channel name, underscore, number. */
  function BlockKey(channel: string, num: nat): string {
    channel + "_" + Dec(num)
  }

  /** The last underscore of a key is the separator. */
  lemma LastUnderscore(channel: string, num: nat)
    ensures |BlockKey(channel, num)| > |channel| && BlockKey(channel, num)[|channel|] == '_'
    ensures forall i :: |channel| < i < |BlockKey(channel, num)| ==> BlockKey(channel, num)[i] != '_'
  {
    DecIsDigits(num);
    forall i | |channel| < i < |BlockKey(channel, num)|
      ensures BlockKey(channel, num)[i] != '_'
    {
      assert BlockKey(channel, num)[i] == Dec(num)[i - |channel| - 1];
    }
  }

  /** The key names one block: channel names may hold underscores, decimal digits cannot. */
  lemma BlockKeyInjective(c1: string, n1: nat, c2: string, n2: nat)
    ensures BlockKey(c1, n1) == BlockKey(c2, n2) <==> c1 == c2 && n1 == n2
  {
    LastUnderscore(c1, n1);
    LastUnderscore(c2, n2);
    DecRoundTrip(n1);
    DecRoundTrip(n2);
    var k1, k2 := BlockKey(c1, n1), BlockKey(c2, n2);
    if k1 == k2 {
      assert |c1| == |c2|;
      assert k1[..|c1|] == c1 && k2[..|c2|] == c2;
      assert k1[|c1| + 1..] == Dec(n1) && k2[|c2| + 1..] == Dec(n2);
    }
  }

  function HexDigit(d: nat): char
    requires d < 16
  {
    (if d < 10 then '0' as int + d else 'a' as int + d - 10) as char
  }

  /** `buffer.toString('hex')`. */
  function Hex(bytes: seq<byte>): string {
    if bytes == [] then "" else [HexDigit(bytes[0] / 16), HexDigit(bytes[0] % 16)] + Hex(bytes[1..])
  }

  function HexValue(c: char): int {
    if '0' <= c <= '9' then c as int - '0' as int
    else if 'a' <= c <= 'f' then c as int - 'a' as int + 10
    else -1
  }

  /** `Buffer.from(text, 'hex')`: two digits an octet, the high one first. */
  function ReadHex(s: string): seq<int> {
    if |s| < 2 then [] else [16 * HexValue(s[0]) + HexValue(s[1])] + ReadHex(s[2..])
  }

  /** The text is two lower-case hexadecimal digits an octet, and reads back. */
  lemma {:induction false} HexReadsBack(bytes: seq<byte>)
    ensures |Hex(bytes)| == 2 * |bytes| && ReadHex(Hex(bytes)) == bytes
    ensures forall i :: 0 <= i < |Hex(bytes)| ==> 0 <= HexValue(Hex(bytes)[i]) < 16
  {
    if bytes != [] {
      HexReadsBack(bytes[1..]);
      assert Hex(bytes)[2..] == Hex(bytes[1..]);
      HexDigitReads(bytes[0] / 16);
      HexDigitReads(bytes[0] % 16);
      assert bytes == [bytes[0]] + bytes[1..];
    }
  }

  lemma HexDigitReads(d: nat)
    requires d < 16
    ensures HexValue(HexDigit(d)) == d
  {
  }

  lemma HexInjective(a: seq<byte>, b: seq<byte>)
    ensures Hex(a) == Hex(b) <==> a == b
  {
    HexReadsBack(a);
    HexReadsBack(b);
  }
}
