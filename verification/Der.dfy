/** The DER form of a block header: SEQUENCE { INTEGER, OCTET STRING, OCTET STRING },
    as sections 8.1.3, 8.3, 8.7, 8.9 and 10.1 of ITU-T X.690 lay it out. */
module Der {
  import opened Options
  import opened Text

  const SEQUENCE: byte := 0x30
  const INTEGER: byte := 0x02
  const OCTET_STRING: byte := 0x04

  datatype Fields = Fields(number: int, previousHash: seq<byte>, dataHash: seq<byte>)

  // ---------------------------------------------------------------- encoder

  /** Shortest base-256 form, most significant octet first. */
  function Unsigned(n: nat): seq<byte> {
    if n < 256 then [n] else Unsigned(n / 256) + [n % 256]
  }

  /** The long form holds at most 126 length octets (8.1.3.5). */
  predicate Encodable(n: nat) {
    |Unsigned(n)| <= 126
  }

  /** Definite length in the fewest octets (10.1); 255 marks a length X.690 has no octets for. */
  function Length(n: nat): seq<byte> {
    if n < 128 then [n]
    else [if Encodable(n) then 128 + |Unsigned(n)| else 255] + Unsigned(n)
  }

  /** Shortest two's complement form (8.3). */
  function Integer(v: int): seq<byte>
    decreases if v < 0 then -v else v
  {
    if -128 <= v < 128 then [v % 256] else Integer(v / 256) + [v % 256]
  }

  function Tlv(tag: byte, content: seq<byte>): seq<byte> {
    [tag] + Length(|content|) + content
  }

  function Body(h: Fields): seq<byte> {
    Tlv(INTEGER, Integer(h.number)) + (Tlv(OCTET_STRING, h.previousHash) + Tlv(OCTET_STRING, h.dataHash))
  }

  function Encode(h: Fields): seq<byte> {
    Tlv(SEQUENCE, Body(h))
  }

  /** Every length in the encoding has length octets. */
  predicate Fits(h: Fields) {
    Encodable(|Integer(h.number)|) && Encodable(|h.previousHash|) && Encodable(|h.dataHash|) && Encodable(|Body(h)|)
  }

  // ---------------------------------------------------------------- decoder

  function UnsignedValue(s: seq<byte>): nat {
    if s == [] then 0 else 256 * UnsignedValue(s[..|s| - 1]) + s[|s| - 1]
  }

  function IntegerValue(s: seq<byte>): int
    requires s != []
  {
    if |s| == 1 then (if s[0] < 128 then s[0] else s[0] - 256)
    else 256 * IntegerValue(s[..|s| - 1]) + s[|s| - 1]
  }

  /** The first nine bits are not all alike (8.3.2). */
  predicate Minimal(s: seq<byte>) {
    s != [] && (|s| > 1 ==> !(s[0] == 0 && s[1] < 128) && !(s[0] == 255 && s[1] >= 128))
  }

  function ReadLength(s: seq<byte>): Option<(nat, seq<byte>)> {
    if s == [] then None
    else if s[0] < 128 then Some((s[0], s[1..]))
    else
      var k := s[0] - 128;
      if k == 0 || k == 127 || |s| - 1 < k then None
      else
        var octets := s[1..1 + k];
        if octets[0] == 0 || UnsignedValue(octets) < 128 then None
        else Some((UnsignedValue(octets), s[1 + k..]))
  }

  /** The content of one value with the given tag, and what follows it. */
  function ReadTlv(tag: byte, s: seq<byte>): Option<(seq<byte>, seq<byte>)> {
    if s == [] || s[0] != tag then None
    else
      match ReadLength(s[1..])
      case None => None
      case Some((n, rest)) => if |rest| < n then None else Some((rest[..n], rest[n..]))
  }

  function ReadBody(s: seq<byte>): Option<Fields> {
    match ReadTlv(INTEGER, s)
    case None => None
    case Some((number, s1)) =>
      match ReadTlv(OCTET_STRING, s1)
      case None => None
      case Some((previousHash, s2)) =>
        match ReadTlv(OCTET_STRING, s2)
        case None => None
        case Some((dataHash, s3)) =>
          if s3 != [] || !Minimal(number) then None
          else Some(Fields(IntegerValue(number), previousHash, dataHash))
  }

  function Decode(s: seq<byte>): Option<Fields> {
    match ReadTlv(SEQUENCE, s)
    case None => None
    case Some((body, rest)) => if rest != [] then None else ReadBody(body)
  }

  // ------------------------------------------------------------- round trips

  lemma {:induction false} UnsignedRoundTrip(n: nat)
    ensures UnsignedValue(Unsigned(n)) == n
    ensures Unsigned(n) != [] && (n > 0 ==> Unsigned(n)[0] != 0)
  {
    if n < 256 {
      assert Unsigned(n)[..0] == [];
    } else {
      UnsignedRoundTrip(n / 256);
      assert Unsigned(n)[..|Unsigned(n)| - 1] == Unsigned(n / 256);
    }
  }

  /** Octets without a leading zero are the shortest form of their value. */
  lemma {:induction false} UnsignedCanonical(s: seq<byte>)
    requires s != [] && s[0] != 0
    ensures Unsigned(UnsignedValue(s)) == s && UnsignedValue(s) > 0
  {
    if |s| == 1 {
      assert UnsignedValue(s[..0]) == 0;
    } else {
      UnsignedCanonical(s[..|s| - 1]);
      assert s == s[..|s| - 1] + [s[|s| - 1]];
    }
  }

  lemma {:induction false} IntegerRoundTrip(v: int)
    ensures Integer(v) != [] && Minimal(Integer(v)) && IntegerValue(Integer(v)) == v
    decreases if v < 0 then -v else v
  {
    if !(-128 <= v < 128) {
      IntegerRoundTrip(v / 256);
      var front := Integer(v / 256);
      assert Integer(v)[..|front|] == front;
      if |front| == 1 {
        assert -128 <= v / 256 < 128;
      } else {
        assert Integer(v)[0] == front[0] && Integer(v)[1] == front[1];
      }
    }
  }

  /** A content that passes 8.3.2 is the shortest form of its value. */
  lemma {:induction false} IntegerCanonical(s: seq<byte>)
    requires Minimal(s)
    ensures Integer(IntegerValue(s)) == s
    ensures |s| > 1 ==> !(-128 <= IntegerValue(s) < 128)
  {
    if |s| > 1 {
      var front := s[..|s| - 1];
      assert s == front + [s[|s| - 1]];
      IntegerCanonical(front);
      if |s| > 2 {
        assert front[0] == s[0] && front[1] == s[1];
      }
    }
  }

  lemma ReadLengthOfLength(n: nat, rest: seq<byte>)
    requires Encodable(n)
    ensures ReadLength(Length(n) + rest) == Some((n, rest))
  {
    UnsignedRoundTrip(n);
    var s := Length(n) + rest;
    if n < 128 {
      assert s[1..] == rest;
    } else {
      var k := |Unsigned(n)|;
      assert s[1..1 + k] == Unsigned(n) && s[1 + k..] == rest;
    }
  }

  lemma LengthOfReadLength(s: seq<byte>)
    requires ReadLength(s).Some?
    ensures var (n, rest) := ReadLength(s).value; s == Length(n) + rest && Encodable(n)
  {
    if s[0] < 128 {
      assert s == [s[0]] + s[1..];
    } else {
      var k := s[0] - 128;
      UnsignedCanonical(s[1..1 + k]);
      assert s == [s[0]] + s[1..1 + k] + s[1 + k..];
    }
  }

  lemma ReadTlvOfTlv(tag: byte, content: seq<byte>, rest: seq<byte>)
    requires Encodable(|content|)
    ensures ReadTlv(tag, Tlv(tag, content) + rest) == Some((content, rest))
  {
    var s := Tlv(tag, content) + rest;
    assert s[1..] == Length(|content|) + (content + rest);
    ReadLengthOfLength(|content|, content + rest);
    assert (content + rest)[..|content|] == content && (content + rest)[|content|..] == rest;
  }

  lemma TlvOfReadTlv(tag: byte, s: seq<byte>)
    requires ReadTlv(tag, s).Some?
    ensures var (content, rest) := ReadTlv(tag, s).value; s == Tlv(tag, content) + rest && Encodable(|content|)
  {
    LengthOfReadLength(s[1..]);
    var (n, after) := ReadLength(s[1..]).value;
    TlvJoins(tag, s, n, after);
  }

  lemma TlvJoins(tag: byte, s: seq<byte>, n: nat, after: seq<byte>)
    requires s != [] && s[0] == tag && s[1..] == Length(n) + after && n <= |after|
    ensures s == Tlv(tag, after[..n]) + after[n..]
  {
    assert after == after[..n] + after[n..];
    assert s == [tag] + s[1..];
    assert s == ([tag] + Length(n) + after[..n]) + after[n..];
  }

  lemma ReadBodyOfBody(h: Fields)
    requires Encodable(|Integer(h.number)|) && Encodable(|h.previousHash|) && Encodable(|h.dataHash|)
    ensures ReadBody(Body(h)) == Some(h)
  {
    var last := Tlv(OCTET_STRING, h.dataHash);
    ReadTlvOfTlv(INTEGER, Integer(h.number), Tlv(OCTET_STRING, h.previousHash) + last);
    ReadTlvOfTlv(OCTET_STRING, h.previousHash, last);
    assert ReadTlv(OCTET_STRING, last) == Some((h.dataHash, [])) by {
      assert last == last + [];
      ReadTlvOfTlv(OCTET_STRING, h.dataHash, []);
    }
    IntegerRoundTrip(h.number);
  }

  /** Decoding an encoded header gives back the three fields. */
  lemma DecodeOfEncode(h: Fields)
    requires Fits(h)
    ensures Decode(Encode(h)) == Some(h)
  {
    assert Encode(h) == Encode(h) + [];
    ReadTlvOfTlv(SEQUENCE, Body(h), []);
    ReadBodyOfBody(h);
  }

  lemma BodyOfReadBody(s: seq<byte>)
    requires ReadBody(s).Some?
    ensures Body(ReadBody(s).value) == s
    ensures var h := ReadBody(s).value;
      Encodable(|Integer(h.number)|) && Encodable(|h.previousHash|) && Encodable(|h.dataHash|)
  {
    TlvOfReadTlv(INTEGER, s);
    var (number, s1) := ReadTlv(INTEGER, s).value;
    TlvOfReadTlv(OCTET_STRING, s1);
    var (previousHash, s2) := ReadTlv(OCTET_STRING, s1).value;
    TlvOfReadTlv(OCTET_STRING, s2);
    var (dataHash, s3) := ReadTlv(OCTET_STRING, s2).value;
    IntegerCanonical(number);
    assert s2 == Tlv(OCTET_STRING, dataHash);
  }

  /** The decoder accepts nothing but encodings: each header has exactly one DER form. */
  lemma EncodeOfDecode(s: seq<byte>)
    requires Decode(s).Some?
    ensures Encode(Decode(s).value) == s && Fits(Decode(s).value)
  {
    TlvOfReadTlv(SEQUENCE, s);
    var (body, rest) := ReadTlv(SEQUENCE, s).value;
    BodyOfReadBody(body);
    assert s == Tlv(SEQUENCE, body);
  }

  /** Two headers with the same encoding are the same header. */
  lemma EncodeInjective(h: Fields, k: Fields)
    requires Fits(h) && Fits(k)
    ensures Encode(h) == Encode(k) <==> h == k
  {
    DecodeOfEncode(h);
    DecodeOfEncode(k);
  }

  /** Forms that X.690 and two's complement fix: a length in short and long form, octets most significant
      first, a leading octet where the sign needs one. */
  lemma Forms()
    ensures Length(38) == [0x26] && Length(201) == [0x81, 0xC9] && Unsigned(0x1234) == [0x12, 0x34]
    ensures Integer(0) == [0] && Integer(127) == [0x7F] && Integer(128) == [0, 0x80] && Integer(256) == [1, 0]
    ensures Integer(-1) == [0xFF] && Integer(-128) == [0x80] && Integer(-129) == [0xFF, 0x7F]
  {
    assert Unsigned(201) == [201];
    assert Unsigned(0x1234) == Unsigned(0x12) + [0x34];
    assert Integer(128) == Integer(0) + [0x80] && Integer(256) == Integer(1) + [0] && Integer(-129) == Integer(-1) + [0x7F];
  }
}
