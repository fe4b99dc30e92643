/** Bytes, big-endian numbers, and the unpadded URL alphabet of section 5 of RFC 4648. */
module Base64 {
  import opened Text

  type Byte = x: int | 0 <= x < 256
  type Sextet = x: int | 0 <= x < 64

  function Pow256(n: nat): (p: nat)
    ensures p > 0
  {
    if n == 0 then 1 else 256 * Pow256(n - 1)
  }

  /** The low `n` bytes of `u`, most significant first. */
  function BigEndian(u: nat, n: nat): (b: seq<Byte>)
    ensures |b| == n
  {
    if n == 0 then [] else BigEndian(u / 256, n - 1) + [u % 256]
  }

  function FromBigEndian(b: seq<Byte>): nat {
    if b == [] then 0 else 256 * FromBigEndian(b[..|b| - 1]) + b[|b| - 1]
  }

  lemma {:induction false} BigEndianRoundTrip(u: nat, n: nat)
    requires u < Pow256(n)
    ensures FromBigEndian(BigEndian(u, n)) == u
  {
    if n > 0 {
      BigEndianRoundTrip(u / 256, n - 1);
      assert BigEndian(u, n)[..n - 1] == BigEndian(u / 256, n - 1);
    }
  }

  const TWO_64: nat := 0x1_0000_0000_0000_0000

  lemma EightBytes()
    ensures Pow256(8) == TWO_64
  {
    assert Pow256(4) == 0x1_0000_0000;
    assert Pow256(6) == 0x1_0000_0000_0000;
  }

  /** The conversion from int64 to uint64 and back keeps the bits. */
  function ToUnsigned(t: int): nat
    requires -MAX_INT - 1 <= t <= MAX_INT
  {
    if t < 0 then t + TWO_64 else t
  }

  function ToSigned(u: nat): int {
    if u > MAX_INT then u - TWO_64 else u
  }

  function Char(v: Sextet): char {
    if v < 26 then ('A' as int + v) as char
    else if v < 52 then ('a' as int + v - 26) as char
    else if v < 62 then ('0' as int + v - 52) as char
    else if v == 62 then '-' else '_'
  }

  function Value(c: char): Option<Sextet> {
    if 'A' <= c <= 'Z' then Some(c as int - 'A' as int)
    else if 'a' <= c <= 'z' then Some(c as int - 'a' as int + 26)
    else if '0' <= c <= '9' then Some(c as int - '0' as int + 52)
    else if c == '-' then Some(62)
    else if c == '_' then Some(63)
    else None
  }

  /** Bytes cut into groups of six bits, the last one padded with zero bits. */
  function Cut(b: seq<Byte>): seq<Sextet> {
    if b == [] then []
    else if |b| == 1 then [b[0] / 4, b[0] % 4 * 16]
    else if |b| == 2 then [b[0] / 4, b[0] % 4 * 16 + b[1] / 16, b[1] % 16 * 4]
    else [b[0] / 4, b[0] % 4 * 16 + b[1] / 16, b[1] % 16 * 4 + b[2] / 64, b[2] % 64] + Cut(b[3..])
  }

  /** The first, second and third byte of a group of four sextets. */
  function First(v0: Sextet, v1: Sextet): Byte {
    var high: int := v0;
    high * 4 + v1 / 16
  }

  function Second(v1: Sextet, v2: Sextet): Byte {
    var high: int := v1;
    high % 16 * 16 + v2 / 4
  }

  function Third(v2: Sextet, v3: Sextet): Byte {
    var high: int := v2;
    high % 4 * 64 + v3
  }

  /** The bytes in groups of six bits; spare low bits at the end are ignored. */
  function Join(v: seq<Sextet>): Option<seq<Byte>> {
    if v == [] then Some([])
    else if |v| == 1 then None
    else if |v| == 2 then Some([First(v[0], v[1])])
    else if |v| == 3 then Some([First(v[0], v[1]), Second(v[1], v[2])])
    else match Join(v[4..])
      case None => None
      case Some(rest) => Some([First(v[0], v[1]), Second(v[1], v[2]), Third(v[2], v[3])] + rest)
  }

  function Chars(v: seq<Sextet>): (s: string)
    ensures |s| == |v|
  {
    if v == [] then "" else [Char(v[0])] + Chars(v[1..])
  }

  /** The values of the characters, line breaks skipped. */
  function Values(s: string): Option<seq<Sextet>> {
    if s == "" then Some([])
    else if s[0] == '\r' || s[0] == '\n' then Values(s[1..])
    else match (Value(s[0]), Values(s[1..]))
      case (Some(v), Some(rest)) => Some([v] + rest)
      case _ => None
  }

  function Encode(b: seq<Byte>): string {
    Chars(Cut(b))
  }

  function Decode(s: string): Option<seq<Byte>> {
    match Values(s)
    case None => None
    case Some(v) => Join(v)
  }

  lemma ValueOfChar(v: Sextet)
    ensures Value(Char(v)) == Some(v) && Char(v) != '\r' && Char(v) != '\n'
  {
  }

  lemma {:induction false} ValuesOfChars(v: seq<Sextet>)
    ensures Values(Chars(v)) == Some(v)
  {
    if v != [] {
      ValuesOfChars(v[1..]);
      ValueOfChar(v[0]);
      hide Char; hide Value;
      assert Chars(v)[1..] == Chars(v[1..]);
      assert v == [v[0]] + v[1..];
    }
  }

  /** Three bytes cut into four sextets and put together again. */
  lemma Repacking(b0: Byte, b1: Byte, b2: Byte)
    ensures First(b0 / 4, b0 % 4 * 16 + b1 / 16) == b0
    ensures Second(b0 % 4 * 16 + b1 / 16, b1 % 16 * 4 + b2 / 64) == b1
    ensures Third(b1 % 16 * 4 + b2 / 64, b2 % 64) == b2
  {
  }

  lemma JoinOfFour(v0: Sextet, v1: Sextet, v2: Sextet, v3: Sextet, rest: seq<Sextet>)
    requires Join(rest).Some?
    ensures Join([v0, v1, v2, v3] + rest) == Some([First(v0, v1), Second(v1, v2), Third(v2, v3)] + Join(rest).value)
  {
    hide First; hide Second; hide Third;
    assert ([v0, v1, v2, v3] + rest)[4..] == rest;
  }

  lemma {:induction false} JoinOfCut(b: seq<Byte>)
    ensures Join(Cut(b)) == Some(b)
  {
    hide First; hide Second; hide Third;
    if |b| == 1 {
      Repacking(b[0], 0, 0);
      assert b == [b[0]];
    } else if |b| == 2 {
      Repacking(b[0], b[1], 0);
      assert b == [b[0], b[1]];
    } else if |b| > 2 {
      JoinOfCut(b[3..]);
      Repacking(b[0], b[1], b[2]);
      JoinOfFour(b[0] / 4, b[0] % 4 * 16 + b[1] / 16, b[1] % 16 * 4 + b[2] / 64, b[2] % 64, Cut(b[3..]));
      assert b == [b[0], b[1], b[2]] + b[3..];
    }
  }

  /** Every byte string reads back from its base64 form. */
  lemma Base64RoundTrip(b: seq<Byte>)
    ensures Decode(Encode(b)) == Some(b)
  {
    ValuesOfChars(Cut(b));
    JoinOfCut(b);
  }

  /** Every int64 survives the eight-byte frame. */
  lemma TimestampRoundTrip(t: int)
    requires -MAX_INT - 1 <= t <= MAX_INT
    ensures ToSigned(FromBigEndian(BigEndian(ToUnsigned(t), 8))) == t
  {
    EightBytes();
    BigEndianRoundTrip(ToUnsigned(t), 8);
  }

  /** Vectors of section 10 of RFC 4648, without padding, and one with both URL characters. */
  lemma RfcVectors()
    ensures Encode([0x66]) == "Zg" && Encode([0x66, 0x6f, 0x6f]) == "Zm9v" && Encode([0xfb, 0xff]) == "-_8"
  {
    assert Cut([0x66, 0x6f, 0x6f]) == [25, 38, 61, 47];
    assert Cut([0xfb, 0xff]) == [62, 63, 60];
  }
}
