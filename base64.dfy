/** The base 64 encoding of RFC 4648 section 4 (standard alphabet, "="
    padding), as produced by Python's `base64.b64encode`, and a decoder
    for what it produces. */
module Base64 {
  import opened Wrappers

  type byte = b: int | 0 <= b < 256

  /** The character for a 6-bit value: "A".."Z", "a".."z", "0".."9", "+", "/". */
  function Sextet(v: nat): (c: char)
    requires v < 64
  {
    if v < 26 then ('A' as int + v) as char
    else if v < 52 then ('a' as int + v - 26) as char
    else if v < 62 then ('0' as int + v - 52) as char
    else if v == 62 then '+'
    else '/'
  }

  predicate IsSextetChar(c: char) {
    'A' <= c <= 'Z' || 'a' <= c <= 'z' || '0' <= c <= '9' || c == '+' || c == '/'
  }

  /** The 6-bit value of an alphabet character. */
  function SextetValue(c: char): (v: nat)
    requires IsSextetChar(c)
    ensures v < 64
  {
    if 'A' <= c <= 'Z' then c as int - 'A' as int
    else if 'a' <= c <= 'z' then c as int - 'a' as int + 26
    else if '0' <= c <= '9' then c as int - '0' as int + 52
    else if c == '+' then 62
    else 63
  }

  lemma SextetRoundTrip(v: nat)
    requires v < 64
    ensures IsSextetChar(Sextet(v)) && SextetValue(Sextet(v)) == v
  {
  }

  /** Three bytes as four characters. */
  function EncodeTriple(a: byte, b: byte, c: byte): string {
    [Sextet(a / 4), Sextet(a % 4 * 16 + b / 16), Sextet(b % 16 * 4 + c / 64), Sextet(c % 64)]
  }

  /** `base64.b64encode(data)`: every three bytes become four characters; a
      final one or two bytes are padded with "==" or "=". */
  function Encode(data: seq<byte>): (r: string)
    ensures |r| == 4 * ((|data| + 2) / 3)
    decreases |data|
  {
    if |data| == 0 then ""
    else if |data| == 1 then
      [Sextet(data[0] / 4), Sextet(data[0] % 4 * 16), '=', '=']
    else if |data| == 2 then
      [Sextet(data[0] / 4), Sextet(data[0] % 4 * 16 + data[1] / 16), Sextet(data[1] % 16 * 4), '=']
    else
      EncodeTriple(data[0], data[1], data[2]) + Encode(data[3..])
  }

  function Byte(v: int): byte
    requires 0 <= v < 256
  {
    v
  }

  /** Decodes one group of four characters, the last group possibly padded. */
  function DecodeGroup(g: string, last: bool): (r: Option<seq<byte>>)
    requires |g| == 4
  {
    if !IsSextetChar(g[0]) || !IsSextetChar(g[1]) then None
    else
      var v0, v1 := SextetValue(g[0]), SextetValue(g[1]);
      if last && g[2] == '=' && g[3] == '=' then
        if v1 % 16 == 0 then Some([Byte(v0 * 4 + v1 / 16)]) else None
      else if !IsSextetChar(g[2]) then None
      else
        var v2 := SextetValue(g[2]);
        if last && g[3] == '=' then
          if v2 % 4 == 0 then Some([Byte(v0 * 4 + v1 / 16), Byte(v1 % 16 * 16 + v2 / 4)]) else None
        else if !IsSextetChar(g[3]) then None
        else
          var v3 := SextetValue(g[3]);
          Some([Byte(v0 * 4 + v1 / 16), Byte(v1 % 16 * 16 + v2 / 4), Byte(v2 % 4 * 64 + v3)])
  }

  /** The inverse of `Encode`: `None` for text that `Encode` cannot produce
      (a length that is not a multiple of four, a character outside the
      alphabet, misplaced or non-canonical padding). */
  function Decode(s: string): (r: Option<seq<byte>>)
    decreases |s|
  {
    if s == [] then Some([])
    else if |s| < 4 then None
    else
      match DecodeGroup(s[..4], |s| == 4)
      case None => None
      case Some(bytes) =>
        if |s| == 4 then Some(bytes)
        else if |bytes| < 3 then None
        else
          match Decode(s[4..])
          case None => None
          case Some(rest) => Some(bytes + rest)
  }

  lemma DecodeTriple(a: byte, b: byte, c: byte, last: bool)
    ensures DecodeGroup(EncodeTriple(a, b, c), last) == Some([a, b, c])
  {
    var v1, v2 := a % 4 * 16 + b / 16, b % 16 * 4 + c / 64;
    SextetsTriple(a / 4, v1, v2, c % 64, last);
    TripleParts(a, b, c);
  }

  /** The sextets of three bytes put back together give the bytes. */
  lemma TripleParts(a: byte, b: byte, c: byte)
    ensures a / 4 * 4 + (a % 4 * 16 + b / 16) / 16 == a
    ensures (a % 4 * 16 + b / 16) % 16 * 16 + (b % 16 * 4 + c / 64) / 4 == b
    ensures (b % 16 * 4 + c / 64) % 4 * 64 + c % 64 == c
  {
    SplitSixteen(a % 4, b / 16);
    SplitFour(b % 16, c / 64);
    Recombine(a, 4);
    Recombine(b, 16);
    Recombine(c, 64);
  }

  lemma Recombine(x: nat, d: nat)
    requires d > 0
    ensures x / d * d + x % d == x
  {
  }

  /** Four alphabet characters decode to the three bytes their sextets spell. */
  lemma SextetsTriple(v0: nat, v1: nat, v2: nat, v3: nat, last: bool)
    requires v0 < 64 && v1 < 64 && v2 < 64 && v3 < 64
    ensures DecodeGroup([Sextet(v0), Sextet(v1), Sextet(v2), Sextet(v3)], last)
      == Some([v0 * 4 + v1 / 16, v1 % 16 * 16 + v2 / 4, v2 % 4 * 64 + v3])
  {
    SextetRoundTrip(v0);
    SextetRoundTrip(v1);
    SextetRoundTrip(v2);
    SextetRoundTrip(v3);
  }

  lemma SplitSixteen(x: nat, y: nat)
    requires y < 16
    ensures (x * 16 + y) / 16 == x && (x * 16 + y) % 16 == y
  {
  }

  lemma SplitFour(x: nat, y: nat)
    requires y < 4
    ensures (x * 4 + y) / 4 == x && (x * 4 + y) % 4 == y
  {
  }

  lemma DecodeOne(a: byte)
    ensures DecodeGroup([Sextet(a / 4), Sextet(a % 4 * 16), '=', '='], true) == Some([a])
  {
    SextetRoundTrip(a / 4);
    SextetRoundTrip(a % 4 * 16);
  }

  lemma DecodeTwo(a: byte, b: byte)
    ensures DecodeGroup([Sextet(a / 4), Sextet(a % 4 * 16 + b / 16), Sextet(b % 16 * 4), '='], true) == Some([a, b])
  {
    var v1 := a % 4 * 16 + b / 16;
    SextetsPair(a / 4, v1, b % 16 * 4);
    PairParts(a, b);
  }

  /** The sextets of two bytes put back together give the bytes. */
  lemma PairParts(a: byte, b: byte)
    ensures a / 4 * 4 + (a % 4 * 16 + b / 16) / 16 == a
    ensures (a % 4 * 16 + b / 16) % 16 * 16 + b % 16 * 4 / 4 == b
  {
    SplitSixteen(a % 4, b / 16);
    SplitFour(b % 16, 0);
    Recombine(a, 4);
    Recombine(b, 16);
  }

  /** Three alphabet characters and one "=" decode to two bytes. */
  lemma SextetsPair(v0: nat, v1: nat, v2: nat)
    requires v0 < 64 && v1 < 64 && v2 < 64 && v2 % 4 == 0
    ensures DecodeGroup([Sextet(v0), Sextet(v1), Sextet(v2), '='], true)
      == Some([v0 * 4 + v1 / 16, v1 % 16 * 16 + v2 / 4])
  {
    SextetRoundTrip(v0);
    SextetRoundTrip(v1);
    SextetRoundTrip(v2);
  }

  /** A full group in front of decodable text. */
  lemma DecodeCons(g: string, rest: string, bytes: seq<byte>, tail: seq<byte>)
    requires |g| == 4 && |bytes| == 3
    requires DecodeGroup(g, rest == []) == Some(bytes) && Decode(rest) == Some(tail)
    ensures Decode(g + rest) == Some(bytes + tail)
  {
    var s := g + rest;
    assert s[..4] == g && s[4..] == rest;
    if rest == [] {
      assert bytes + tail == bytes;
    }
  }

  lemma TwoElements(data: seq<byte>)
    requires |data| == 2
    ensures [data[0], data[1]] == data
  {
  }

  lemma EncodeOne(data: seq<byte>)
    requires |data| == 1
    ensures Decode(Encode(data)) == Some(data)
  {
    var g := [Sextet(data[0] / 4), Sextet(data[0] % 4 * 16), '=', '='];
    DecodeOne(data[0]);
    assert Encode(data) == g && g[..4] == g;
    assert data == [data[0]];
  }

  lemma EncodeTwo(data: seq<byte>)
    requires |data| == 2
    ensures Decode(Encode(data)) == Some(data)
  {
    var g := [Sextet(data[0] / 4), Sextet(data[0] % 4 * 16 + data[1] / 16), Sextet(data[1] % 16 * 4), '='];
    DecodeTwo(data[0], data[1]);
    assert Encode(data) == g && g[..4] == g;
    TwoElements(data);
  }

  lemma EncodeStep(data: seq<byte>)
    requires |data| >= 3
    ensures Encode(data) == EncodeTriple(data[..3][0], data[..3][1], data[..3][2]) + Encode(data[3..])
  {
  }

  lemma ThreeElements(head: seq<byte>)
    requires |head| == 3
    ensures [head[0], head[1], head[2]] == head
  {
  }

  /** Decoding what was encoded gives the bytes back. */
  lemma {:induction false} DecodeEncode(data: seq<byte>)
    ensures Decode(Encode(data)) == Some(data)
    decreases |data|
  {
    if |data| == 1 {
      EncodeOne(data);
    } else if |data| == 2 {
      EncodeTwo(data);
    } else if |data| >= 3 {
      var head, tail := data[..3], data[3..];
      var rest := Encode(tail);
      EncodeStep(data);
      DecodeTriple(head[0], head[1], head[2], rest == []);
      DecodeEncode(tail);
      DecodeCons(EncodeTriple(head[0], head[1], head[2]), rest, [head[0], head[1], head[2]], tail);
      ThreeElements(head);
      assert data == head + tail;
    }
  }
}
