/** Padded base64 with the standard alphabet (section 4 of RFC 4648), the way Go's
    encoding/base64 StdEncoding reads it: '\r' and '\n' are skipped wherever they stand,
    padding may only close the last group, and the unused bits of a padded group are ignored. */
module Base64 {
  import opened Wrappers

  type byte = b: int | 0 <= b < 256
  type sextet = n: int | 0 <= n < 64

  /** The alphabet of section 4 of RFC 4648. */
  function IndexChar(n: sextet): (c: char)
    ensures c != '\n' && c != '\r' && c != '=' && c != ' '
  {
    if n < 26 then ('A' as int + n) as char
    else if n < 52 then ('a' as int + (n - 26)) as char
    else if n < 62 then ('0' as int + (n - 52)) as char
    else if n == 62 then '+'
    else '/'
  }

  /** The value of an alphabet character; None for every other rune. */
  function CharIndex(c: char): (r: Option<sextet>)
    ensures r.Some? ==> IndexChar(r.value) == c
  {
    if 'A' <= c <= 'Z' then Some(c as int - 'A' as int)
    else if 'a' <= c <= 'z' then Some(c as int - 'a' as int + 26)
    else if '0' <= c <= '9' then Some(c as int - '0' as int + 52)
    else if c == '+' then Some(62)
    else if c == '/' then Some(63)
    else None
  }

  /** Every alphabet character reads back as its value. */
  lemma CharIndexOfIndexChar(n: sextet)
    ensures CharIndex(IndexChar(n)) == Some(n)
  {
  }

  /** The input with '\r' and '\n' taken out. */
  function SkipNewlines(s: string): (r: string)
    ensures '\n' !in r && '\r' !in r
  {
    if s == [] then []
    else if s[0] == '\n' || s[0] == '\r' then SkipNewlines(s[1..])
    else [s[0]] + SkipNewlines(s[1..])
  }

  /** The three bytes held by the 24 bits of four sextets, most significant first. */
  function Bytes3(a: sextet, b: sextet, c: sextet, d: sextet): seq<byte> {
    [a * 4 + b / 16, b % 16 * 16 + c / 4, c % 4 * 64 + d]
  }

  /** Decodes whole groups of four characters; only the last may end in "=" or "==". */
  function DecodeGroups(s: string): Option<seq<byte>>
    decreases |s|
  {
    if s == [] then Some([])
    else if |s| < 4 then None
    else
      var a, b, c, d := CharIndex(s[0]), CharIndex(s[1]), CharIndex(s[2]), CharIndex(s[3]);
      if a.None? || b.None? then None
      else if |s| == 4 && s[2] == '=' && s[3] == '=' then Some(Bytes3(a.value, b.value, 0, 0)[..1])
      else if c.None? then None
      else if |s| == 4 && s[3] == '=' then Some(Bytes3(a.value, b.value, c.value, 0)[..2])
      else if d.None? then None
      else
        match DecodeGroups(s[4..])
        case None => None
        case Some(rest) => Some(Bytes3(a.value, b.value, c.value, d.value) + rest)
  }

  /** base64.StdEncoding.DecodeString; None stands for its CorruptInputError. */
  function Decode(s: string): Option<seq<byte>> {
    DecodeGroups(SkipNewlines(s))
  }

  /** Only whole groups of four decode: padding is required. */
  lemma {:induction false} DecodedLength(s: string)
    requires DecodeGroups(s).Some?
    ensures |s| % 4 == 0
    ensures 4 * |DecodeGroups(s).value| <= 3 * |s|
    decreases |s|
  {
    if |s| > 4 {
      var a, b, c, d := CharIndex(s[0]), CharIndex(s[1]), CharIndex(s[2]), CharIndex(s[3]);
      if a.Some? && b.Some? && c.Some? && d.Some? {
        var rest := s[4..];
        DecodedLength(rest);
        assert DecodeGroups(s).value == Bytes3(a.value, b.value, c.value, d.value) + DecodeGroups(rest).value;
      }
    }
  }

  /** Four characters for the bytes b0, b1, b2. */
  function Group(b0: byte, b1: byte, b2: byte): string {
    [IndexChar(b0 / 4), IndexChar(b0 % 4 * 16 + b1 / 16), IndexChar(b1 % 16 * 4 + b2 / 64), IndexChar(b2 % 64)]
  }

  /** base64.StdEncoding.EncodeToString. */
  function Encode(b: seq<byte>): (s: string)
  {
    if |b| == 0 then []
    else if |b| == 1 then [IndexChar(b[0] / 4), IndexChar(b[0] % 4 * 16), '=', '=']
    else if |b| == 2 then [IndexChar(b[0] / 4), IndexChar(b[0] % 4 * 16 + b[1] / 16), IndexChar(b[1] % 16 * 4), '=']
    else Group(b[0], b[1], b[2]) + Encode(b[3..])
  }

  /** Every three bytes, and a last one or two, become four characters. */
  lemma {:induction false} EncodeLength(b: seq<byte>)
    ensures |Encode(b)| == (|b| + 2) / 3 * 4
  {
    if |b| >= 3 {
      EncodeLength(b[3..]);
      assert (|b| + 2) / 3 == (|b[3..]| + 2) / 3 + 1;
    }
  }

  /** Splitting a byte into its high and low bits and joining them again. */
  lemma HighLow(x: byte, m: int, k: int)
    requires (m == 4 && k == 64) || (m == 16 && k == 16) || (m == 64 && k == 4)
    ensures x / m * m + x % m == x
    ensures x / m < k
  {
  }

  /** The arithmetic of one full group. */
  lemma GroupBytes(b0: byte, b1: byte, b2: byte)
    ensures Bytes3(b0 / 4, b0 % 4 * 16 + b1 / 16, b1 % 16 * 4 + b2 / 64, b2 % 64) == [b0, b1, b2]
  {
    HighLow(b0, 4, 64);
    HighLow(b1, 16, 16);
    HighLow(b2, 64, 4);
    assert (b0 % 4 * 16 + b1 / 16) / 16 == b0 % 4;
    assert (b0 % 4 * 16 + b1 / 16) % 16 == b1 / 16;
    assert (b1 % 16 * 4 + b2 / 64) / 4 == b1 % 16;
    assert (b1 % 16 * 4 + b2 / 64) % 4 == b2 / 64;
  }

  /** The arithmetic of a group padded with "=". */
  lemma PairBytes(b0: byte, b1: byte)
    ensures Bytes3(b0 / 4, b0 % 4 * 16 + b1 / 16, b1 % 16 * 4, 0)[..2] == [b0, b1]
  {
    HighLow(b0, 4, 64);
    HighLow(b1, 16, 16);
    assert (b0 % 4 * 16 + b1 / 16) / 16 == b0 % 4;
    assert (b0 % 4 * 16 + b1 / 16) % 16 == b1 / 16;
    assert (b1 % 16 * 4) / 4 == b1 % 16;
  }

  /** The arithmetic of a group padded with "==". */
  lemma SingleByte(b0: byte)
    ensures Bytes3(b0 / 4, b0 % 4 * 16, 0, 0)[..1] == [b0]
  {
    HighLow(b0, 4, 64);
    assert (b0 % 4 * 16) / 16 == b0 % 4;
  }

  /** A string with no line breaks is left alone by SkipNewlines. */
  lemma {:induction false} SkipNone(s: string)
    requires forall i :: 0 <= i < |s| ==> s[i] != '\n' && s[i] != '\r'
    ensures SkipNewlines(s) == s
  {
    if s != [] {
      SkipNone(s[1..]);
      assert [s[0]] + s[1..] == s;
    }
  }

  /** The encoder writes no line breaks and no spaces. */
  lemma {:induction false} EncodeHasNoBreaks(b: seq<byte>)
    ensures forall i :: 0 <= i < |Encode(b)| ==> Encode(b)[i] != '\n' && Encode(b)[i] != '\r' && Encode(b)[i] != ' '
  {
    if |b| >= 3 {
      EncodeHasNoBreaks(b[3..]);
      var s := Encode(b);
      assert s == Group(b[0], b[1], b[2]) + Encode(b[3..]);
    }
  }

  /** Decoding undoes encoding: the round trip of section 4 of RFC 4648. */
  lemma {:induction false} DecodeEncode(b: seq<byte>)
    ensures Decode(Encode(b)) == Some(b)
  {
    EncodeHasNoBreaks(b);
    SkipNone(Encode(b));
    DecodeGroupsEncode(b);
  }

  /** A full group in front of the rest decodes to its three bytes in front of the rest's. */
  lemma DecodeFullGroup(b0: byte, b1: byte, b2: byte, rest: string)
    ensures DecodeGroups(Group(b0, b1, b2) + rest) ==
      match DecodeGroups(rest)
      case None => None
      case Some(r) => Some([b0, b1, b2] + r)
  {
    var g := Group(b0, b1, b2);
    var s := g + rest;
    CharIndexOfIndexChar(b0 / 4);
    CharIndexOfIndexChar(b0 % 4 * 16 + b1 / 16);
    CharIndexOfIndexChar(b1 % 16 * 4 + b2 / 64);
    CharIndexOfIndexChar(b2 % 64);
    GroupBytes(b0, b1, b2);
    assert s[..4] == g && s[4..] == rest;
  }

  /** A group padded with "==" decodes to the first of its three bytes. */
  lemma DecodePadded2(x: sextet, y: sextet)
    ensures DecodeGroups([IndexChar(x), IndexChar(y), '=', '=']) == Some(Bytes3(x, y, 0, 0)[..1])
  {
    CharIndexOfIndexChar(x);
    CharIndexOfIndexChar(y);
  }

  /** A group padded with "=" decodes to the first two of its three bytes. */
  lemma DecodePadded1(x: sextet, y: sextet, z: sextet)
    ensures DecodeGroups([IndexChar(x), IndexChar(y), IndexChar(z), '=']) == Some(Bytes3(x, y, z, 0)[..2])
  {
    CharIndexOfIndexChar(x);
    CharIndexOfIndexChar(y);
    CharIndexOfIndexChar(z);
  }

  /** A single byte encodes to a group that decodes back to it. */
  lemma DecodeOneByte(b0: byte)
    ensures DecodeGroups(Encode([b0])) == Some([b0])
  {
    DecodePadded2(b0 / 4, b0 % 4 * 16);
    SingleByte(b0);
  }

  /** Two bytes encode to a group that decodes back to them. */
  lemma DecodeTwoBytes(b0: byte, b1: byte)
    ensures DecodeGroups(Encode([b0, b1])) == Some([b0, b1])
  {
    DecodePadded1(b0 / 4, b0 % 4 * 16 + b1 / 16, b1 % 16 * 4);
    PairBytes(b0, b1);
  }

  lemma {:induction false} DecodeGroupsEncode(b: seq<byte>)
    ensures DecodeGroups(Encode(b)) == Some(b)
  {
    if |b| == 1 {
      assert [b[0]] == b;
      DecodeOneByte(b[0]);
    } else if |b| == 2 {
      assert [b[0], b[1]] == b;
      DecodeTwoBytes(b[0], b[1]);
    } else if |b| >= 3 {
      var e := Encode(b[3..]);
      DecodeGroupsEncode(b[3..]);
      DecodeFullGroup(b[0], b[1], b[2], e);
      assert Encode(b) == Group(b[0], b[1], b[2]) + e;
      assert [b[0], b[1], b[2]] + b[3..] == b;
    }
  }

}
