/** Base64 of section 4 of RFC 4648, as byte arrays travel in canonical messages. */
module Base64 {
  import opened Wrappers
  import opened Values

  type Sextet = s: nat | s < 64

  function CharOf(s: Sextet): (c: char) {
    if s < 26 then ('A' as int + s) as char
    else if s < 52 then ('a' as int + s - 26) as char
    else if s < 62 then ('0' as int + s - 52) as char
    else if s == 62 then '+' else '/'
  }

  function SextetOf(c: char): (s: Option<Sextet>) {
    if 'A' <= c <= 'Z' then Some(c as int - 'A' as int)
    else if 'a' <= c <= 'z' then Some(c as int - 'a' as int + 26)
    else if '0' <= c <= '9' then Some(c as int - '0' as int + 52)
    else if c == '+' then Some(62)
    else if c == '/' then Some(63)
    else None
  }

  lemma CharsAreDistinct(s: Sextet)
    ensures SextetOf(CharOf(s)) == Some(s) && CharOf(s) != '='
  {
  }

  /** The four characters of three bytes. */
  function Group(b0: Byte, b1: Byte, b2: Byte): (text: string)
    ensures |text| == 4
  {
    [CharOf(b0 as int / 4), CharOf(b0 as int % 4 * 16 + b1 as int / 16),
     CharOf(b1 as int % 16 * 4 + b2 as int / 64), CharOf(b2 as int % 64)]
  }

  function Encode(bytes: seq<Byte>): (text: string)
    ensures |text| == (|bytes| + 2) / 3 * 4
  {
    if bytes == [] then ""
    else
      var b0 := bytes[0] as int;
      if |bytes| == 1 then [CharOf(b0 / 4), CharOf(b0 % 4 * 16), '=', '=']
      else
        var b1 := bytes[1] as int;
        if |bytes| == 2 then [CharOf(b0 / 4), CharOf(b0 % 4 * 16 + b1 / 16), CharOf(b1 % 16 * 4), '=']
        else
          Group(bytes[0], bytes[1], bytes[2]) + Encode(bytes[3..])
  }

  function First(s0: Sextet, s1: Sextet): (b: Byte) {
    (s0 * 4 + s1 / 16) as Byte
  }

  function Second(s1: Sextet, s2: Sextet): (b: Byte) {
    (s1 % 16 * 16 + s2 / 4) as Byte
  }

  function Third(s2: Sextet, s3: Sextet): (b: Byte) {
    (s2 % 4 * 64 + s3) as Byte
  }

  /** Strict decoding: the alphabet only, whole groups of four, padding only at the very end. */
  function Decode(text: string): (bytes: Option<seq<Byte>>) {
    if text == "" then Some([])
    else if |text| < 4 then None
    else
      var s0, s1 := SextetOf(text[0]), SextetOf(text[1]);
      if s0.None? || s1.None? then None
      else if |text| == 4 && text[2] == '=' && text[3] == '=' then Some([First(s0.value, s1.value)])
      else
        var s2 := SextetOf(text[2]);
        if s2.None? then None
        else if |text| == 4 && text[3] == '=' then
          Some([First(s0.value, s1.value), Second(s1.value, s2.value)])
        else
          var s3 := SextetOf(text[3]);
          if s3.None? then None
          else
            match Decode(text[4..])
            case None => None
            case Some(rest) =>
              Some([First(s0.value, s1.value), Second(s1.value, s2.value), Third(s2.value, s3.value)] + rest)
  }

  lemma GroupOfThree(b0: Byte, b1: Byte, b2: Byte)
    ensures First(b0 as int / 4, b0 as int % 4 * 16 + b1 as int / 16) == b0
    ensures Second(b0 as int % 4 * 16 + b1 as int / 16, b1 as int % 16 * 4 + b2 as int / 64) == b1
    ensures Third(b1 as int % 16 * 4 + b2 as int / 64, b2 as int % 64) == b2
  {
  }

  /** A whole group decodes to its three bytes, whatever follows. */
  lemma DecodeGroup(b0: Byte, b1: Byte, b2: Byte, rest: string)
    requires Decode(rest).Some?
    ensures Decode(Group(b0, b1, b2) + rest) == Some([b0, b1, b2] + Decode(rest).value)
  {
    GroupOfThree(b0, b1, b2);
    CharsAreDistinct(b0 as int / 4);
    CharsAreDistinct(b0 as int % 4 * 16 + b1 as int / 16);
    CharsAreDistinct(b1 as int % 16 * 4 + b2 as int / 64);
    CharsAreDistinct(b2 as int % 64);
    var text := Group(b0, b1, b2) + rest;
    assert text[4..] == rest;
    assert text[..4] == Group(b0, b1, b2);
  }

  lemma DecodePair(b0: Byte, b1: Byte)
    ensures Decode(Encode([b0, b1])) == Some([b0, b1])
  {
    GroupOfThree(b0, b1, 0);
    var s0: Sextet, s1: Sextet, s2: Sextet :=
      b0 as int / 4, b0 as int % 4 * 16 + b1 as int / 16, b1 as int % 16 * 4;
    CharsAreDistinct(s0);
    CharsAreDistinct(s1);
    CharsAreDistinct(s2);
    assert Encode([b0, b1]) == [CharOf(s0), CharOf(s1), CharOf(s2), '='];
    assert Decode([CharOf(s0), CharOf(s1), CharOf(s2), '=']) == Some([First(s0, s1), Second(s1, s2)]);
  }

  lemma DecodeSingle(b0: Byte)
    ensures Decode(Encode([b0])) == Some([b0])
  {
  }

  /** Decoding undoes encoding, for every byte array. */
  lemma {:induction false} DecodeEncode(bytes: seq<Byte>)
    ensures Decode(Encode(bytes)) == Some(bytes)
  {
    if |bytes| >= 3 {
      DecodeEncode(bytes[3..]);
      DecodeGroup(bytes[0], bytes[1], bytes[2], Encode(bytes[3..]));
      assert bytes == [bytes[0], bytes[1], bytes[2]] + bytes[3..];
    } else if |bytes| == 2 {
      DecodePair(bytes[0], bytes[1]);
      assert bytes == [bytes[0], bytes[1]];
    } else if |bytes| == 1 {
      DecodeSingle(bytes[0]);
      assert bytes == [bytes[0]];
    }
  }
}
