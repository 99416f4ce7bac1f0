/**
  Go's `base64.URLEncoding.EncodeToString`: the padded base64url encoding of
  section 5 of RFC 4648. Its alphabet is A-Z, a-z, 0-9, '-' and '_', and '=' pads
  the last group to four characters. `Decode` is not used by the server; it is
  the inverse against which `Encode` is checked.
 */
module Base64Url {
  import opened Wrappers

  type byte = x: int | 0 <= x < 256

  type sextet = x: int | 0 <= x < 64

  const Pad: char := '='

  /** The 6-bit value of an alphabet character, or None for any other character. */
  function ValueOf(c: char): Option<sextet>
  {
    if 'A' <= c <= 'Z' then Some(c as int - 'A' as int)
    else if 'a' <= c <= 'z' then Some(c as int - 'a' as int + 26)
    else if '0' <= c <= '9' then Some(c as int - '0' as int + 52)
    else if c == '-' then Some(62)
    else if c == '_' then Some(63)
    else None
  }

  /** The character for a 6-bit value, in the URL-safe alphabet. */
  function Letter(x: sextet): (c: char)
    ensures ValueOf(c) == Some(x)
  {
    if x < 26 then ('A' as int + x) as char
    else if x < 52 then ('a' as int + (x - 26)) as char
    else if x < 62 then ('0' as int + (x - 52)) as char
    else if x == 62 then '-'
    else '_'
  }

  /** Characters that an encoding may contain. */
  predicate InAlphabet(c: char)
  {
    ValueOf(c).Some? || c == Pad
  }

  /** Text made only of alphabet characters. */
  predicate AllInAlphabet(s: string)
  {
    forall i :: 0 <= i < |s| ==> InAlphabet(s[i])
  }

  /** Concatenating alphabet text gives alphabet text. */
  lemma AlphabetAppend(a: string, b: string)
    requires AllInAlphabet(a) && AllInAlphabet(b)
    ensures AllInAlphabet(a + b)
  {
    assert forall i :: |a| <= i < |a + b| ==> (a + b)[i] == b[i - |a|];
  }

  /** Three bytes as four characters. */
  function EncodeGroup(b0: byte, b1: byte, b2: byte): (g: string)
    ensures |g| == 4 && AllInAlphabet(g) && g[3] != Pad
  {
    [Letter(b0 / 4), Letter((b0 % 4) * 16 + b1 / 16), Letter((b1 % 16) * 4 + b2 / 64), Letter(b2 % 64)]
  }

  /** A final single byte: two characters and two pads. */
  function EncodeOne(b0: byte): (g: string)
    ensures |g| == 4 && AllInAlphabet(g) && g[2] == Pad && g[3] == Pad
  {
    [Letter(b0 / 4), Letter((b0 % 4) * 16), Pad, Pad]
  }

  /** A final pair of bytes: three characters and one pad. */
  function EncodeTwo(b0: byte, b1: byte): (g: string)
    ensures |g| == 4 && AllInAlphabet(g) && g[2] != Pad && g[3] == Pad
  {
    [Letter(b0 / 4), Letter((b0 % 4) * 16 + b1 / 16), Letter((b1 % 16) * 4), Pad]
  }

  /** The padded encoding of `b`: full groups of three bytes, then a padded tail of one or two. */
  function Encode(b: seq<byte>): (s: string)
    ensures |s| == 4 * ((|b| + 2) / 3)
    ensures AllInAlphabet(s)
    decreases |b|
  {
    if |b| == 0 then ""
    else if |b| == 1 then EncodeOne(b[0])
    else if |b| == 2 then EncodeTwo(b[0], b[1])
    else
      var g, rest := EncodeGroup(b[0], b[1], b[2]), Encode(b[3..]);
      AlphabetAppend(g, rest);
      g + rest
  }

  /** The byte spread over the first two characters of a group. */
  function First(x0: sextet, x1: sextet): byte { x0 * 4 + x1 / 16 }

  /** The byte spread over the second and third characters of a group. */
  function Second(x1: sextet, x2: sextet): byte { (x1 % 16) * 16 + x2 / 4 }

  /** The byte spread over the last two characters of a group. */
  function Third(x2: sextet, x3: sextet): byte { (x2 % 4) * 64 + x3 }

  /** The bytes of one group of four characters; padding is allowed only in the last group. */
  function DecodeQuad(c0: char, c1: char, c2: char, c3: char, last: bool): Option<seq<byte>>
  {
    var v0, v1, v2, v3 := ValueOf(c0), ValueOf(c1), ValueOf(c2), ValueOf(c3);
    if v0.None? || v1.None? then None
    else if last && c2 == Pad && c3 == Pad then Some([First(v0.value, v1.value)])
    else if v2.None? then None
    else if last && c3 == Pad then Some([First(v0.value, v1.value), Second(v1.value, v2.value)])
    else if v3.None? then None
    else Some([First(v0.value, v1.value), Second(v1.value, v2.value), Third(v2.value, v3.value)])
  }

  /** The bytes a padded base64url string stands for, or None if it is not one. */
  function Decode(s: string): Option<seq<byte>>
    decreases |s|
  {
    if |s| == 0 then Some([])
    else if |s| < 4 then None
    else
      var quad, rest := DecodeQuad(s[0], s[1], s[2], s[3], |s| == 4), Decode(s[4..]);
      if quad.Some? && rest.Some? then Some(quad.value + rest.value) else None
  }

  lemma FirstInverse(b0: byte, b1: byte)
    ensures First(b0 / 4, (b0 % 4) * 16 + b1 / 16) == b0
  {
    assert ((b0 % 4) * 16 + b1 / 16) / 16 == b0 % 4;
  }

  lemma SecondInverse(b0: byte, b1: byte, b2: byte)
    ensures Second((b0 % 4) * 16 + b1 / 16, (b1 % 16) * 4 + b2 / 64) == b1
  {
    assert ((b0 % 4) * 16 + b1 / 16) % 16 == b1 / 16;
    assert ((b1 % 16) * 4 + b2 / 64) / 4 == b1 % 16;
  }

  lemma ThirdInverse(b1: byte, b2: byte)
    ensures Third((b1 % 16) * 4 + b2 / 64, b2 % 64) == b2
  {
    assert ((b1 % 16) * 4 + b2 / 64) % 4 == b2 / 64;
  }

  /** Each of the three shapes of a final or inner group decodes to the bytes it encodes. */
  lemma GroupRoundTrip(b0: byte, b1: byte, b2: byte, last: bool)
    ensures var g := EncodeGroup(b0, b1, b2); DecodeQuad(g[0], g[1], g[2], g[3], last) == Some([b0, b1, b2])
  {
    FirstInverse(b0, b1);
    SecondInverse(b0, b1, b2);
    ThirdInverse(b1, b2);
  }

  /** The final group of a one-byte tail. */
  lemma DecodeTwoPads(x0: sextet, x1: sextet)
    ensures Decode([Letter(x0), Letter(x1), Pad, Pad]) == Some([First(x0, x1)])
  {
    var s := [Letter(x0), Letter(x1), Pad, Pad];
    assert s[4..] == [];
    assert [First(x0, x1)] + [] == [First(x0, x1)];
  }

  /** The final group of a two-byte tail. */
  lemma DecodeOnePad(x0: sextet, x1: sextet, x2: sextet)
    ensures Decode([Letter(x0), Letter(x1), Letter(x2), Pad]) == Some([First(x0, x1), Second(x1, x2)])
  {
    var s := [Letter(x0), Letter(x1), Letter(x2), Pad];
    assert s[4..] == [];
    assert s[2] != Pad;
    assert [First(x0, x1), Second(x1, x2)] + [] == [First(x0, x1), Second(x1, x2)];
  }

  lemma OneByteRoundTrip(b0: byte)
    ensures Decode(EncodeOne(b0)) == Some([b0])
  {
    DecodeTwoPads(b0 / 4, (b0 % 4) * 16);
    FirstInverse(b0, 0);
  }

  lemma TwoByteRoundTrip(b0: byte, b1: byte)
    ensures Decode(EncodeTwo(b0, b1)) == Some([b0, b1])
  {
    DecodeOnePad(b0 / 4, (b0 % 4) * 16 + b1 / 16, (b1 % 16) * 4);
    FirstInverse(b0, b1);
    SecondInverse(b0, b1, 0);
  }

  /** Decoding a group followed by more text decodes the group, then the rest. */
  lemma DecodeAppend(g: string, rest: string)
    requires |g| == 4
    ensures Decode(g + rest) ==
      var quad, tail := DecodeQuad(g[0], g[1], g[2], g[3], |rest| == 0), Decode(rest);
      if quad.Some? && tail.Some? then Some(quad.value + tail.value) else None
  {
    assert (g + rest)[4..] == rest;
  }

  /** Decoding undoes encoding, for every byte string. */
  lemma {:induction false} DecodeEncode(b: seq<byte>)
    ensures Decode(Encode(b)) == Some(b)
    decreases |b|
  {
    if |b| == 1 {
      OneByteRoundTrip(b[0]);
      assert [b[0]] == b;
    } else if |b| == 2 {
      TwoByteRoundTrip(b[0], b[1]);
      assert [b[0], b[1]] == b;
    } else if |b| >= 3 {
      var g, rest := EncodeGroup(b[0], b[1], b[2]), Encode(b[3..]);
      assert Encode(b) == g + rest;
      DecodeEncode(b[3..]);
      GroupRoundTrip(b[0], b[1], b[2], |rest| == 0);
      DecodeAppend(g, rest);
      assert [b[0], b[1], b[2]] + b[3..] == b;
    }
  }

  /** Different bytes never encode to the same string. */
  lemma EncodeInjective(b1: seq<byte>, b2: seq<byte>)
    requires Encode(b1) == Encode(b2)
    ensures b1 == b2
  {
    DecodeEncode(b1);
    DecodeEncode(b2);
  }
}
