/**
  The state value of the authorization request (section 10.12 of RFC 6749):
  `name_platform_random`, where `random` is the padded base64url encoding of 16
  random bytes, and its decoding on the callback, which splits on '_' and reads
  the provider identity from the first two segments.
 */
module StateToken {
  import opened Wrappers
  import Split
  import Base64Url

  const Separator: char := '_'

  /** Number of random bytes drawn per state. */
  const RandomBytes: nat := 16

  /** A provider identity, the key of the provider registry. */
  datatype PlatformBase = PlatformBase(name: string, platform: string)

  /** Neither half of the identity contains the separator, so the state can be decoded. */
  predicate SeparatorFree(id: PlatformBase)
  {
    Separator !in id.name && Separator !in id.platform
  }

  /** The state layout: name, platform and random part joined by the separator. */
  function FormatState(name: string, platform: string, random: string): (s: string)
    ensures |s| == |name| + |platform| + |random| + 2
    ensures s[..|name|] == name && s[|name|] == Separator
    ensures s[|name| + 1..|name| + 1 + |platform|] == platform && s[|name| + |platform| + 1] == Separator
    ensures s[|name| + |platform| + 2..] == random
  {
    name + [Separator] + platform + [Separator] + random
  }

  /** The state minted at login from the identity and the random bytes. */
  function NewState(name: string, platform: string, bytes: seq<Base64Url.byte>): (s: string)
    ensures |s| == |name| + |platform| + 2 + 4 * ((|bytes| + 2) / 3)
    ensures s[..|name|] == name && s[|name| + 1..|name| + 1 + |platform|] == platform
    ensures s[|name|] == Separator && s[|name| + |platform| + 1] == Separator
    ensures Base64Url.Decode(s[|name| + |platform| + 2..]) == Some(bytes)
  {
    Base64Url.DecodeEncode(bytes);
    FormatState(name, platform, Base64Url.Encode(bytes))
  }

  /** A string with at least three segments is its first two segments, each followed
      by a separator, then the rest. */
  lemma SplitHead(s: string)
    requires |Split.Split(s, Separator)| >= 3
    ensures var parts := Split.Split(s, Separator);
            s == FormatState(parts[0], parts[1], Split.Join(parts[2..], Separator))
  {
    var parts := Split.Split(s, Separator);
    Split.JoinSplit(s, Separator);
    assert parts[1..][1..] == parts[2..];
  }

  /** The identity in a state, or None when the state has fewer than three segments. */
  function ParseState(s: string): (r: Option<PlatformBase>)
    ensures r.None? <==> Split.Count(s, Separator) < 2
    ensures r.Some? ==>
      && SeparatorFree(r.value)
      && |r.value.name| + |r.value.platform| + 2 <= |s|
      && s == FormatState(r.value.name, r.value.platform, s[|r.value.name| + |r.value.platform| + 2..])
  {
    var parts := Split.Split(s, Separator);
    Split.SplitCount(s, Separator);
    if |parts| < 3 then None
    else
      Split.SplitSegmentsFree(s, Separator);
      SplitHead(s);
      Some(PlatformBase(parts[0], parts[1]))
  }

  /** Decoding recovers the identity from any state whose name and platform are
      separator-free, whatever the random part is, separators included. */
  lemma {:induction false} ParseFormat(name: string, platform: string, random: string)
    requires SeparatorFree(PlatformBase(name, platform))
    ensures ParseState(FormatState(name, platform, random)) == Some(PlatformBase(name, platform))
  {
    var s := FormatState(name, platform, random);
    var tail := platform + [Separator] + random;
    assert s == name + [Separator] + tail;
    Split.SplitFirstSegment(name, Separator, tail);
    Split.SplitFirstSegment(platform, Separator, random);
  }

  /** Only strings with fewer than two separators fail to decode; a formatted state
      always has at least two. */
  lemma FormattedStateHasTwoSeparators(name: string, platform: string, random: string)
    ensures Split.Count(FormatState(name, platform, random), Separator) >= 2
  {
    Split.CountAppend(name + [Separator] + platform + [Separator], random, Separator);
    Split.CountAppend(name + [Separator] + platform, [Separator], Separator);
    Split.CountAppend(name + [Separator], platform, Separator);
    Split.CountAppend(name, [Separator], Separator);
  }

  /** The random part of a fresh state is 24 characters long, so the whole state is 26
      characters longer than the identity. */
  lemma NewStateLength(name: string, platform: string, bytes: seq<Base64Url.byte>)
    requires |bytes| == RandomBytes
    ensures |Base64Url.Encode(bytes)| == 24
    ensures |NewState(name, platform, bytes)| == |name| + |platform| + 26
  {
  }

  /** The random part may itself contain the separator: sixteen 0xFF bytes encode to
      a string that starts with '_'. */
  lemma RandomPartMayContainSeparator()
    ensures var bytes := seq(RandomBytes, _ => 255);
            Separator in Base64Url.Encode(bytes)
  {
  }

  /** Two states for the same identity are equal only if their random bytes are. */
  lemma NewStateInjective(name: string, platform: string, b1: seq<Base64Url.byte>, b2: seq<Base64Url.byte>)
    requires NewState(name, platform, b1) == NewState(name, platform, b2)
    ensures b1 == b2
  {
    var prefix := name + [Separator] + platform + [Separator];
    var e1, e2 := Base64Url.Encode(b1), Base64Url.Encode(b2);
    assert NewState(name, platform, b1) == prefix + e1;
    assert NewState(name, platform, b2) == prefix + e2;
    assert e1 == (prefix + e1)[|prefix|..];
    assert e2 == (prefix + e2)[|prefix|..];
    Base64Url.EncodeInjective(b1, b2);
  }

  /** Without escaping, an identity whose name contains the separator is read back as a
      different identity: "a_b"/"c" and "a"/"b_c" mint the same state, which decodes
      to "a"/"b". */
  lemma SeparatorInNameIsMisread(random: string)
    ensures FormatState("a_b", "c", random) == FormatState("a", "b_c", random)
    ensures ParseState(FormatState("a_b", "c", random)) == Some(PlatformBase("a", "b"))
  {
    assert FormatState("a_b", "c", random) == FormatState("a", "b", "c" + [Separator] + random);
    ParseFormat("a", "b", "c" + [Separator] + random);
  }
}
