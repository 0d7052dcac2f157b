/**
  Base 64 encoding as defined in section 4 of RFC 4648, and the browser's `btoa` and
  `atob`, which convert between "binary strings" (one character per byte, every
  character code below 256) and base 64 text.

  `atob` follows the "forgiving-base64 decode" algorithm of the WHATWG Infra standard: it
  removes ASCII whitespace, accepts the text with or without its `=` padding, and
  ignores the unused low bits of the last group.
*/
module Base64 {
  import opened Wrappers

  type byte = b: int | 0 <= b < 256
  type Bytes = seq<byte>
  type sextet = v: int | 0 <= v < 64

  const PadChar: char := '='

  /** The character of the base 64 alphabet (RFC 4648, section 4, Table 1) that stands for `v`. */
  function Letter(v: sextet): (c: char)
    ensures ValueOf(c) == Some(v)
  {
    if v < 26 then ('A' as int + v) as char
    else if v < 52 then ('a' as int + (v - 26)) as char
    else if v < 62 then ('0' as int + (v - 52)) as char
    else if v == 62 then '+'
    else '/'
  }

  /** The value of an alphabet character, or None for any other character. */
  function ValueOf(c: char): Option<sextet>
  {
    if 'A' <= c <= 'Z' then Some(c as int - 'A' as int)
    else if 'a' <= c <= 'z' then Some(c as int - 'a' as int + 26)
    else if '0' <= c <= '9' then Some(c as int - '0' as int + 52)
    else if c == '+' then Some(62)
    else if c == '/' then Some(63)
    else None
  }

  predicate IsLetter(c: char) { ValueOf(c).Some? }

  function Letters(vs: seq<sextet>): (s: string)
    ensures |s| == |vs|
    ensures forall i :: 0 <= i < |vs| ==> ValueOf(s[i]) == Some(vs[i])
  {
    seq(|vs|, i requires 0 <= i < |vs| => Letter(vs[i]))
  }

  function Values(s: string): (vs: seq<sextet>)
    requires forall i :: 0 <= i < |s| ==> IsLetter(s[i])
  {
    seq(|s|, i requires 0 <= i < |s| && IsLetter(s[i]) => ValueOf(s[i]).value as sextet)
  }

  /** The four 6-bit values of the 24 bits `b0 b1 b2`, most significant first. */
  function SplitGroup(b0: byte, b1: byte, b2: byte): (vs: seq<sextet>)
    ensures |vs| == 4
  {
    [b0 / 4, (b0 % 4) * 16 + b1 / 16, (b1 % 16) * 4 + b2 / 64, b2 % 64]
  }

  /** The three bytes of the 24 bits `v0 v1 v2 v3`. */
  function JoinGroup(v0: sextet, v1: sextet, v2: sextet, v3: sextet): (bs: Bytes)
    ensures |bs| == 3
  {
    [v0 * 4 + v1 / 16, (v1 % 16) * 16 + v2 / 4, (v2 % 4) * 64 + v3]
  }

  /**
    The 6-bit groups of `bs` without padding. A final group of 1 or 2 bytes is
    completed with zero bits and yields 2 or 3 values (RFC 4648, section 4).
  */
  function Sextets(bs: Bytes): (vs: seq<sextet>)
    decreases |bs|
  {
    if |bs| == 0 then []
    else if |bs| == 1 then SplitGroup(bs[0], 0, 0)[..2]
    else if |bs| == 2 then SplitGroup(bs[0], bs[1], 0)[..3]
    else SplitGroup(bs[0], bs[1], bs[2]) + Sextets(bs[3..])
  }

  /** The bytes that a sequence of 6-bit groups carries; the bits left over at the end are dropped. */
  function Octets(vs: seq<sextet>): (bs: Bytes)
    requires |vs| % 4 != 1
    decreases |vs|
  {
    if |vs| == 0 then []
    else if |vs| == 2 then JoinGroup(vs[0], vs[1], 0, 0)[..1]
    else if |vs| == 3 then JoinGroup(vs[0], vs[1], vs[2], 0)[..2]
    else JoinGroup(vs[0], vs[1], vs[2], vs[3]) + Octets(vs[4..])
  }

  /** The padding that completes the last group of 4 characters (RFC 4648, section 4, cases 2 and 3). */
  function Padding(rest: nat): string
  {
    if rest == 1 then [PadChar, PadChar] else if rest == 2 then [PadChar] else []
  }

  /** The base 64 encoding of `bs`, with padding. */
  function Encode(bs: Bytes): (s: string)
  {
    Letters(Sextets(bs)) + Padding(|bs| % 3)
  }

  /** ASCII whitespace as the WHATWG Infra standard defines it: TAB, LF, FF, CR and SPACE. */
  predicate IsAsciiWhitespace(c: char)
  {
    c as int == 0x09 || c as int == 0x0A || c as int == 0x0C || c as int == 0x0D || c as int == 0x20
  }

  function RemoveAsciiWhitespace(s: string): (t: string)
    ensures forall i :: 0 <= i < |t| ==> !IsAsciiWhitespace(t[i])
  {
    if |s| == 0 then []
    else if IsAsciiWhitespace(s[0]) then RemoveAsciiWhitespace(s[1..])
    else [s[0]] + RemoveAsciiWhitespace(s[1..])
  }

  /** Drops one or two trailing `=` from a text whose length is a multiple of 4. */
  function StripPadding(t: string): string
  {
    if |t| % 4 == 0 && |t| >= 2 && t[|t| - 2] == PadChar && t[|t| - 1] == PadChar then t[..|t| - 2]
    else if |t| % 4 == 0 && |t| >= 1 && t[|t| - 1] == PadChar then t[..|t| - 1]
    else t
  }

  /** Forgiving-base64 decode: None where `atob` throws. */
  function Decode(s: string): Option<Bytes>
  {
    var t := StripPadding(RemoveAsciiWhitespace(s));
    if |t| % 4 == 1 || exists i :: 0 <= i < |t| && !IsLetter(t[i]) then None
    else Some(Octets(Values(t)))
  }

  // ---------------------------------------------------------------------------
  // Binary strings and the browser functions btoa / atob

  /** The string whose i-th character has code bs[i] (String.fromCharCode for each byte). */
  function BinaryString(bs: Bytes): (s: string)
    ensures |s| == |bs| && IsBinary(s)
  {
    seq(|bs|, i requires 0 <= i < |bs| => bs[i] as char)
  }

  /** Every character code is below 256, as `btoa` requires. */
  predicate IsBinary(s: string)
  {
    forall i :: 0 <= i < |s| ==> s[i] as int < 256
  }

  function CharCodes(s: string): (bs: Bytes)
    requires IsBinary(s)
  {
    seq(|s|, i requires 0 <= i < |s| => s[i] as int)
  }

  /**
    `btoa`: throws InvalidCharacterError on a character code of 256 or more; otherwise
    its result is base 64 text, in groups of four, that decodes to the character codes.
  */
  function Btoa(s: string): (r: Result<string>)
    ensures r.Success? <==> IsBinary(s)
    ensures r.Failure? ==> r.error == InvalidCharacter
    ensures r.Success? ==> Decode(r.value) == Some(CharCodes(s)) && |r.value| % 4 == 0
  {
    if IsBinary(s) then
      DecodeEncode(CharCodes(s));
      EncodeLength(CharCodes(s));
      Success(Encode(CharCodes(s)))
    else Failure(InvalidCharacter)
  }

  /**
    `atob`: throws InvalidCharacterError exactly on text that is not base 64; otherwise
    its result is a binary string whose character codes are the decoded bytes.
  */
  function Atob(s: string): (r: Result<string>)
    ensures r.Success? <==> Decode(s).Some?
    ensures r.Failure? ==> r.error == InvalidCharacter
    ensures r.Success? ==> IsBinary(r.value) && CharCodes(r.value) == Decode(s).value
  {
    match Decode(s)
    case None => Failure(InvalidCharacter)
    case Some(bs) =>
      assert CharCodes(BinaryString(bs)) == bs;
      Success(BinaryString(bs))
  }

  // ---------------------------------------------------------------------------
  // Properties

  /** A full group of 3 bytes survives the trip to sextets and back. */
  lemma GroupOf3(b0: byte, b1: byte, b2: byte)
    ensures var v := SplitGroup(b0, b1, b2); JoinGroup(v[0], v[1], v[2], v[3]) == [b0, b1, b2]
  {
  }

  /** So does a final group of 2 bytes, from its 3 sextets. */
  lemma GroupOf2(b0: byte, b1: byte)
    ensures var v := SplitGroup(b0, b1, 0); JoinGroup(v[0], v[1], v[2], 0)[..2] == [b0, b1]
  {
  }

  /** And a final group of 1 byte, from its 2 sextets. */
  lemma GroupOf1(b0: byte)
    ensures var v := SplitGroup(b0, 0, 0); JoinGroup(v[0], v[1], 0, 0)[..1] == [b0]
  {
  }

  /** Four values per full group, and 2 or 3 for a final partial group. */
  lemma {:induction false} SextetsLength(bs: Bytes)
    ensures |Sextets(bs)| == 4 * (|bs| / 3) + (if |bs| % 3 == 0 then 0 else |bs| % 3 + 1)
    ensures |Sextets(bs)| % 4 != 1
    decreases |bs|
  {
    if |bs| >= 3 {
      SextetsLength(bs[3..]);
    }
  }

  /** Decoding the 6-bit groups of `bs` gives back `bs`. */
  lemma {:induction false} OctetsOfSextets(bs: Bytes)
    ensures |Sextets(bs)| % 4 != 1
    ensures Octets(Sextets(bs)) == bs
    decreases |bs|
  {
    SextetsLength(bs);
    if |bs| == 1 {
      GroupOf1(bs[0]);
    } else if |bs| == 2 {
      GroupOf2(bs[0], bs[1]);
    } else if |bs| >= 3 {
      var head := SplitGroup(bs[0], bs[1], bs[2]);
      var tail := Sextets(bs[3..]);
      OctetsOfSextets(bs[3..]);
      var vs := head + tail;
      assert Sextets(bs) == vs;
      assert vs[4..] == tail;
      assert vs[0] == head[0] && vs[1] == head[1] && vs[2] == head[2] && vs[3] == head[3];
      GroupOf3(bs[0], bs[1], bs[2]);
      assert Octets(vs) == [bs[0], bs[1], bs[2]] + bs[3..];
      assert bs == [bs[0], bs[1], bs[2]] + bs[3..];
    }
  }

  /** Every character of an encoding is an alphabet letter or `=`. */
  lemma EncodeAlphabet(bs: Bytes)
    ensures forall i :: 0 <= i < |Encode(bs)| ==> IsLetter(Encode(bs)[i]) || Encode(bs)[i] == PadChar
  {
  }

  /** An encoding is 4 characters for every started group of 3 bytes. */
  lemma EncodeLength(bs: Bytes)
    ensures |Encode(bs)| == 4 * ((|bs| + 2) / 3)
    ensures |Encode(bs)| % 4 == 0
  {
    SextetsLength(bs);
  }

  lemma {:induction false} RemoveAsciiWhitespaceNoop(s: string)
    requires forall i :: 0 <= i < |s| ==> !IsAsciiWhitespace(s[i])
    ensures RemoveAsciiWhitespace(s) == s
    decreases |s|
  {
    if |s| > 0 {
      RemoveAsciiWhitespaceNoop(s[1..]);
      assert s == [s[0]] + s[1..];
    }
  }

  /** Padding after alphabet letters is exactly what StripPadding removes. */
  lemma StripPaddingOfPadded(body: string, rest: nat)
    requires forall i :: 0 <= i < |body| ==> IsLetter(body[i])
    requires (|body| + |Padding(rest)|) % 4 == 0
    requires rest == 1 || rest == 2 ==> |body| > 0
    ensures StripPadding(body + Padding(rest)) == body
  {
    var s := body + Padding(rest);
    assert !IsLetter(PadChar);
    if rest == 1 {
      assert s[..|s| - 2] == body;
    } else if rest == 2 {
      assert s[|s| - 2] == body[|body| - 1];
      assert s[..|s| - 1] == body;
    } else {
      assert s == body;
      if |s| > 0 {
        assert IsLetter(s[|s| - 1]);
      }
    }
  }

  lemma StripPaddingOfEncode(bs: Bytes)
    ensures StripPadding(Encode(bs)) == Letters(Sextets(bs))
  {
    EncodeLength(bs);
    SextetsLength(bs);
    var body := Letters(Sextets(bs));
    assert forall i :: 0 <= i < |body| ==> IsLetter(body[i]);
    StripPaddingOfPadded(body, |bs| % 3);
  }

  /** Decoding an encoding gives back the bytes: `Decode(Encode(bs)) == Some(bs)`. */
  lemma DecodeEncode(bs: Bytes)
    ensures Decode(Encode(bs)) == Some(bs)
  {
    var s := Encode(bs);
    var vs := Sextets(bs);
    EncodeAlphabet(bs);
    assert forall i :: 0 <= i < |s| ==> !IsAsciiWhitespace(s[i]) by {
      forall i | 0 <= i < |s| ensures !IsAsciiWhitespace(s[i]) {
        assert IsLetter(s[i]) || s[i] == PadChar;
      }
    }
    RemoveAsciiWhitespaceNoop(s);
    StripPaddingOfEncode(bs);
    var t := Letters(vs);
    OctetsOfSextets(bs);
    assert forall i :: 0 <= i < |t| ==> IsLetter(t[i]);
    assert Values(t) == vs;
  }

  /** `btoa` never throws on a binary string, and `atob` undoes it. */
  lemma AtobBtoa(s: string)
    requires IsBinary(s)
    ensures Btoa(s).Success?
    ensures Atob(Btoa(s).value) == Success(s)
  {
    DecodeEncode(CharCodes(s));
    assert BinaryString(CharCodes(s)) == s;
  }

  /** `btoa` of the binary string of `bs` is the encoding of `bs`. */
  lemma BtoaBinaryString(bs: Bytes)
    ensures Btoa(BinaryString(bs)) == Success(Encode(bs))
  {
    assert CharCodes(BinaryString(bs)) == bs;
  }
}
