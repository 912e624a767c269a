/**
  * The standard padded base64 encoding of RFC 4648 section 4, as used for the
  * credentials of the Basic authentication scheme.  `Encode` is the encoder;
  * `Decode` is its inverse, used to state what the encoding preserves.
  */
module Base64 {
  import opened Wrappers
  import opened Bytes

  /** A 6-bit group, the unit one output character stands for. */
  type sextet = x: int | 0 <= x < 64

  const Pad: char := '='

  /** The 64 characters of the alphabet of RFC 4648 section 4 (Table 1). */
  predicate IsAlphabetChar(c: char) {
    || 'A' <= c <= 'Z'
    || 'a' <= c <= 'z'
    || '0' <= c <= '9'
    || c == '+'
    || c == '/'
  }

  /** The three runs of Table 1 of RFC 4648, written out. */
  const UpperCase: string := "ABCDEFGHIJKLMNOPQRSTUVWXYZ"
  const LowerCase: string := "abcdefghijklmnopqrstuvwxyz"
  const Digits: string := "0123456789"

  /** Table 1 of RFC 4648: the character at index v encodes the value v. */
  const Alphabet: string := UpperCase + LowerCase + Digits + "+/"

  /** The character that encodes `v`. */
  function CharOf(v: sextet): (c: char)
    ensures IsAlphabetChar(c)
  {
    if v < 26 then ('A' as int + v) as char
    else if v < 52 then ('a' as int + (v - 26)) as char
    else if v < 62 then ('0' as int + (v - 52)) as char
    else if v == 62 then '+'
    else '/'
  }

  /** The value an alphabet character encodes. */
  function ValueOf(c: char): (v: sextet)
    requires IsAlphabetChar(c)
    ensures CharOf(v) == c
  {
    if 'A' <= c <= 'Z' then c as int - 'A' as int
    else if 'a' <= c <= 'z' then c as int - 'a' as int + 26
    else if '0' <= c <= '9' then c as int - '0' as int + 52
    else if c == '+' then 62
    else 63
  }

  /** `CharOf` is Table 1 of RFC 4648, entry by entry. */
  lemma CharOfIsTable(v: sextet)
    ensures CharOf(v) == Alphabet[v]
  {
  }

  /** Distinct values have distinct characters, so decoding a character is unambiguous. */
  lemma ValueOfCharOf(v: sextet)
    ensures ValueOf(CharOf(v)) == v
  {
  }

  /** Every character of an encoding is an alphabet character or padding. */
  predicate IsEncodingChar(c: char) {
    IsAlphabetChar(c) || c == Pad
  }

  /** Four output characters for three input bytes (24 bits). */
  function EncodeGroup(b0: byte, b1: byte, b2: byte): (s: string)
    ensures |s| == 4
    ensures forall i :: 0 <= i < 4 ==> IsAlphabetChar(s[i])
  {
    [CharOf(b0 / 4), CharOf((b0 % 4) * 16 + b1 / 16), CharOf((b1 % 16) * 4 + b2 / 64), CharOf(b2 % 64)]
  }

  /**
    * Go's `base64.StdEncoding.EncodeToString`: full groups of three bytes from
    * the front, then a final group of one or two bytes padded with '='.
    */
  function Encode(b: seq<byte>): (s: string)
    ensures |s| == 4 * ((|b| + 2) / 3)
    ensures forall i :: 0 <= i < |s| ==> IsEncodingChar(s[i])
    decreases |b|
  {
    if |b| == 0 then []
    else if |b| == 1 then [CharOf(b[0] / 4), CharOf((b[0] % 4) * 16), Pad, Pad]
    else if |b| == 2 then [CharOf(b[0] / 4), CharOf((b[0] % 4) * 16 + b[1] / 16), CharOf((b[1] % 16) * 4), Pad]
    else EncodeGroup(b[0], b[1], b[2]) + Encode(b[3..])
  }

  /** Three bytes from four alphabet characters. */
  function DecodeGroup(c0: char, c1: char, c2: char, c3: char): (b: seq<byte>)
    requires IsAlphabetChar(c0) && IsAlphabetChar(c1) && IsAlphabetChar(c2) && IsAlphabetChar(c3)
    ensures |b| == 3
  {
    var v0, v1, v2, v3 := ValueOf(c0), ValueOf(c1), ValueOf(c2), ValueOf(c3);
    [v0 * 4 + v1 / 16, (v1 % 16) * 16 + v2 / 4, (v2 % 4) * 64 + v3]
  }

  /** The last quadruple, which may end in one or two padding characters. */
  function DecodeLast(s: string): (r: Option<seq<byte>>)
    requires |s| == 4
    ensures r.Some? ==> 1 <= |r.value| <= 3
  {
    if !IsAlphabetChar(s[0]) || !IsAlphabetChar(s[1]) then None
    else if s[2] == Pad && s[3] == Pad then
      Some([ValueOf(s[0]) * 4 + ValueOf(s[1]) / 16])
    else if IsAlphabetChar(s[2]) && s[3] == Pad then
      Some([ValueOf(s[0]) * 4 + ValueOf(s[1]) / 16, (ValueOf(s[1]) % 16) * 16 + ValueOf(s[2]) / 4])
    else if IsAlphabetChar(s[2]) && IsAlphabetChar(s[3]) then
      Some(DecodeGroup(s[0], s[1], s[2], s[3]))
    else None
  }

  /** Decoding of a padded encoding; padding is accepted only in the last quadruple. */
  function Decode(s: string): (r: Option<seq<byte>>)
    decreases |s|
  {
    if |s| == 0 then Some([])
    else if |s| < 4 then None
    else if |s| == 4 then DecodeLast(s)
    else if !(IsAlphabetChar(s[0]) && IsAlphabetChar(s[1]) && IsAlphabetChar(s[2]) && IsAlphabetChar(s[3])) then None
    else match Decode(s[4..])
      case None => None
      case Some(rest) => Some(DecodeGroup(s[0], s[1], s[2], s[3]) + rest)
  }

  /** The three bytes of a group survive encoding and decoding. */
  lemma DecodeEncodeGroup(b0: byte, b1: byte, b2: byte)
    ensures var s := EncodeGroup(b0, b1, b2);
            DecodeGroup(s[0], s[1], s[2], s[3]) == [b0, b1, b2]
  {
    var v0, v1, v2, v3 := b0 / 4, (b0 % 4) * 16 + b1 / 16, (b1 % 16) * 4 + b2 / 64, b2 % 64;
    ValueOfCharOf(v0);
    ValueOfCharOf(v1);
    ValueOfCharOf(v2);
    ValueOfCharOf(v3);
    assert v1 / 16 == b0 % 4 && v1 % 16 == b1 / 16;
    assert v2 / 4 == b1 % 16 && v2 % 4 == b2 / 64;
    assert v0 * 4 + v1 / 16 == b0;
    assert (v1 % 16) * 16 + v2 / 4 == b1;
    assert (v2 % 4) * 64 + v3 == b2;
  }

  /** A final single byte survives encoding and decoding. */
  lemma DecodeEncodeOne(b0: byte)
    ensures Decode(Encode([b0])) == Some([b0])
  {
  }

  /** A final pair of bytes survives encoding and decoding. */
  lemma DecodeEncodeTwo(b0: byte, b1: byte)
    ensures Decode(Encode([b0, b1])) == Some([b0, b1])
  {
    var v1 := (b0 % 4) * 16 + b1 / 16;
    ValueOfCharOf(b0 / 4);
    ValueOfCharOf(v1);
    ValueOfCharOf((b1 % 16) * 4);
    assert v1 / 16 == b0 % 4 && v1 % 16 == b1 / 16;
    assert ((b1 % 16) * 4) / 4 == b1 % 16;
  }

  /** A full group on its own decodes to its three bytes. */
  lemma DecodeGroupAlone(b0: byte, b1: byte, b2: byte)
    ensures Decode(EncodeGroup(b0, b1, b2)) == Some([b0, b1, b2])
  {
    var g := EncodeGroup(b0, b1, b2);
    DecodeEncodeGroup(b0, b1, b2);
    assert g[2] != Pad && g[3] != Pad;
  }

  /** A full group followed by more input decodes group by group. */
  lemma DecodeGroupThen(b0: byte, b1: byte, b2: byte, rest: string, r: seq<byte>)
    requires rest != [] && Decode(rest) == Some(r)
    ensures Decode(EncodeGroup(b0, b1, b2) + rest) == Some([b0, b1, b2] + r)
  {
    var g := EncodeGroup(b0, b1, b2);
    var s := g + rest;
    DecodeEncodeGroup(b0, b1, b2);
    assert s[..4] == g && s[4..] == rest;
    assert IsAlphabetChar(s[0]) && IsAlphabetChar(s[1]) && IsAlphabetChar(s[2]) && IsAlphabetChar(s[3]);
  }

  /** A sequence of at least three bytes is its first group followed by the rest. */
  lemma SplitGroup(b: seq<byte>)
    requires |b| >= 3
    ensures b == [b[0], b[1], b[2]] + b[3..]
  {
  }

  /** Encoding a full group in front of `t` puts its four characters in front of the encoding of `t`. */
  lemma EncodeCons(b0: byte, b1: byte, b2: byte, t: seq<byte>)
    ensures Encode([b0, b1, b2] + t) == EncodeGroup(b0, b1, b2) + Encode(t)
  {
  }

  /** If `t` round-trips, so does `t` with a full group in front. */
  lemma DecodeEncodeStep(b0: byte, b1: byte, b2: byte, t: seq<byte>)
    requires Decode(Encode(t)) == Some(t)
    ensures Decode(Encode([b0, b1, b2] + t)) == Some([b0, b1, b2] + t)
  {
    EncodeCons(b0, b1, b2, t);
    if t == [] {
      assert Encode(t) == [];
      assert [b0, b1, b2] + t == [b0, b1, b2];
      DecodeGroupAlone(b0, b1, b2);
    } else {
      DecodeGroupThen(b0, b1, b2, Encode(t), t);
    }
  }

  /** Decoding inverts encoding: no byte sequence is lost or altered (RFC 4648 section 4). */
  lemma {:induction false} DecodeEncode(b: seq<byte>)
    ensures Decode(Encode(b)) == Some(b)
    decreases |b|
  {
    if |b| == 0 {
      assert Encode(b) == [];
    } else if |b| == 1 {
      assert b == [b[0]];
      DecodeEncodeOne(b[0]);
    } else if |b| == 2 {
      assert b == [b[0], b[1]];
      DecodeEncodeTwo(b[0], b[1]);
    } else {
      DecodeEncode(b[3..]);
      DecodeEncodeStep(b[0], b[1], b[2], b[3..]);
      SplitGroup(b);
    }
  }

  /** Encoding is injective: different byte sequences have different encodings. */
  lemma EncodeInjective(a: seq<byte>, b: seq<byte>)
    requires Encode(a) == Encode(b)
    ensures a == b
  {
    DecodeEncode(a);
    DecodeEncode(b);
  }

  /** Padding appears only in the last two positions of an encoding. */
  lemma {:induction false} EncodePadding(b: seq<byte>)
    ensures forall i :: 0 <= i < |Encode(b)| && Encode(b)[i] == Pad ==> |Encode(b)| - 2 <= i
    decreases |b|
  {
    if |b| >= 3 {
      EncodePadding(b[3..]);
      var t := Encode(b[3..]);
      var g := EncodeGroup(b[0], b[1], b[2]);
      var s := Encode(b);
      SplitGroup(b);
      EncodeCons(b[0], b[1], b[2], b[3..]);
      assert |s| == 4 + |t|;
      forall i | 0 <= i < 4 ensures s[i] != Pad {
        assert s[i] == g[i];
      }
      forall i | 4 <= i < |s| && s[i] == Pad ensures |s| - 2 <= i {
        assert s[i] == t[i - 4];
      }
    }
  }

  /** An input whose length is a multiple of three is encoded without any padding. */
  lemma {:induction false} EncodeNoPadding(b: seq<byte>)
    requires |b| % 3 == 0
    ensures forall i :: 0 <= i < |Encode(b)| ==> IsAlphabetChar(Encode(b)[i])
    decreases |b|
  {
    if |b| >= 3 {
      EncodeNoPadding(b[3..]);
      var t := Encode(b[3..]);
      var g := EncodeGroup(b[0], b[1], b[2]);
      var s := Encode(b);
      SplitGroup(b);
      EncodeCons(b[0], b[1], b[2], b[3..]);
      assert |s| == 4 + |t|;
      forall i | 0 <= i < 4 ensures IsAlphabetChar(s[i]) {
        assert s[i] == g[i];
      }
      forall i | 4 <= i < |s| ensures IsAlphabetChar(s[i]) {
        assert s[i] == t[i - 4];
      }
    }
  }

  /** The test vectors of RFC 4648 section 10 for the standard encoding ("f" is byte 102, "o" 111, "b" 98, "a" 97, "r" 114). */
  lemma StandardTestVectors()
    ensures Encode([]) == ""
    ensures Encode([102]) == "Zg=="
    ensures Encode([102, 111]) == "Zm8="
    ensures Encode([102, 111, 111]) == "Zm9v"
  {
  }

  /** The group "foo" encodes to "Zm9v". */
  lemma FooGroup()
    ensures EncodeGroup(102, 111, 111) == "Zm9v"
  {
    assert CharOf(25) == 'Z' && CharOf(38) == 'm' && CharOf(61) == '9' && CharOf(47) == 'v';
  }

  /** The test vector "foob" of RFC 4648 section 10: the "foo" group, then "b" padded. */
  lemma TestVectorFoob()
    ensures Encode([102, 111, 111, 98]) == "Zm9vYg=="
  {
    FooGroup();
    assert Encode([98]) == "Yg==";
    EncodeCons(102, 111, 111, [98]);
    assert [102, 111, 111] + [98] == [102, 111, 111, 98];
  }

  /** The test vector "fooba" of RFC 4648 section 10: the "foo" group, then "ba" padded. */
  lemma TestVectorFooba()
    ensures Encode([102, 111, 111, 98, 97]) == "Zm9vYmE="
  {
    FooGroup();
    assert Encode([98, 97]) == "YmE=";
    EncodeCons(102, 111, 111, [98, 97]);
    assert [102, 111, 111] + [98, 97] == [102, 111, 111, 98, 97];
  }

  /** The test vector "foobar" of RFC 4648 section 10: two full groups, no padding. */
  lemma TestVectorFoobar()
    ensures Encode([102, 111, 111, 98, 97, 114]) == "Zm9vYmFy"
  {
    FooGroup();
    assert EncodeGroup(98, 97, 114) == "YmFy";
    EncodeCons(98, 97, 114, []);
    assert [98, 97, 114] + [] == [98, 97, 114];
    EncodeCons(102, 111, 111, [98, 97, 114]);
    assert [102, 111, 111] + [98, 97, 114] == [102, 111, 111, 98, 97, 114];
  }
}
