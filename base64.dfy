/** The base 64 encoding of section 4 of RFC 4648 (`base64.StdEncoding`): the standard alphabet
    and `=` padding. The installer only encodes; the decoder is here to state what the encoding keeps. */
module Base64 {
  import opened Wrappers

  type byte = x: int | 0 <= x < 256
  type sextet = x: int | 0 <= x < 64

  const Pad := '='

  predicate IsAlphabetChar(c: char)
  {
    ('A' <= c <= 'Z') || ('a' <= c <= 'z') || ('0' <= c <= '9') || c == '+' || c == '/'
  }

  /** Table 1 of RFC 4648: 0-25 are 'A'-'Z', 26-51 'a'-'z', 52-61 '0'-'9', then '+' and '/'. */
  function CharOf(i: sextet): (c: char)
    ensures IsAlphabetChar(c)
  {
    if i < 26 then (65 + i) as char
    else if i < 52 then (97 + i - 26) as char
    else if i < 62 then (48 + i - 52) as char
    else if i == 62 then '+'
    else '/'
  }

  function IndexOf(c: char): (i: sextet)
    requires IsAlphabetChar(c)
    ensures CharOf(i) == c
  {
    if 'A' <= c <= 'Z' then c as int - 65
    else if 'a' <= c <= 'z' then c as int - 97 + 26
    else if '0' <= c <= '9' then c as int - 48 + 52
    else if c == '+' then 62
    else 63
  }

  lemma IndexOfCharOf(i: sextet)
    ensures IndexOf(CharOf(i)) == i
  {
  }

  /** The number of `=` characters that end the encoding of `n` bytes. */
  function Padding(n: nat): nat
  {
    if n % 3 == 0 then 0 else 3 - n % 3
  }

  /** Three bytes as four characters. */
  function EncodeBlock(b0: byte, b1: byte, b2: byte): string
  {
    [CharOf(b0 / 4), CharOf((b0 % 4) * 16 + b1 / 16), CharOf((b1 % 16) * 4 + b2 / 64), CharOf(b2 % 64)]
  }

  /** `base64.StdEncoding.EncodeToString`: each group of three bytes becomes four characters, and a
      final group of one or two bytes is padded with `=` to four. */
  function Encode(data: seq<byte>): string
    decreases |data|
  {
    if |data| == 0 then ""
    else if |data| == 1 then
      [CharOf(data[0] / 4), CharOf((data[0] % 4) * 16), Pad, Pad]
    else if |data| == 2 then
      [CharOf(data[0] / 4), CharOf((data[0] % 4) * 16 + data[1] / 16), CharOf((data[1] % 16) * 4), Pad]
    else
      EncodeBlock(data[0], data[1], data[2]) + Encode(data[3..])
  }

  /** The encoding of n bytes has 4 * ceil(n / 3) characters. */
  lemma {:induction false} EncodeLength(data: seq<byte>)
    ensures |Encode(data)| == 4 * ((|data| + 2) / 3)
    decreases |data|
  {
    if |data| >= 3 {
      EncodeLength(data[3..]);
      assert (|data| + 2) / 3 == (|data[3..]| + 2) / 3 + 1;
    }
  }

  /** The alphabet part and the padding part of an encoding with `pad` trailing characters. */
  ghost predicate AlphabetThenPadding(s: string, pad: nat)
  {
    forall i :: 0 <= i < |s| ==>
      && (IsAlphabetChar(s[i]) <==> i < |s| - pad)
      && (s[i] == Pad <==> i >= |s| - pad)
  }

  lemma BlockAlphabet(b0: byte, b1: byte, b2: byte)
    ensures forall i :: 0 <= i < 4 ==> IsAlphabetChar(EncodeBlock(b0, b1, b2)[i]) && EncodeBlock(b0, b1, b2)[i] != Pad
  {
  }

  lemma PrefixAlphabet(block: string, rest: string, pad: nat)
    requires |block| == 4 && pad <= |rest|
    requires forall i :: 0 <= i < 4 ==> IsAlphabetChar(block[i]) && block[i] != Pad
    requires AlphabetThenPadding(rest, pad)
    ensures AlphabetThenPadding(block + rest, pad)
  {
    var s := block + rest;
    forall i | 0 <= i < |s|
      ensures (IsAlphabetChar(s[i]) <==> i < |s| - pad)
      ensures (s[i] == Pad <==> i >= |s| - pad)
    {
      if i < 4 {
        assert s[i] == block[i];
      } else {
        assert s[i] == rest[i - 4];
      }
    }
  }

  lemma PadIsNotAlphabet()
    ensures !IsAlphabetChar(Pad)
  {
  }

  /** Four characters: alphabet ones, then `pad` padding characters. */
  lemma QuantumAlphabet(s: string, pad: nat)
    requires |s| == 4 && pad <= 2
    requires forall i :: 0 <= i < 4 - pad ==> IsAlphabetChar(s[i])
    requires forall i :: 4 - pad <= i < 4 ==> s[i] == Pad
    ensures AlphabetThenPadding(s, pad)
  {
    PadIsNotAlphabet();
  }

  /** The encoding of a final group of fewer than three bytes. */
  lemma ShortAlphabet(data: seq<byte>)
    requires |data| < 3
    ensures AlphabetThenPadding(Encode(data), Padding(|data|))
  {
    if |data| == 1 {
      OneByteAlphabet(data);
    } else if |data| == 2 {
      TwoBytesAlphabet(data);
    }
  }

  lemma OneByteAlphabet(data: seq<byte>)
    requires |data| == 1
    ensures AlphabetThenPadding(Encode(data), 2)
  {
    var s := [CharOf(data[0] / 4), CharOf((data[0] % 4) * 16), Pad, Pad];
    assert Encode(data) == s;
    QuantumAlphabet(s, 2);
  }

  lemma TwoBytesAlphabet(data: seq<byte>)
    requires |data| == 2
    ensures AlphabetThenPadding(Encode(data), 1)
  {
    var s := [CharOf(data[0] / 4), CharOf((data[0] % 4) * 16 + data[1] / 16), CharOf((data[1] % 16) * 4), Pad];
    assert Encode(data) == s;
    QuantumAlphabet(s, 1);
  }

  lemma PaddingStep(n: nat)
    requires n >= 3
    ensures Padding(n) == Padding(n - 3)
  {
    assert n % 3 == (n - 3) % 3;
  }

  /** The padding fits in the encoding. */
  lemma PaddingFits(data: seq<byte>)
    ensures Padding(|data|) <= |Encode(data)|
  {
    EncodeLength(data);
    if |data| % 3 != 0 {
      assert (|data| + 2) / 3 >= 1;
    }
  }

  /** The alphabet part is the leading block and the rest's alphabet part. */
  lemma LongAlphabet(data: seq<byte>)
    requires |data| >= 3
    requires AlphabetThenPadding(Encode(data[3..]), Padding(|data[3..]|))
    ensures AlphabetThenPadding(Encode(data), Padding(|data|))
  {
    var block := EncodeBlock(data[0], data[1], data[2]);
    var rest := Encode(data[3..]);
    PaddingFits(data[3..]);
    BlockAlphabet(data[0], data[1], data[2]);
    PaddingStep(|data|);
    assert Encode(data) == block + rest;
    PrefixAlphabet(block, rest, Padding(|data[3..]|));
  }

  /** Every character of the encoding is from the alphabet, except the trailing padding. */
  lemma {:induction false} EncodeAlphabet(data: seq<byte>)
    ensures AlphabetThenPadding(Encode(data), Padding(|data|))
    decreases |data|
  {
    if |data| < 3 {
      ShortAlphabet(data);
    } else {
      EncodeAlphabet(data[3..]);
      LongAlphabet(data);
    }
  }

  /** The encoding is text made of the alphabet and padding only. */
  lemma EncodeCharacters(data: seq<byte>)
    ensures forall i :: 0 <= i < |Encode(data)| ==> IsAlphabetChar(Encode(data)[i]) || Encode(data)[i] == Pad
  {
    EncodeAlphabet(data);
  }

  /** Four alphabet characters as three bytes. */
  function DecodeQuantum(s: string): Option<seq<byte>>
    requires |s| == 4
  {
    if IsAlphabetChar(s[0]) && IsAlphabetChar(s[1]) && IsAlphabetChar(s[2]) && IsAlphabetChar(s[3]) then
      var a, b, c, d := IndexOf(s[0]), IndexOf(s[1]), IndexOf(s[2]), IndexOf(s[3]);
      Some([a * 4 + b / 16, (b % 16) * 16 + c / 4, (c % 4) * 64 + d])
    else None
  }

  /** The last four characters, which may end in padding. */
  function DecodeFinal(s: string): Option<seq<byte>>
    requires |s| == 4
  {
    if s[2] == Pad && s[3] == Pad then
      if IsAlphabetChar(s[0]) && IsAlphabetChar(s[1]) then
        var a, b := IndexOf(s[0]), IndexOf(s[1]);
        Some([a * 4 + b / 16])
      else None
    else if s[3] == Pad then
      if IsAlphabetChar(s[0]) && IsAlphabetChar(s[1]) && IsAlphabetChar(s[2]) then
        var a, b, c := IndexOf(s[0]), IndexOf(s[1]), IndexOf(s[2]);
        Some([a * 4 + b / 16, (b % 16) * 16 + c / 4])
      else None
    else DecodeQuantum(s)
  }

  function Decode(s: string): Option<seq<byte>>
    decreases |s|
  {
    if s == "" then Some([])
    else if |s| < 4 then None
    else if |s| == 4 then DecodeFinal(s)
    else
      match DecodeQuantum(s[..4])
      case None => None
      case Some(q) =>
        match Decode(s[4..])
        case None => None
        case Some(rest) => Some(q + rest)
  }

  lemma SplitBy16(q: int, r: int)
    requires 0 <= r < 16
    ensures (q * 16 + r) / 16 == q && (q * 16 + r) % 16 == r
  {
  }

  lemma SplitBy4(q: int, r: int)
    requires 0 <= r < 4
    ensures (q * 4 + r) / 4 == q && (q * 4 + r) % 4 == r
  {
  }

  /** The bit arithmetic of one quantum undoes itself. */
  lemma QuantumArithmetic(x: byte, y: byte, z: byte)
    ensures (x / 4) * 4 + ((x % 4) * 16 + y / 16) / 16 == x
    ensures (((x % 4) * 16 + y / 16) % 16) * 16 + ((y % 16) * 4 + z / 64) / 4 == y
    ensures (((y % 16) * 4 + z / 64) % 4) * 64 + z % 64 == z
  {
    SplitBy16(x % 4, y / 16);
    SplitBy4(y % 16, z / 64);
  }

  lemma DecodeBlock(x: byte, y: byte, z: byte)
    ensures DecodeQuantum(EncodeBlock(x, y, z)) == Some([x, y, z])
  {
    var s := EncodeBlock(x, y, z);
    IndexOfCharOf(x / 4);
    IndexOfCharOf((x % 4) * 16 + y / 16);
    IndexOfCharOf((y % 16) * 4 + z / 64);
    IndexOfCharOf(z % 64);
    QuantumArithmetic(x, y, z);
  }

  lemma DecodeOne(x: byte)
    ensures Decode(Encode([x])) == Some([x])
  {
    var s := Encode([x]);
    assert s == [CharOf(x / 4), CharOf((x % 4) * 16), Pad, Pad];
    IndexOfCharOf(x / 4);
    IndexOfCharOf((x % 4) * 16);
    QuantumArithmetic(x, 0, 0);
  }

  lemma DecodeTwo(x: byte, y: byte)
    ensures Decode(Encode([x, y])) == Some([x, y])
  {
    var s := Encode([x, y]);
    assert s == [CharOf(x / 4), CharOf((x % 4) * 16 + y / 16), CharOf((y % 16) * 4), Pad];
    IndexOfCharOf(x / 4);
    IndexOfCharOf((x % 4) * 16 + y / 16);
    IndexOfCharOf((y % 16) * 4);
    QuantumArithmetic(x, y, 0);
    assert s[2] != Pad && s[3] == Pad;
  }

  lemma DecodeThree(x: byte, y: byte, z: byte)
    ensures Decode(EncodeBlock(x, y, z)) == Some([x, y, z])
  {
    var s := EncodeBlock(x, y, z);
    assert IsAlphabetChar(s[2]) && IsAlphabetChar(s[3]);
    DecodeBlock(x, y, z);
  }

  lemma DecodeLeadingBlock(x: byte, y: byte, z: byte, rest: string)
    requires |rest| >= 4
    ensures Decode(EncodeBlock(x, y, z) + rest) ==
      if Decode(rest).Some? then Some([x, y, z] + Decode(rest).value) else None
  {
    var s := EncodeBlock(x, y, z) + rest;
    assert s[..4] == EncodeBlock(x, y, z) && s[4..] == rest;
    DecodeBlock(x, y, z);
  }

  lemma DecodeShort(data: seq<byte>)
    requires 1 <= |data| <= 3
    ensures Decode(Encode(data)) == Some(data)
  {
    if |data| == 1 {
      DecodeOne(data[0]);
      assert data == [data[0]];
    } else if |data| == 2 {
      DecodeTwo(data[0], data[1]);
      assert data == [data[0], data[1]];
    } else {
      DecodeThree(data[0], data[1], data[2]);
      EncodeThree(data);
    }
  }

  lemma EncodeThree(data: seq<byte>)
    requires |data| == 3
    ensures Encode(data) == EncodeBlock(data[0], data[1], data[2]) && data == [data[0], data[1], data[2]]
  {
    assert data[3..] == [];
    assert Encode(data[3..]) == "";
    assert Encode(data) == EncodeBlock(data[0], data[1], data[2]) + Encode(data[3..]);
  }

  lemma EncodeLeadingBlock(data: seq<byte>)
    requires |data| > 3
    ensures Encode(data) == EncodeBlock(data[0], data[1], data[2]) + Encode(data[3..])
    ensures |Encode(data[3..])| >= 4
  {
    EncodeLength(data[3..]);
  }

  lemma DecodeLong(data: seq<byte>, tail: string)
    requires |data| > 3 && tail == Encode(data[3..]) && Decode(tail) == Some(data[3..])
    ensures Decode(Encode(data)) == Some(data)
  {
    var block := EncodeBlock(data[0], data[1], data[2]);
    EncodeLeadingBlock(data);
    assert Encode(data) == block + tail;
    DecodeLeadingBlock(data[0], data[1], data[2], tail);
    assert Decode(block + tail) == Some([data[0], data[1], data[2]] + data[3..]);
    SplitHead(data);
  }

  lemma SplitHead(data: seq<byte>)
    requires |data| >= 3
    ensures [data[0], data[1], data[2]] + data[3..] == data
  {
  }

  /** Decoding gives back the encoded bytes. */
  lemma {:induction false} DecodeEncode(data: seq<byte>)
    ensures Decode(Encode(data)) == Some(data)
    decreases |data|
  {
    if 1 <= |data| <= 3 {
      DecodeShort(data);
    } else if |data| > 3 {
      DecodeEncode(data[3..]);
      DecodeLong(data, Encode(data[3..]));
    }
  }

  /** Different byte strings have different encodings. */
  lemma EncodeInjective(a: seq<byte>, b: seq<byte>)
    requires Encode(a) == Encode(b)
    ensures a == b
  {
    DecodeEncode(a);
    DecodeEncode(b);
  }

  /** Test vectors of section 10 of RFC 4648: the bytes of "f", "fo" and "foo". */
  lemma StandardShortVectors()
    ensures Encode([]) == ""
    ensures Encode([102]) == "Zg=="
    ensures Encode([102, 111]) == "Zm8="
    ensures Encode([102, 111, 111]) == "Zm9v"
  {
    assert CharOf(25) == 'Z' && CharOf(32) == 'g' && CharOf(38) == 'm' && CharOf(60) == '8';
    assert CharOf(61) == '9' && CharOf(47) == 'v';
    assert Encode([102]) == [CharOf(25), CharOf(32), Pad, Pad];
    assert Encode([102, 111]) == [CharOf(25), CharOf(38), CharOf(60), Pad];
    assert Encode([102, 111, 111]) == EncodeBlock(102, 111, 111) + Encode([]);
    assert EncodeBlock(102, 111, 111) == [CharOf(25), CharOf(38), CharOf(61), CharOf(47)];
  }

  /** The test vector of section 10 of RFC 4648 for the bytes of "foobar". */
  lemma StandardLongVector()
    ensures Encode([102, 111, 111, 98, 97, 114]) == "Zm9vYmFy"
  {
    var data: seq<byte> := [102, 111, 111, 98, 97, 114];
    assert data[3..] == [98, 97, 114];
    StandardShortVectors();
    BarBlock();
    assert Encode(data) == Encode([102, 111, 111]) + Encode([98, 97, 114]);
    var s := "Zm9vYmFy";
    assert s == [s[0], s[1], s[2], s[3]] + [s[4], s[5], s[6], s[7]];
  }

  lemma BarBlock()
    ensures Encode([98, 97, 114]) == "YmFy"
  {
    assert Encode([98, 97, 114]) == EncodeBlock(98, 97, 114) + Encode([]);
    assert 98 / 4 == 24 && (98 % 4) * 16 + 97 / 16 == 38 && (97 % 16) * 4 + 114 / 64 == 5 && 114 % 64 == 50;
    assert CharOf(24) == 'Y' && CharOf(38) == 'm' && CharOf(5) == 'F' && CharOf(50) == 'y';
    assert EncodeBlock(98, 97, 114) == [CharOf(24), CharOf(38), CharOf(5), CharOf(50)];
  }
}
