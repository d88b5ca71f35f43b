/** Base64 as in section 4 of RFC 4648 (alphabet `A–Z a–z 0–9 + /`, `=` padding), the form `btoa`
    produces. */
module Base64 {
  import opened Wrappers

  type Byte = b: int | 0 <= b < 256

  type Sextet = k: int | 0 <= k < 64

  /** The Base64 alphabet: `A–Z`, `a–z`, `0–9`, `+` and `/`. */
  predicate InAlphabet(c: char) {
    ('A' <= c <= 'Z') || ('a' <= c <= 'z') || ('0' <= c <= '9') || c == '+' || c == '/'
  }

  /** The character for a 6-bit value (table 1 of RFC 4648). */
  function Char(k: Sextet): (c: char)
    ensures InAlphabet(c)
  {
    if k < 26 then 'A' + (k as char)
    else if k < 52 then 'a' + ((k - 26) as char)
    else if k < 62 then '0' + ((k - 52) as char)
    else if k == 62 then '+'
    else '/'
  }

  /** The 6-bit value of an alphabet character. */
  function Value(c: char): (r: Option<Sextet>)
    ensures r.Some? ==> Char(r.value) == c
  {
    if 'A' <= c <= 'Z' then Some((c - 'A') as int)
    else if 'a' <= c <= 'z' then Some((c - 'a') as int + 26)
    else if '0' <= c <= '9' then Some((c - '0') as int + 52)
    else if c == '+' then Some(62)
    else if c == '/' then Some(63)
    else None
  }

  lemma ValueOfChar(k: Sextet)
    ensures Value(Char(k)) == Some(k)
  {
  }

  /** A position of the output: a 6-bit value, or `PAD` for the padding character. */
  type Token = k: int | 0 <= k <= 64

  const PAD: Token := 64

  /** The tokens of a final group of one byte. */
  function Group1(b0: Byte): seq<Token> {
    [b0 / 4, (b0 % 4) * 16, PAD, PAD]
  }

  /** The tokens of a final group of two bytes. */
  function Group2(b0: Byte, b1: Byte): seq<Token> {
    [b0 / 4, (b0 % 4) * 16 + b1 / 16, (b1 % 16) * 4, PAD]
  }

  /** The tokens of a full group of three bytes. */
  function Group3(b0: Byte, b1: Byte, b2: Byte): seq<Token> {
    [b0 / 4, (b0 % 4) * 16 + b1 / 16, (b1 % 16) * 4 + b2 / 64, b2 % 64]
  }

  /** The token sequence of `btoa`: each 3-byte group gives 4 tokens, and a final group of 1 or 2
      bytes is padded. */
  function Tokens(data: seq<Byte>): (t: seq<Token>)
    ensures |t| == 4 * ((|data| + 2) / 3)
    decreases |data|
  {
    if |data| == 0 then []
    else if |data| == 1 then Group1(data[0])
    else if |data| == 2 then Group2(data[0], data[1])
    else Group3(data[0], data[1], data[2]) + Tokens(data[3..])
  }

  /** The character written for a token. */
  function TokenChar(k: Token): char {
    if k == PAD then '=' else Char(k)
  }

  /** The text for a token sequence, one character per token. */
  function Render(t: seq<Token>): (s: string)
    ensures |s| == |t|
    ensures forall i | 0 <= i < |t| :: s[i] == TokenChar(t[i])
  {
    seq(|t|, i requires 0 <= i < |t| => TokenChar(t[i]))
  }

  /** `btoa` of a binary string, as bytes. */
  function Encode(data: seq<Byte>): (r: string)
    ensures |r| == 4 * ((|data| + 2) / 3)
  {
    Render(Tokens(data))
  }

  /** Padding only appears in the last group. */
  lemma {:induction false} PaddingAtEnd(data: seq<Byte>)
    ensures forall i | 0 <= i < |Tokens(data)| - 4 :: Tokens(data)[i] != PAD
    decreases |data|
  {
    if |data| > 3 {
      PaddingAtEnd(data[3..]);
      var t := Tokens(data);
      forall i | 0 <= i < |t| - 4
        ensures t[i] != PAD
      {
        if i >= 4 {
          assert t[i] == Tokens(data[3..])[i - 4];
        }
      }
    }
  }

  /** Every output character is from the alphabet or is the padding character, and padding only
      appears in the last four characters. */
  lemma EncodeAlphabet(data: seq<Byte>)
    ensures forall i | 0 <= i < |Encode(data)| :: InAlphabet(Encode(data)[i]) || Encode(data)[i] == '='
    ensures forall i | 0 <= i < |Encode(data)| - 4 :: InAlphabet(Encode(data)[i])
  {
    PaddingAtEnd(data);
  }

  /** The token a character stands for, if any. */
  function CharToken(c: char): (r: Option<Token>)
    ensures r.Some? ==> TokenChar(r.value) == c
  {
    if c == '=' then Some(PAD)
    else match Value(c)
      case Some(k) => Some(k)
      case None => None
  }

  /** The tokens of a text; `None` when a character is neither in the alphabet nor padding. */
  function Parse(s: string): (r: Option<seq<Token>>)
    ensures r.Some? ==> Render(r.value) == s
  {
    if forall i | 0 <= i < |s| :: CharToken(s[i]).Some? then
      Some(seq(|s|, i requires 0 <= i < |s| && CharToken(s[i]).Some? => CharToken(s[i]).value))
    else None
  }

  lemma ParseRender(t: seq<Token>)
    ensures Parse(Render(t)) == Some(t)
  {
    var s := Render(t);
    forall i | 0 <= i < |s|
      ensures CharToken(s[i]) == Some(t[i])
    {
      if t[i] != PAD {
        ValueOfChar(t[i]);
      }
    }
    assert Parse(s).value == t;
  }

  /** Decoding one group of four tokens: `=` only in the last two positions, and a third `=` only
      together with a fourth. */
  function UnpackGroup(g: seq<Token>): Option<seq<Byte>>
    requires |g| == 4
  {
    var c0, c1, c2, c3 := g[0] as int, g[1] as int, g[2] as int, g[3] as int;
    if c0 == PAD || c1 == PAD then None
    else if c2 == PAD then
      (if c3 == PAD then Some([c0 * 4 + c1 / 16]) else None)
    else if c3 == PAD then Some([c0 * 4 + c1 / 16, (c1 % 16) * 16 + c2 / 4])
    else Some([c0 * 4 + c1 / 16, (c1 % 16) * 16 + c2 / 4, (c2 % 4) * 64 + c3])
  }

  /** Groups of four tokens; padding is allowed only in the last group. */
  function Unpack(t: seq<Token>): Option<seq<Byte>>
    decreases |t|
  {
    if |t| == 0 then Some([])
    else if |t| < 4 then None
    else if |t| == 4 then UnpackGroup(t)
    else if t[3] == PAD then None
    else match (UnpackGroup(t[..4]), Unpack(t[4..]))
      case (Some(a), Some(b)) => Some(a + b)
      case _ => None
  }

  /** The inverse of Encode. */
  function Decode(s: string): Option<seq<Byte>> {
    match Parse(s)
    case None => None
    case Some(t) => Unpack(t)
  }

  lemma Pack16(a: int, b: int)
    requires 0 <= a && 0 <= b < 16
    ensures (a * 16 + b) / 16 == a && (a * 16 + b) % 16 == b
  {
  }

  lemma Pack4(a: int, b: int)
    requires 0 <= a && 0 <= b < 4
    ensures (a * 4 + b) / 4 == a && (a * 4 + b) % 4 == b
  {
  }

  /** The bit arithmetic of one group: the sextets reassemble into the bytes. */
  lemma Rebuild(b0: Byte, b1: Byte, b2: Byte)
    ensures var c0, c1, c2, c3 := b0 / 4, (b0 % 4) * 16 + b1 / 16, (b1 % 16) * 4 + b2 / 64, b2 % 64;
      c0 * 4 + c1 / 16 == b0 && (c1 % 16) * 16 + c2 / 4 == b1 && (c2 % 4) * 64 + c3 == b2
  {
    Pack16(b0 % 4, b1 / 16);
    Pack4(b1 % 16, b2 / 64);
  }

  lemma UnpackGroup1(b0: Byte)
    ensures Unpack(Group1(b0)) == Some([b0])
  {
    Rebuild(b0, 0, 0);
  }

  lemma UnpackGroup2(b0: Byte, b1: Byte)
    ensures Unpack(Group2(b0, b1)) == Some([b0, b1])
  {
    var c0, c1, c2 := b0 / 4, (b0 % 4) * 16 + b1 / 16, (b1 % 16) * 4;
    Rebuild(b0, b1, 0);
    assert c2 < PAD && c0 < PAD && c1 < PAD;
    assert UnpackGroup([c0, c1, c2, PAD]) == Some([c0 * 4 + c1 / 16, (c1 % 16) * 16 + c2 / 4]);
  }

  lemma UnpackGroup3(b0: Byte, b1: Byte, b2: Byte)
    ensures UnpackGroup(Group3(b0, b1, b2)) == Some([b0, b1, b2])
    ensures Unpack(Group3(b0, b1, b2)) == Some([b0, b1, b2])
  {
    Rebuild(b0, b1, b2);
  }

  /** A full group followed by a rest that unpacks: the bytes concatenate. */
  lemma UnpackPrepend(b0: Byte, b1: Byte, b2: Byte, rest: seq<Token>, tail: seq<Byte>)
    requires |rest| > 0 && Unpack(rest) == Some(tail)
    ensures Unpack(Group3(b0, b1, b2) + rest) == Some([b0, b1, b2] + tail)
  {
    var g := Group3(b0, b1, b2);
    var t := g + rest;
    UnpackGroup3(b0, b1, b2);
    assert t[..4] == g && t[4..] == rest;
  }

  lemma TokensLong(data: seq<Byte>)
    requires |data| > 3
    ensures Tokens(data) == Group3(data[0], data[1], data[2]) + Tokens(data[3..])
    ensures |Tokens(data[3..])| > 0
  {
  }

  lemma {:induction false} UnpackTokens(data: seq<Byte>)
    ensures Unpack(Tokens(data)) == Some(data)
    decreases |data|
  {
    if |data| == 1 {
      UnpackGroup1(data[0]);
      assert data == [data[0]];
    } else if |data| == 2 {
      UnpackGroup2(data[0], data[1]);
      assert data == [data[0], data[1]];
    } else if |data| >= 3 {
      UnpackTokens(data[3..]);
      if |data| == 3 {
        assert data[3..] == [];
        assert Tokens(data) == Group3(data[0], data[1], data[2]) + [];
        UnpackGroup3(data[0], data[1], data[2]);
        assert data == [data[0], data[1], data[2]];
      } else {
        TokensLong(data);
        UnpackPrepend(data[0], data[1], data[2], Tokens(data[3..]), data[3..]);
      }
      assert data == [data[0], data[1], data[2]] + data[3..];
    }
  }

  /** Decoding undoes encoding. */
  lemma DecodeEncode(data: seq<Byte>)
    ensures Decode(Encode(data)) == Some(data)
  {
    ParseRender(Tokens(data));
    UnpackTokens(data);
  }

  /** Encoding is injective: distinct byte strings give distinct text. */
  lemma EncodeInjective(a: seq<Byte>, b: seq<Byte>)
    requires Encode(a) == Encode(b)
    ensures a == b
  {
    DecodeEncode(a);
    DecodeEncode(b);
  }

  /** `String.fromCharCode(b)` for a byte: the character with that code. */
  function FromCharCode(b: Byte): char {
    b as char
  }

  /** `btoa(binary)` for a string whose characters are all below 256. */
  function Btoa(binary: string): (r: string)
    requires forall i | 0 <= i < |binary| :: binary[i] as int < 256
  {
    Encode(seq(|binary|, i requires 0 <= i < |binary| => binary[i] as int as Byte))
  }

  /** `uint8ArrayToBase64`: build the binary string character by character, then `btoa`. */
  method Uint8ArrayToBase64(data: seq<Byte>) returns (r: string)
    ensures r == Encode(data)
    ensures Decode(r) == Some(data)
  {
    var binary := "";
    var len := |data|;
    for i := 0 to len
      invariant |binary| == i
      invariant forall j | 0 <= j < i :: binary[j] == FromCharCode(data[j])
    {
      binary := binary + [FromCharCode(data[i])];
    }
    var bytes := seq(|binary|, j requires 0 <= j < |binary| => binary[j] as int as Byte);
    assert bytes == data;
    r := Btoa(binary);
    DecodeEncode(data);
  }
}
