/** The splash screen's colour helper `adjustBrightness(color, amount)`: parse a `#rrggbb` colour as a
    base-16 integer, shift each 8-bit channel by `amount` within `[0, 255]`, and print the result back
    as `#` and six lowercase hex digits. */
module PhysicsAnimation {
  import opened Wrappers
  import opened Text
  import opened Numbers

  // ---------------------------------------------------------------------------------------------
  // Hex digits

  predicate IsHexDigit(c: char) {
    '0' <= c <= '9' || 'a' <= c <= 'f' || 'A' <= c <= 'F'
  }

  /** The digits `Number.prototype.toString(16)` prints. */
  predicate IsLowerHex(c: char) {
    '0' <= c <= '9' || 'a' <= c <= 'f'
  }

  predicate AllHex(s: string) {
    forall i | 0 <= i < |s| :: IsHexDigit(s[i])
  }

  predicate AllLowerHex(s: string) {
    forall i | 0 <= i < |s| :: IsLowerHex(s[i])
  }

  /** The value of one hex digit, in either case. */
  function DigitValue(c: char): (v: nat)
    requires IsHexDigit(c)
    ensures v < 16
  {
    if '0' <= c <= '9' then c as int - '0' as int
    else if 'a' <= c <= 'f' then c as int - 'a' as int + 10
    else c as int - 'A' as int + 10
  }

  /** The lowercase digit for `0 <= d < 16`. */
  function HexDigitChar(d: nat): (c: char)
    requires d < 16
    ensures IsLowerHex(c) && DigitValue(c) == d
  {
    if d < 10 then ('0' as int + d) as char else ('a' as int + d - 10) as char
  }

  /** A lowercase digit is the digit of its value. */
  lemma LowerHexCanonical(c: char)
    requires IsLowerHex(c)
    ensures HexDigitChar(DigitValue(c)) == c
  {
  }

  function Pow16(k: nat): (p: nat)
    ensures p >= 1
  {
    if k == 0 then 1 else 16 * Pow16(k - 1)
  }

  /** The value of a string of hex digits, most significant first. */
  function HexValue(s: string): nat
    requires AllHex(s)
    decreases |s|
  {
    if s == [] then 0 else HexValue(s[..|s| - 1]) * 16 + DigitValue(s[|s| - 1])
  }

  /** `k` digits hold a value below `16^k`. */
  lemma {:induction false} HexValueBound(s: string)
    requires AllHex(s)
    ensures HexValue(s) < Pow16(|s|)
    decreases |s|
  {
    if s != [] {
      HexValueBound(s[..|s| - 1]);
    }
  }

  /** Strings whose digits have the same values, position by position, have the same value. */
  lemma {:induction false} HexValuePointwise(s: string, t: string)
    requires AllHex(s) && AllHex(t) && |s| == |t|
    requires forall i | 0 <= i < |s| :: DigitValue(s[i]) == DigitValue(t[i])
    ensures HexValue(s) == HexValue(t)
    decreases |s|
  {
    if s != [] {
      HexValuePointwise(s[..|s| - 1], t[..|t| - 1]);
    }
  }

  lemma AllHexConcat(a: string, b: string)
    requires AllHex(a) && AllHex(b)
    ensures AllHex(a + b)
  {
    forall i | 0 <= i < |a + b|
      ensures IsHexDigit((a + b)[i])
    {
      if i >= |a| {
        assert (a + b)[i] == b[i - |a|];
      }
    }
  }

  lemma ShiftStep(x: int, p: int, y: int, d: int)
    ensures (x * p + y) * 16 + d == x * (16 * p) + (y * 16 + d)
  {
  }

  /** The value of a concatenation: the first part shifted by the length of the second. */
  lemma {:induction false} HexValueConcat(a: string, b: string)
    requires AllHex(a) && AllHex(b)
    ensures AllHex(a + b) && HexValue(a + b) == HexValue(a) * Pow16(|b|) + HexValue(b)
    decreases |b|
  {
    AllHexConcat(a, b);
    if b == [] {
      assert a + b == a;
    } else {
      var b' := b[..|b| - 1];
      var d := DigitValue(b[|b| - 1]);
      assert (a + b)[..|a + b| - 1] == a + b';
      assert (a + b)[|a + b| - 1] == b[|b| - 1];
      HexValueConcat(a, b');
      assert HexValue(a + b) == HexValue(a + b') * 16 + d;
      assert HexValue(b) == HexValue(b') * 16 + d;
      ShiftStep(HexValue(a), Pow16(|b'|), HexValue(b'), d);
    }
  }

  /** The last digit and the rest of a number are determined by it. */
  lemma DigitSplit(a: nat, da: nat, b: nat, db: nat)
    requires da < 16 && db < 16 && a * 16 + da == b * 16 + db
    ensures da == db && a == b
  {
  }

  /** Two lowercase hex strings of one length and one value are the same string. */
  lemma {:induction false} HexInjective(s: string, t: string)
    requires AllLowerHex(s) && AllLowerHex(t) && |s| == |t|
    requires AllHex(s) && AllHex(t) && HexValue(s) == HexValue(t)
    ensures s == t
    decreases |s|
  {
    if s != [] {
      var s', t' := s[..|s| - 1], t[..|t| - 1];
      var ds, dt := DigitValue(s[|s| - 1]), DigitValue(t[|t| - 1]);
      assert HexValue(s) == HexValue(s') * 16 + ds;
      assert HexValue(t) == HexValue(t') * 16 + dt;
      DigitSplit(HexValue(s'), ds, HexValue(t'), dt);
      HexInjective(s', t');
      LowerHexCanonical(s[|s| - 1]);
      LowerHexCanonical(t[|t| - 1]);
      assert s == s' + [s[|s| - 1]] && t == t' + [t[|t| - 1]];
    }
  }

  // ---------------------------------------------------------------------------------------------
  // Printing: `toString(16)` and `padStart(6, '0')`

  /** `n.toString(16)` for a non-negative integer: lowercase digits without leading zeros. */
  function ToHex(n: nat): (s: string)
    ensures |s| >= 1 && AllLowerHex(s) && AllHex(s)
    decreases n
  {
    if n < 16 then [HexDigitChar(n)] else ToHex(n / 16) + [HexDigitChar(n % 16)]
  }

  /** Printing and reading back give the number. */
  lemma {:induction false} ToHexValue(n: nat)
    ensures HexValue(ToHex(n)) == n
    decreases n
  {
    var s := ToHex(n);
    if n < 16 {
      assert s[..|s| - 1] == [];
    } else {
      assert s[..|s| - 1] == ToHex(n / 16);
      ToHexValue(n / 16);
    }
  }

  /** A number below `16^k` prints in at most `k` digits. */
  lemma {:induction false} ToHexLength(n: nat, k: nat)
    requires k >= 1 && n < Pow16(k)
    ensures |ToHex(n)| <= k
    decreases n
  {
    if n >= 16 {
      assert k >= 2;
      ToHexLength(n / 16, k - 1);
    }
  }

  /** `k` zeros. */
  function Zeros(k: nat): (s: string)
    ensures |s| == k && forall i | 0 <= i < k :: s[i] == '0'
    ensures AllHex(s) && AllLowerHex(s)
    decreases k
  {
    if k == 0 then [] else Zeros(k - 1) + ['0']
  }

  lemma {:induction false} ZerosValue(k: nat)
    ensures HexValue(Zeros(k)) == 0
    decreases k
  {
    if k > 0 {
      assert Zeros(k)[..k - 1] == Zeros(k - 1);
      ZerosValue(k - 1);
    }
  }

  /** `s.padStart(6, '0')` */
  function PadStart6(s: string): (r: string)
    ensures |r| == (if |s| >= 6 then |s| else 6)
  {
    if |s| >= 6 then s else Zeros(6 - |s|) + s
  }

  /** Padding at most six lowercase digits gives six lowercase digits of the same value. */
  lemma PadFacts(s: string)
    requires |s| <= 6 && AllLowerHex(s) && AllHex(s)
    ensures var r := PadStart6(s);
      |r| == 6 && AllLowerHex(r) && AllHex(r) && HexValue(r) == HexValue(s)
  {
    var z := Zeros(6 - |s|);
    ZerosValue(6 - |s|);
    HexValueConcat(z, s);
    LowerHexConcat(z, s);
    assert PadStart6(s) == z + s;
  }

  lemma LowerHexConcat(a: string, b: string)
    requires AllLowerHex(a) && AllLowerHex(b)
    ensures AllLowerHex(a + b)
  {
    forall i | 0 <= i < |a + b|
      ensures IsLowerHex((a + b)[i])
    {
      if i >= |a| {
        assert (a + b)[i] == b[i - |a|];
      }
    }
  }

  /** Padding a printed number below `16^6` gives six lowercase digits of the same value. */
  lemma PaddedHex(n: nat)
    requires n < Pow16(6)
    ensures var r := PadStart6(ToHex(n));
      |r| == 6 && AllLowerHex(r) && AllHex(r) && HexValue(r) == n
  {
    ToHexLength(n, 6);
    ToHexValue(n);
    PadFacts(ToHex(n));
  }

  // ---------------------------------------------------------------------------------------------
  // Parsing: `color.replace('#', '')` and `parseInt(…, 16)`

  /** `s.replace('#', '')`: the first `#`, if any, removed. */
  function RemoveFirstHash(s: string): (r: string)
    ensures '#' !in s ==> r == s
    ensures |s| > 0 && s[0] == '#' ==> r == s[1..]
  {
    if s == [] then []
    else if s[0] == '#' then s[1..]
    else [s[0]] + RemoveFirstHash(s[1..])
  }

  /** The longest prefix of hex digits. */
  function HexPrefix(s: string): (r: string)
    ensures |r| <= |s| && r == s[..|r|] && AllHex(r)
    ensures |r| < |s| ==> !IsHexDigit(s[|r|])
  {
    if s != [] && IsHexDigit(s[0]) then [s[0]] + HexPrefix(s[1..]) else []
  }

  lemma {:induction false} HexPrefixAll(s: string)
    requires AllHex(s)
    ensures HexPrefix(s) == s
  {
    if s != [] {
      HexPrefixAll(s[1..]);
    }
  }

  /** `parseInt(s, 16)`: leading white space skipped, an optional sign, an optional `0x` or `0X`,
      then the longest run of hex digits; None stands for `NaN`, when that run is empty. */
  function ParseIntHex(s: string): Option<int> {
    var t := TrimStart(s);
    var negative := t != [] && t[0] == '-';
    var u := if t != [] && (t[0] == '-' || t[0] == '+') then t[1..] else t;
    var v := if |u| >= 2 && u[0] == '0' && (u[1] == 'x' || u[1] == 'X') then u[2..] else u;
    var digits := HexPrefix(v);
    if digits == [] then None
    else
      var n: int := HexValue(digits);
      Some(if negative then -n else n)
  }

  // ---------------------------------------------------------------------------------------------
  // Channels

  const TWO_POW_32 := 0x1_0000_0000

  /** The 32 bits `>>` and `&` work on: `ToInt32(num)` read as unsigned, with `NaN` giving 0. */
  function Bits(num: Option<int>): (b: nat)
    ensures b < TWO_POW_32
  {
    match num
    case None => 0
    case Some(n) => n % TWO_POW_32
  }

  datatype Rgb = Rgb(r: int, g: int, b: int)

  predicate InRange(c: Rgb) {
    0 <= c.r <= 255 && 0 <= c.g <= 255 && 0 <= c.b <= 255
  }

  /** `(num >> 16) & 0xff`, `(num >> 8) & 0xff` and `num & 0xff`. */
  function Channels(bits: nat): (c: Rgb)
    ensures InRange(c)
  {
    Rgb((bits / 0x1_0000) % 0x100, (bits / 0x100) % 0x100, bits % 0x100)
  }

  /** `(r << 16) | (g << 8) | b`; the three are bytes, so the bits do not overlap and `|` adds. */
  function Packed(c: Rgb): int {
    c.r * 0x1_0000 + c.g * 0x100 + c.b
  }

  /** Division with remainder by 256 and by 65536, from a known quotient and remainder. */
  lemma SplitByte(q: int, m: int)
    requires 0 <= m < 0x100
    ensures (q * 0x100 + m) / 0x100 == q && (q * 0x100 + m) % 0x100 == m
  {
  }

  lemma SplitTwoBytes(q: int, m: int)
    requires 0 <= m < 0x1_0000
    ensures (q * 0x1_0000 + m) / 0x1_0000 == q && (q * 0x1_0000 + m) % 0x1_0000 == m
  {
  }

  /** Splitting packed bytes gives the bytes back. */
  lemma SplitPacked(c: Rgb)
    requires InRange(c)
    ensures 0 <= Packed(c) < Pow16(6) && Channels(Packed(c)) == c
  {
    Pow16Six();
    var p := Packed(c);
    var low := c.g * 0x100 + c.b;
    var high := c.r * 0x100 + c.g;
    assert p == c.r * 0x1_0000 + low;
    SplitTwoBytes(c.r, low);
    assert p / 0x1_0000 == c.r;
    assert p == high * 0x100 + c.b;
    SplitByte(high, c.b);
    assert p / 0x100 == high && p % 0x100 == c.b;
    SplitByte(c.r, c.g);
    assert high % 0x100 == c.g;
    assert c.r % 0x100 == c.r;
  }

  lemma Pow16Six()
    ensures Pow16(6) == 0x100_0000
  {
    assert Pow16(2) == 0x100;
  }

  /** Packing the bytes of a 24-bit value gives the value back. */
  lemma PackSplit(v: nat)
    requires v < Pow16(6)
    ensures Packed(Channels(v)) == v
  {
    Pow16Six();
    var q, m := v / 0x1_0000, v % 0x1_0000;
    var hi, lo := m / 0x100, m % 0x100;
    assert v == (q * 0x100 + hi) * 0x100 + lo;
    SplitByte(q * 0x100 + hi, lo);
    SplitByte(q, hi);
    assert q < 0x100;
  }

  /** `Math.max(0, Math.min(255, channel + amount))`, made an integer by the following `<<` (which
      truncates, and the value is not negative): the shifted channel, floored and held in the byte
      range. */
  function Adjust(channel: nat, amount: real): (r: int)
    ensures 0 <= r <= 255
    ensures channel as real + amount <= 0.0 ==> r == 0
    ensures channel as real + amount >= 255.0 ==> r == 255
    ensures 0.0 <= channel as real + amount <= 255.0 ==> r as real <= channel as real + amount < r as real + 1.0
  {
    Clamp(channel as real + amount, 0.0, 255.0).Floor
  }

  /** The channels `adjustBrightness(color, amount)` computes. */
  function Adjusted(color: string, amount: real): (c: Rgb)
    ensures InRange(c)
  {
    var ch := Channels(Bits(ParseIntHex(RemoveFirstHash(color))));
    Rgb(Adjust(ch.r, amount), Adjust(ch.g, amount), Adjust(ch.b, amount))
  }

  /** `#` and the packed channels printed in hex, padded to six digits. */
  function Format(c: Rgb): string
    requires InRange(c)
  {
    "#" + PadStart6(ToHex(Packed(c)))
  }

  /** `adjustBrightness(color, amount)` */
  function AdjustBrightness(color: string, amount: real): string {
    Format(Adjusted(color, amount))
  }

  // ---------------------------------------------------------------------------------------------
  // Properties

  /** The output is `#` and exactly six lowercase hex digits, and reading them back gives the three
      adjusted channels. */
  lemma OutputEncodesChannels(color: string, amount: real)
    ensures var out := AdjustBrightness(color, amount);
      |out| == 7 && out[0] == '#' && AllLowerHex(out[1..]) && AllHex(out[1..])
      && Channels(HexValue(out[1..])) == Adjusted(color, amount)
  {
    var c := Adjusted(color, amount);
    SplitPacked(c);
    PaddedHex(Packed(c));
    assert AdjustBrightness(color, amount)[1..] == PadStart6(ToHex(Packed(c)));
  }

  /** Each output channel is the input channel plus `amount`, held in `[0, 255]`: for a whole
      `amount` exactly the clamped sum. */
  lemma ChannelsClamped(color: string, k: int)
    ensures var ch := Channels(Bits(ParseIntHex(RemoveFirstHash(color))));
      var out := Adjusted(color, k as real);
      out.r == (if ch.r + k < 0 then 0 else if ch.r + k > 255 then 255 else ch.r + k)
      && out.g == (if ch.g + k < 0 then 0 else if ch.g + k > 255 then 255 else ch.g + k)
      && out.b == (if ch.b + k < 0 then 0 else if ch.b + k > 255 then 255 else ch.b + k)
  {
  }

  /** A brighter adjustment never gives a darker channel. */
  lemma BrightnessMonotone(color: string, a1: real, a2: real)
    requires a1 <= a2
    ensures Adjusted(color, a1).r <= Adjusted(color, a2).r
    ensures Adjusted(color, a1).g <= Adjusted(color, a2).g
    ensures Adjusted(color, a1).b <= Adjusted(color, a2).b
  {
    var ch := Channels(Bits(ParseIntHex(RemoveFirstHash(color))));
    AdjustMonotone(ch.r, a1, a2);
    AdjustMonotone(ch.g, a1, a2);
    AdjustMonotone(ch.b, a1, a2);
  }

  lemma AdjustMonotone(channel: nat, a1: real, a2: real)
    requires a1 <= a2
    ensures Adjust(channel, a1) <= Adjust(channel, a2)
  {
    ClampMonotone(channel as real + a1, channel as real + a2, 0.0, 255.0);
  }

  /** Reading a six-digit colour back. */
  lemma ParseSixDigits(d: string)
    requires |d| == 6 && AllHex(d)
    ensures ParseIntHex(RemoveFirstHash("#" + d)) == Some(HexValue(d))
  {
    assert RemoveFirstHash("#" + d) == d;
    assert !IsSpace(d[0]) && d[0] != '-' && d[0] != '+' && d[1] != 'x' && d[1] != 'X';
    assert TrimStart(d) == d;
    HexPrefixAll(d);
  }

  /** Lowercasing keeps the digits' values and makes them lowercase. */
  lemma LowerHexString(d: string)
    requires AllHex(d)
    ensures AllHex(ToLower(d)) && AllLowerHex(ToLower(d)) && HexValue(ToLower(d)) == HexValue(d)
  {
    var l := ToLower(d);
    assert forall i | 0 <= i < |l| :: IsHexDigit(l[i]) && IsLowerHex(l[i]) && DigitValue(l[i]) == DigitValue(d[i]);
    HexValuePointwise(l, d);
  }

  lemma SmallBits(v: nat)
    requires v < Pow16(6)
    ensures Bits(Some(v)) == v
  {
    Pow16Six();
  }

  /** An adjustment of zero gives back a six-digit colour unchanged, but lowercased. */
  lemma ZeroIsIdentity(d: string)
    requires |d| == 6 && AllHex(d)
    ensures AdjustBrightness("#" + d, 0.0) == "#" + ToLower(d)
  {
    var v := HexValue(d);
    ParseSixDigits(d);
    HexValueBound(d);
    assert Bits(Some(v)) == v by {
      SmallBits(v);
    }
    var ch := Channels(v);
    assert Adjusted("#" + d, 0.0) == ch;
    PackSplit(v);
    PaddedHex(v);
    LowerHexString(d);
    HexInjective(PadStart6(ToHex(v)), ToLower(d));
  }

  /** Text that is not a hex number parses as `NaN`, which the shifts read as 0: every channel is
      black shifted by `amount`. */
  lemma NotANumber(color: string, amount: real)
    requires ParseIntHex(RemoveFirstHash(color)) == None
    ensures Adjusted(color, amount) == Rgb(Adjust(0, amount), Adjust(0, amount), Adjust(0, amount))
  {
    assert Bits(ParseIntHex(RemoveFirstHash(color))) == 0;
    assert Channels(0) == Rgb(0, 0, 0);
  }

  /** So darkening text that is not a hex number gives black: all three channels are 0. */
  lemma NotANumberDarkens(color: string, amount: real)
    requires ParseIntHex(RemoveFirstHash(color)) == None && amount <= 0.0
    ensures Adjusted(color, amount) == Rgb(0, 0, 0)
  {
    NotANumber(color, amount);
  }
}
