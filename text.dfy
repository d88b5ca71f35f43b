/** String helpers shared by the model: decimal rendering of clock readings, ASCII trimming and case folding. */
module Text {

  /** The decimal digit for 0 <= d < 10. */
  function Digit(d: nat): (c: char)
    requires d < 10
    ensures '0' <= c <= '9'
    ensures c as int - '0' as int == d
  {
    ['0', '1', '2', '3', '4', '5', '6', '7', '8', '9'][d]
  }

  /** The value of a string of decimal digits. */
  function DecimalValue(s: string): nat
    requires forall i | 0 <= i < |s| :: '0' <= s[i] <= '9'
  {
    if s == [] then 0 else DecimalValue(s[..|s| - 1]) * 10 + (s[|s| - 1] as int - '0' as int)
  }

  /** Number.prototype.toString() on a non-negative integer: its decimal digits, without leading zeros. */
  function NatToDecimal(n: nat): (r: string)
    ensures |r| >= 1
    ensures forall i | 0 <= i < |r| :: '0' <= r[i] <= '9'
    ensures |r| > 1 ==> r[0] != '0'
  {
    if n < 10 then [Digit(n)] else NatToDecimal(n / 10) + [Digit(n % 10)]
  }

  /** Reading the decimal rendering back gives the number: the rendering loses nothing. */
  lemma {:induction false} DecimalRoundTrip(n: nat)
    ensures DecimalValue(NatToDecimal(n)) == n
  {
    if n >= 10 {
      var s := NatToDecimal(n);
      assert s[..|s| - 1] == NatToDecimal(n / 10);
      DecimalRoundTrip(n / 10);
    }
  }

  /** Distinct clock readings give distinct renderings, so ids built from them differ. */
  lemma DecimalInjective(m: nat, n: nat)
    requires m != n
    ensures NatToDecimal(m) != NatToDecimal(n)
  {
    DecimalRoundTrip(m);
    DecimalRoundTrip(n);
  }

  /** The ASCII characters String.prototype.trim removes. */
  predicate IsSpace(c: char) {
    c == ' ' || c == '\t' || c == '\n' || c == '\r' || c == '\U{B}' || c == '\U{C}'
  }

  function TrimStart(s: string): (r: string)
    ensures |r| <= |s| && r == s[|s| - |r|..]
    ensures r == [] || !IsSpace(r[0])
    ensures forall i | 0 <= i < |s| - |r| :: IsSpace(s[i])
  {
    if s != [] && IsSpace(s[0]) then TrimStart(s[1..]) else s
  }

  function TrimEnd(s: string): (r: string)
    ensures |r| <= |s| && r == s[..|r|]
    ensures r == [] || !IsSpace(r[|r| - 1])
    ensures forall i | |r| <= i < |s| :: IsSpace(s[i])
  {
    if s != [] && IsSpace(s[|s| - 1]) then TrimEnd(s[..|s| - 1]) else s
  }

  /** String.prototype.trim over ASCII whitespace: the infix left once the white space at both ends is gone. */
  function Trim(s: string): (r: string)
    ensures |r| <= |s|
    ensures r == [] || (!IsSpace(r[0]) && !IsSpace(r[|r| - 1]))
    ensures exists a, b | 0 <= a <= b <= |s| ::
      && r == s[a..b]
      && (forall i | 0 <= i < a :: IsSpace(s[i]))
      && (forall i | b <= i < |s| :: IsSpace(s[i]))
  {
    var t := TrimStart(s);
    var r := TrimEnd(t);
    var a := |s| - |t|;
    assert r == s[a..a + |r|];
    assert forall i | a + |r| <= i < |s| :: s[i] == t[i - a];
    r
  }

  /** A string is empty after trimming exactly when every character is whitespace. */
  lemma {:induction false} TrimEmptyIffAllSpace(s: string)
    ensures Trim(s) == [] <==> forall i | 0 <= i < |s| :: IsSpace(s[i])
  {
    var t := TrimStart(s);
    TrimStartAllSpace(s);
    TrimEndEmpty(t);
    if t != [] {
      assert !IsSpace(t[0]) && t[0] == s[|s| - |t|];
    }
  }

  lemma {:induction false} TrimStartAllSpace(s: string)
    ensures TrimStart(s) == [] <==> forall i | 0 <= i < |s| :: IsSpace(s[i])
  {
    if s != [] && IsSpace(s[0]) {
      TrimStartAllSpace(s[1..]);
      assert forall i | 1 <= i < |s| :: s[i] == s[1..][i - 1];
    }
  }

  lemma TrimEndEmpty(s: string)
    ensures TrimEnd(s) == [] <==> (s == [] || forall i | 0 <= i < |s| :: IsSpace(s[i]))
  {
    var r := TrimEnd(s);
    if r != [] {
      assert r[|r| - 1] == s[|r| - 1];
    }
  }

  /** String.prototype.toLowerCase over ASCII. */
  function LowerChar(c: char): (d: char)
    ensures 'A' <= c <= 'Z' ==> d != c && 'a' <= d <= 'z'
    ensures !('A' <= c <= 'Z') ==> d == c
  {
    if 'A' <= c <= 'Z' then (c as int - 'A' as int + 'a' as int) as char else c
  }

  function ToLower(s: string): (r: string)
    ensures |r| == |s| && forall i | 0 <= i < |s| :: r[i] == LowerChar(s[i])
  {
    if s == [] then [] else [LowerChar(s[0])] + ToLower(s[1..])
  }

  /** String.prototype.includes: `needle` occurs in `hay` at some offset. */
  predicate Includes(hay: string, needle: string) {
    exists k | 0 <= k <= |hay| - |needle| :: OccursAt(hay, needle, k)
  }

  predicate OccursAt(hay: string, needle: string, k: int)
    requires 0 <= k <= |hay| - |needle|
  {
    hay[k..k + |needle|] == needle
  }

  /** The empty string occurs in every string. */
  lemma IncludesEmpty(hay: string)
    ensures Includes(hay, "")
  {
    assert OccursAt(hay, "", 0);
  }
}
