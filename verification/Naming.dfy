/**
 Naming rules and generated names (v2/lens3/utility.go), regular expressions
 written out as predicates on characters.
 */
module Naming {

  const ACCESS_KEY_LENGTH := 20

  predicate Lower(c: char) { 'a' <= c <= 'z' }
  predicate Upper(c: char) { 'A' <= c <= 'Z' }
  predicate Digit(c: char) { '0' <= c <= '9' }

  predicate StartsWith(s: string, p: string) { |p| <= |s| && s[..|p|] == p }
  predicate EndsWith(s: string, p: string) { |p| <= |s| && s[|s| - |p|..] == p }

  predicate GoodSecret(s: string) {
    && |s| == ACCESS_KEY_LENGTH
    && (Lower(s[0]) || Upper(s[0]))
    && forall i | 1 <= i < |s| :: Lower(s[i]) || Upper(s[i]) || Digit(s[i])
  }

  predicate ForbiddenBucket(s: string) {
    || (forall c | c in s :: Digit(c) || c == '.')
    || EndsWith(s, "-")
    || StartsWith(s, "xn--")
    || EndsWith(s, "-s3alias")
    || EndsWith(s, "--ol-s3")
    || s == "aws"
    || s == "amazon"
    || StartsWith(s, "goog")
    || StartsWith(s, "g00g")
    || s == "minio"
  }

  predicate GoodBucket(s: string) {
    && 3 <= |s| <= 63
    && (forall c | c in s :: Lower(c) || Digit(c) || c == '-')
    && !ForbiddenBucket(s)
  }

  predicate GoodPool(s: string) {
    && |s| == 16
    && forall c | c in s :: 'a' <= c <= 'h' || Digit(c)
  }

  predicate GoodUser(s: string) {
    && 1 <= |s| <= 32
    && (Lower(s[0]) || s[0] == '_')
    && forall i | 1 <= i < |s| ::
      Lower(s[i]) || Digit(s[i]) || s[i] == '-' || s[i] == '_' || s[i] == '.'
  }

  predicate GoodClaim(s: string) {
    && |s| <= 256
    && forall c | c in s ::
      Lower(c) || Upper(c) || Digit(c) || c in "-_.:@%"
  }

  // ---- strconv.FormatUint(v, 16), left padded to sixteen digits ----

  const HEX := "0123456789abcdef"

  /** Hexadecimal digits without leading zeros, "0" for zero. */
  function FormatHex(v: nat): string {
    if v < 16 then [HEX[v]] else FormatHex(v / 16) + [HEX[v % 16]]
  }

  function RandomKey(v: nat): string {
    var padded := "0000000000000000" + FormatHex(v);
    padded[|padded| - 16..]
  }

  /** The inverse reading: the value of a hexadecimal string. */
  function HexDigit(c: char): nat {
    if Digit(c) then (c - '0') as nat
    else if 'a' <= c <= 'f' then 10 + (c - 'a') as nat
    else 0
  }

  function HexValue(s: string): nat {
    if s == "" then 0 else 16 * HexValue(s[..|s| - 1]) + HexDigit(s[|s| - 1])
  }

  function Pow16(n: nat): nat { if n == 0 then 1 else 16 * Pow16(n - 1) }

  lemma {:induction false} FormatHexValue(v: nat)
    ensures HexValue(FormatHex(v)) == v
    ensures FormatHex(v) != ""
    ensures forall c | c in FormatHex(v) :: Digit(c) || 'a' <= c <= 'f'
  {
    assert forall i: nat | i < 16 :: HexDigit(HEX[i]) == i;
    if v >= 16 {
      FormatHexValue(v / 16);
      var s := FormatHex(v);
      assert s[..|s| - 1] == FormatHex(v / 16);
    } else {
      assert FormatHex(v)[..0] == "";
    }
  }

  lemma {:induction false} FormatHexLength(v: nat, n: nat)
    requires v < Pow16(n) && 0 < n
    ensures |FormatHex(v)| <= n
  {
    if v >= 16 {
      assert Pow16(1) == 16;
      FormatHexLength(v / 16, n - 1);
    }
  }

  lemma {:induction false} LeadingZeros(n: nat, s: string)
    ensures HexValue(seq(n, i => '0') + s) == HexValue(s)
  {
    var z := seq(n, i => '0');
    if s == "" {
      assert z + s == z;
      if n > 0 {
        LeadingZeros(n - 1, "");
        assert z[..n - 1] == seq(n - 1, i => '0') + "";
      }
    } else {
      LeadingZeros(n, s[..|s| - 1]);
      assert (z + s)[..|z + s| - 1] == z + s[..|s| - 1];
    }
  }

  lemma Pow16Of16()
    ensures Pow16(16) == 0x1_0000_0000_0000_0000
  {
    assert Pow16(4) == 0x1_0000;
    assert Pow16(8) == 0x1_0000 * Pow16(4);
    assert Pow16(12) == 0x1_0000 * Pow16(8);
    assert Pow16(16) == 0x1_0000 * Pow16(12);
  }

  /** A generated pool name is sixteen hexadecimal digits, is accepted by the
      pool naming rule, and reads back as the number it was made from. */
  lemma RandomKeyReads(v: nat)
    requires v < 0x1_0000_0000_0000_0000
    ensures GoodPool(RandomKey(v))
    ensures HexValue(RandomKey(v)) == v
  {
    Pow16Of16();
    hide Pow16, FormatHex, HexValue;
    FormatHexValue(v);
    FormatHexLength(v, 16);
    var h := FormatHex(v);
    var zeros := seq(16 - |h|, i => '0');
    assert RandomKey(v) == zeros + h;
    LeadingZeros(16 - |h|, h);
  }

  /** Hence the generator is injective on 64-bit numbers. */
  lemma RandomKeyInjective(v: nat, w: nat)
    requires v < 0x1_0000_0000_0000_0000 && w < 0x1_0000_0000_0000_0000
    requires RandomKey(v) == RandomKey(w)
    ensures v == w
  {
    RandomKeyReads(v);
    RandomKeyReads(w);
  }

  // ---- access keys ----

  /** The lower-case letters and then the upper-case ones, counted from zero. */
  function Letter(k: nat): char
    requires k < 52
  {
    if k < 26 then 'a' + k as char else 'A' + (k - 26) as char
  }

  /** The digits and then the letters. */
  function DigitOrLetter(k: nat): char
    requires k < 62
  {
    if k < 10 then '0' + k as char else Letter(k - 10)
  }

  /** random_string, with any source of random numbers. */
  method RandomString(n: nat, random: nat -> nat) returns (r: string)
    requires n > 0
    ensures |r| == n && (Lower(r[0]) || Upper(r[0]))
    ensures forall i | 1 <= i < n :: Lower(r[i]) || Upper(r[i]) || Digit(r[i])
    ensures n == ACCESS_KEY_LENGTH ==> GoodSecret(r)
  {
    var s := new char[n](_ => '0');
    s[0] := Letter(random(0) % 52);
    var i := 1;
    while i < n
      invariant 1 <= i <= n
      invariant Lower(s[0]) || Upper(s[0])
      invariant forall j | 1 <= j < i :: Lower(s[j]) || Upper(s[j]) || Digit(s[j])
    {
      s[i] := DigitOrLetter(random(i) % 62);
      i := i + 1;
    }
    r := s[..];
  }
}
