/** The channel arithmetic of `UIColor(hexString:)` (ios/Models.swift):
    the string is trimmed of non-alphanumerics, scanned as a hexadecimal
    integer, and split into alpha, red, green and blue according to the
    length of what is left after trimming, counted in characters (Unicode
    scalars here, where Swift counts grapheme clusters). Channels are integers
    0..255; the final division by 255 into CGFloat components is not part
    of this model. */
module HexColor {

  /** The four 8-bit channels of a colour, alpha first. */
  datatype Argb = Argb(a: nat, r: nat, g: nat, b: nat)
  {
    predicate InByteRange() { a <= 255 && r <= 255 && g <= 255 && b <= 255 }
  }

  /** Membership in `CharacterSet.alphanumerics`, restricted to ASCII. */
  predicate IsAlphanumeric(c: char) {
    ('0' <= c <= '9') || ('a' <= c <= 'z') || ('A' <= c <= 'Z')
  }

  predicate IsHexDigit(c: char) {
    ('0' <= c <= '9') || ('a' <= c <= 'f') || ('A' <= c <= 'F')
  }

  predicate AllHexDigits(s: string) {
    forall i :: 0 <= i < |s| ==> IsHexDigit(s[i])
  }

  function DigitValue(c: char): (v: nat)
    requires IsHexDigit(c)
    ensures v < 16
    ensures ('0' <= c <= '9') ==> v == (c as int) - ('0' as int)
  {
    if '0' <= c <= '9' then (c as int) - ('0' as int)
    else if 'a' <= c <= 'f' then (c as int) - ('a' as int) + 10
    else (c as int) - ('A' as int) + 10
  }

  function Pow16(n: nat): nat {
    if n == 0 then 1 else 16 * Pow16(n - 1)
  }

  // ---------------------------------------------------------------------
  // Trimming (`trimmingCharacters(in: CharacterSet.alphanumerics.inverted)`)
  // ---------------------------------------------------------------------

  /** Drops the non-alphanumeric characters at the front. */
  function TrimStart(s: string): (t: string)
    ensures |t| <= |s| && t == s[|s| - |t|..]
    ensures t == [] || IsAlphanumeric(t[0])
    ensures forall i :: 0 <= i < |s| - |t| ==> !IsAlphanumeric(s[i])
  {
    if s == [] || IsAlphanumeric(s[0]) then s else TrimStart(s[1..])
  }

  /** Drops the non-alphanumeric characters at the back. */
  function TrimEnd(s: string): (t: string)
    ensures |t| <= |s| && t == s[..|t|]
    ensures t == [] || IsAlphanumeric(t[|t| - 1])
    ensures forall i :: |t| <= i < |s| ==> !IsAlphanumeric(s[i])
  {
    if s == [] || IsAlphanumeric(s[|s| - 1]) then s else TrimEnd(s[..|s| - 1])
  }

  /** `t` is `s` with some non-alphanumerics cut from its two ends: one
      contiguous slice `s[i..j]`, everything outside it non-alphanumeric. */
  predicate IsEndTrimOf(t: string, s: string) {
    exists i, j :: 0 <= i <= j <= |s| && t == s[i..j]
      && forall k :: 0 <= k < |s| && (k < i || j <= k) ==> !IsAlphanumeric(s[k])
  }

  /** Both ends trimmed: what is left starts and ends with an alphanumeric,
      is empty exactly when the input has no alphanumeric at all, and is
      the input itself when the input has nothing to trim. */
  function TrimNonAlphanumerics(s: string): (t: string)
    ensures |t| <= |s|
    ensures t == [] || (IsAlphanumeric(t[0]) && IsAlphanumeric(t[|t| - 1]))
    ensures t == [] <==> forall i :: 0 <= i < |s| ==> !IsAlphanumeric(s[i])
    ensures s == [] || (IsAlphanumeric(s[0]) && IsAlphanumeric(s[|s| - 1])) ==> t == s
    ensures IsEndTrimOf(t, s)
  {
    TrimBothEnds(s);
    TrimEnd(TrimStart(s))
  }

  /** What is left after trimming both ends is one slice of the input with
      only non-alphanumerics cut away on either side; it starts and ends
      with an alphanumeric, and is empty exactly when there is none. */
  lemma TrimBothEnds(s: string)
    ensures var t := TrimEnd(TrimStart(s));
      && (t == [] || (IsAlphanumeric(t[0]) && IsAlphanumeric(t[|t| - 1])))
      && (t == [] <==> forall i :: 0 <= i < |s| ==> !IsAlphanumeric(s[i]))
      && IsEndTrimOf(t, s)
  {
    var front := TrimStart(s);
    var t := TrimEnd(front);
    var i := |s| - |front|;
    var j := i + |t|;
    assert t == s[i..j];
    forall k | 0 <= k < |s| && (k < i || j <= k)
      ensures !IsAlphanumeric(s[k])
    {
      if j <= k {
        assert s[k] == front[k - i];
      }
    }
    if front != [] {
      assert IsAlphanumeric(front[0]);
      assert t != [];
      assert t[0] == front[0];
      assert s[|s| - |front|] == front[0];
    }
  }

  lemma {:induction false} TrimIsIdempotent(s: string)
    ensures TrimNonAlphanumerics(TrimNonAlphanumerics(s)) == TrimNonAlphanumerics(s)
  {
    var t := TrimNonAlphanumerics(s);
    if t != [] {
      assert IsAlphanumeric(t[0]) && IsAlphanumeric(t[|t| - 1]);
    }
  }

  /** A leading `#` (or any other leading or trailing punctuation) does not
      change the trimmed text. */
  lemma {:induction false} TrimIgnoresHashPrefix(s: string)
    ensures TrimNonAlphanumerics("#" + s) == TrimNonAlphanumerics(s)
  {
    var h := "#" + s;
    assert h[0] == '#' && h[1..] == s;
    assert TrimStart(h) == TrimStart(s);
  }

  // ---------------------------------------------------------------------
  // Hex scanning (`Scanner.scanHexInt64`)
  // ---------------------------------------------------------------------

  /** The value of a string of hexadecimal digits, most significant first. */
  function HexValue(digits: string): (v: nat)
    requires AllHexDigits(digits)
  {
    if digits == [] then 0
    else HexValue(digits[..|digits| - 1]) * 16 + DigitValue(digits[|digits| - 1])
  }

  lemma {:induction false} HexValueBound(digits: string)
    requires AllHexDigits(digits)
    ensures HexValue(digits) < Pow16(|digits|)
  {
    if digits != [] {
      HexValueBound(digits[..|digits| - 1]);
    }
  }

  /** The longest prefix made of hexadecimal digits. */
  function LeadingHexDigits(s: string): (p: string)
    ensures |p| <= |s| && p == s[..|p|]
    ensures AllHexDigits(p)
    ensures |p| < |s| ==> !IsHexDigit(s[|p|])
  {
    if s == [] || !IsHexDigit(s[0]) then [] else [s[0]] + LeadingHexDigits(s[1..])
  }

  predicate HasHexPrefix(s: string) {
    |s| >= 2 && s[0] == '0' && (s[1] == 'x' || s[1] == 'X')
  }

  /** The integer a hex scan reads from `s`: an optional `0x`/`0X` prefix,
      then the longest run of hex digits (0 when there is none). */
  function ScanHexInt(s: string): (v: nat)
    ensures v < Pow16(|s|)
  {
    var digits := LeadingHexDigits(if HasHexPrefix(s) then s[2..] else s);
    HexValueBound(digits);
    Pow16Monotone(|digits|, |s|);
    HexValue(digits)
  }

  lemma {:induction false} Pow16Monotone(m: nat, n: nat)
    requires m <= n
    ensures Pow16(m) <= Pow16(n)
  {
    if m < n {
      Pow16Monotone(m, n - 1);
    }
  }

  lemma {:induction false} LeadingHexDigitsOfHex(s: string)
    requires AllHexDigits(s)
    ensures LeadingHexDigits(s) == s
  {
    if s != [] {
      LeadingHexDigitsOfHex(s[1..]);
      assert [s[0]] + s[1..] == s;
    }
  }

  /** On a string made only of hex digits the scan reads all of it. */
  lemma ScanHexIntOfDigits(s: string)
    requires AllHexDigits(s)
    ensures ScanHexInt(s) == HexValue(s)
  {
    LeadingHexDigitsOfHex(s);
    assert !HasHexPrefix(s) by {
      if |s| >= 2 { assert IsHexDigit(s[1]); }
    }
  }

  // ---------------------------------------------------------------------
  // Channel extraction
  // ---------------------------------------------------------------------

  /** The channels for a scanned value, chosen by the number of characters
      left after trimming. */
  function ChannelsFor(count: nat, v: nat): (c: Argb)
    requires v < Pow16(count)
    ensures c.InByteRange()
  {
    if count == 3 then
      assert Pow16(3) == 4096;
      Argb(255, (v / 256) * 17, (v / 16 % 16) * 17, (v % 16) * 17)
    else if count == 6 then
      assert Pow16(6) == 16777216;
      Argb(255, v / 65536, v / 256 % 256, v % 256)
    else if count == 8 then
      assert Pow16(8) == 4294967296;
      Argb(v / 16777216, v / 65536 % 256, v / 256 % 256, v % 256)
    else
      Argb(255, 0, 0, 0)
  }

  /** The channels `UIColor(hexString:)` computes, before dividing by 255.
      Every channel is a byte, for every input string. */
  function HexChannels(hexString: string): (c: Argb)
    ensures c.InByteRange()
  {
    var hex := TrimNonAlphanumerics(hexString);
    ChannelsFor(|hex|, ScanHexInt(hex))
  }

  /** A leading `#` does not change the colour. */
  lemma HexChannelsIgnoresHash(s: string)
    ensures HexChannels("#" + s) == HexChannels(s)
  {
    TrimIgnoresHashPrefix(s);
  }

  /** A string of hex digits is its own trimmed text and scans to its value. */
  lemma HexChannelsOfDigits(d: string)
    requires AllHexDigits(d)
    ensures HexValue(d) < Pow16(|d|)
    ensures HexChannels(d) == ChannelsFor(|d|, HexValue(d))
  {
    HexValueBound(d);
    AllHexIsAlphanumeric(d);
    assert TrimNonAlphanumerics(d) == d;
    ScanHexIntOfDigits(d);
  }

  /** Two hex digits as one byte, the first one high. */
  function ByteOf(hi: char, lo: char): (v: nat)
    requires IsHexDigit(hi) && IsHexDigit(lo)
    ensures v <= 255
  {
    16 * DigitValue(hi) + DigitValue(lo)
  }

  lemma AllHexIsAlphanumeric(s: string)
    requires AllHexDigits(s)
    ensures forall i :: 0 <= i < |s| ==> IsAlphanumeric(s[i])
  {
  }

  /** Reading one more digit shifts the value one hex place and adds it. */
  lemma HexValuePrefix(d: string, n: nat)
    requires AllHexDigits(d) && n < |d|
    ensures HexValue(d[..n + 1]) == HexValue(d[..n]) * 16 + DigitValue(d[n])
  {
    assert d[..n + 1][..n] == d[..n];
  }

  /** Three hex digits, read most significant first. */
  lemma HexValueOfThree(d: string)
    requires |d| == 3 && AllHexDigits(d)
    ensures HexValue(d) == DigitValue(d[0]) * 256 + DigitValue(d[1]) * 16 + DigitValue(d[2])
  {
    assert d[..0] == [] && d[..3] == d;
    HexValuePrefix(d, 0);
    HexValuePrefix(d, 1);
    HexValuePrefix(d, 2);
  }

  /** Six hex digits as three bytes, the first pair high. */
  lemma HexValueOfSix(d: string)
    requires |d| == 6 && AllHexDigits(d)
    ensures HexValue(d) == ByteOf(d[0], d[1]) * 65536 + ByteOf(d[2], d[3]) * 256 + ByteOf(d[4], d[5])
  {
    assert d[..0] == [] && d[..6] == d;
    HexValuePrefix(d, 0);
    HexValuePrefix(d, 1);
    HexValuePrefix(d, 2);
    HexValuePrefix(d, 3);
    HexValuePrefix(d, 4);
    HexValuePrefix(d, 5);
  }

  /** Eight hex digits as four bytes, the first pair high. */
  lemma HexValueOfEight(d: string)
    requires |d| == 8 && AllHexDigits(d)
    ensures HexValue(d) == ByteOf(d[0], d[1]) * 16777216 + ByteOf(d[2], d[3]) * 65536
                           + ByteOf(d[4], d[5]) * 256 + ByteOf(d[6], d[7])
  {
    assert d[..0] == [] && d[..8] == d;
    HexValuePrefix(d, 0);
    HexValuePrefix(d, 1);
    HexValuePrefix(d, 2);
    HexValuePrefix(d, 3);
    HexValuePrefix(d, 4);
    HexValuePrefix(d, 5);
    HexValuePrefix(d, 6);
    HexValuePrefix(d, 7);
  }

  /** `#RGB`: alpha is opaque and each channel is its digit times 17. */
  lemma ThreeDigitChannels(d: string)
    requires |d| == 3 && AllHexDigits(d)
    ensures HexChannels(d) == Argb(255, DigitValue(d[0]) * 17, DigitValue(d[1]) * 17, DigitValue(d[2]) * 17)
    ensures HexChannels("#" + d) == HexChannels(d)
  {
    HexChannelsIgnoresHash(d);
    HexChannelsOfDigits(d);
    HexValueOfThree(d);
    NibblesOfThree(HexValue(d), DigitValue(d[0]), DigitValue(d[1]), DigitValue(d[2]));
  }

  /** `#RRGGBB`: alpha is opaque and r, g, b are the three digit pairs. */
  lemma SixDigitChannels(d: string)
    requires |d| == 6 && AllHexDigits(d)
    ensures HexChannels(d) == Argb(255, ByteOf(d[0], d[1]), ByteOf(d[2], d[3]), ByteOf(d[4], d[5]))
    ensures HexChannels("#" + d) == HexChannels(d)
  {
    HexChannelsIgnoresHash(d);
    HexChannelsOfDigits(d);
    HexValueOfSix(d);
    BytesOfThree(HexValue(d), ByteOf(d[0], d[1]), ByteOf(d[2], d[3]), ByteOf(d[4], d[5]));
  }

  /** `#AARRGGBB`: read as ARGB, so alpha is the FIRST digit pair. */
  lemma EightDigitChannels(d: string)
    requires |d| == 8 && AllHexDigits(d)
    ensures HexChannels(d) == Argb(ByteOf(d[0], d[1]), ByteOf(d[2], d[3]), ByteOf(d[4], d[5]), ByteOf(d[6], d[7]))
    ensures HexChannels("#" + d) == HexChannels(d)
  {
    HexChannelsIgnoresHash(d);
    HexChannelsOfDigits(d);
    HexValueOfEight(d);
    BytesOfFour(HexValue(d), ByteOf(d[0], d[1]), ByteOf(d[2], d[3]), ByteOf(d[4], d[5]), ByteOf(d[6], d[7]));
  }

  /** Any other length after trimming gives opaque black. */
  lemma OtherLengthIsOpaqueBlack(hexString: string)
    requires |TrimNonAlphanumerics(hexString)| !in {3, 6, 8}
    ensures HexChannels(hexString) == Argb(255, 0, 0, 0)
  {
  }

  lemma NibblesOfThree(v: nat, d0: nat, d1: nat, d2: nat)
    requires d0 < 16 && d1 < 16 && d2 < 16
    requires v == d0 * 256 + d1 * 16 + d2
    ensures ChannelsFor(3, v) == Argb(255, d0 * 17, d1 * 17, d2 * 17)
  {
    assert Pow16(3) == 4096;
    assert v / 16 == d0 * 16 + d1;
  }

  lemma BytesOfThree(v: nat, b0: nat, b1: nat, b2: nat)
    requires b0 <= 255 && b1 <= 255 && b2 <= 255
    requires v == b0 * 65536 + b1 * 256 + b2
    ensures ChannelsFor(6, v) == Argb(255, b0, b1, b2)
  {
    assert Pow16(6) == 16777216;
    assert v / 256 == b0 * 256 + b1;
  }

  lemma BytesOfFour(v: nat, b0: nat, b1: nat, b2: nat, b3: nat)
    requires b0 <= 255 && b1 <= 255 && b2 <= 255 && b3 <= 255
    requires v == b0 * 16777216 + b1 * 65536 + b2 * 256 + b3
    ensures ChannelsFor(8, v) == Argb(b0, b1, b2, b3)
  {
    assert Pow16(8) == 4294967296;
    assert v / 256 == b0 * 65536 + b1 * 256 + b2;
    assert v / 65536 == b0 * 256 + b1;
  }
}
