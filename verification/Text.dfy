/** Text helpers shared by the wire codecs and the settlement file code: optional
    values, decimal and hexadecimal numerals, ASCII case folding and zero padding. */
module Text {

  datatype Option<+T> = None | Some(value: T)

  predicate OneLine(s: string) { '\n' !in s }

  predicate OneLineEach(lines: seq<string>) {
    forall i :: 0 <= i < |lines| ==> OneLine(lines[i])
  }

  // ---------------------------------------------------------------- decimal numerals

  function DigitChar(d: nat): char
    requires d < 10
  {
    (d + ('0' as int)) as char
  }

  predicate IsDigit(c: char) {
    '0' <= c <= '9'
  }

  function DigitValue(c: char): (d: nat)
    requires IsDigit(c)
    ensures d < 10
  {
    (c as int) - ('0' as int)
  }

  predicate AllDigits(s: string) {
    forall i :: 0 <= i < |s| ==> IsDigit(s[i])
  }

  /** Python's `str(n)` for a natural number. */
  function Decimal(n: nat): (s: string)
    ensures |s| > 0 && AllDigits(s)
  {
    if n < 10 then [DigitChar(n)] else Decimal(n / 10) + [DigitChar(n % 10)]
  }

  /** The number a string of decimal digits denotes. */
  function ParseDecimal(s: string): nat
    requires AllDigits(s)
  {
    if s == "" then 0 else ParseDecimal(s[..|s| - 1]) * 10 + DigitValue(s[|s| - 1])
  }

  lemma {:induction false} DecimalRoundTrip(n: nat)
    ensures ParseDecimal(Decimal(n)) == n
  {
    var s := Decimal(n);
    if n < 10 {
      assert s[..0] == "";
    } else {
      DecimalRoundTrip(n / 10);
      assert s[..|s| - 1] == Decimal(n / 10);
    }
  }

  lemma DecimalInjective(m: nat, n: nat)
    ensures Decimal(m) == Decimal(n) <==> m == n
  {
    DecimalRoundTrip(m);
    DecimalRoundTrip(n);
  }

  // ---------------------------------------------------------------- zero padding

  function Zeros(k: nat): (s: string)
    ensures |s| == k && forall i :: 0 <= i < k ==> s[i] == '0'
  {
    if k == 0 then "" else "0" + Zeros(k - 1)
  }

  /** Left-pad with zeros up to `width`; longer strings are left alone. This is
      `str.zfill` on unsigned text and the `f"{n:0wd}"` format on natural numbers. */
  function ZeroFill(s: string, width: nat): (r: string)
    ensures |r| == if |s| < width then width else |s|
  {
    if |s| < width then Zeros(width - |s|) + s else s
  }

  lemma {:induction false} ParsePadded(k: nat, s: string)
    requires AllDigits(s)
    ensures AllDigits(Zeros(k) + s) && ParseDecimal(Zeros(k) + s) == ParseDecimal(s)
    decreases |s|, k
  {
    var t := Zeros(k) + s;
    if s == "" {
      if k > 0 {
        assert t == Zeros(k);
        assert t[..k - 1] == Zeros(k - 1) + "";
        ParsePadded(k - 1, "");
      }
    } else {
      ParsePadded(k, s[..|s| - 1]);
      assert t[..|t| - 1] == Zeros(k) + s[..|s| - 1];
    }
  }

  /** A zero-padded numeral still denotes its number, whatever the width. */
  lemma PaddedRoundTrip(n: nat, width: nat)
    ensures AllDigits(ZeroFill(Decimal(n), width))
    ensures ParseDecimal(ZeroFill(Decimal(n), width)) == n
  {
    DecimalRoundTrip(n);
    if |Decimal(n)| < width {
      ParsePadded(width - |Decimal(n)|, Decimal(n));
    }
  }

  function Pow10(k: nat): (p: nat)
    ensures p > 0
  {
    if k == 0 then 1 else 10 * Pow10(k - 1)
  }

  lemma {:induction false} DecimalWidth(n: nat, k: nat)
    requires k > 0
    ensures |Decimal(n)| <= k <==> n < Pow10(k)
  {
    if n >= 10 {
      if k == 1 {
        assert Pow10(1) == 10 * Pow10(0) == 10;
      } else {
        DecimalWidth(n / 10, k - 1);
        assert n / 10 < Pow10(k - 1) <==> n < 10 * Pow10(k - 1);
      }
    } else {
      Pow10AtLeastTen(k);
    }
  }

  lemma {:induction false} Pow10AtLeastTen(k: nat)
    requires k > 0
    ensures Pow10(k) >= 10
  {
    assert Pow10(k - 1) >= 1;
  }

  // ---------------------------------------------------------------- hexadecimal numerals

  predicate IsHex(c: char) {
    IsDigit(c) || 'a' <= c <= 'f' || 'A' <= c <= 'F'
  }

  predicate AllHex(s: string) {
    forall i :: 0 <= i < |s| ==> IsHex(s[i])
  }

  function HexDigitValue(c: char): (d: nat)
    requires IsHex(c)
    ensures d < 16
  {
    if IsDigit(c) then DigitValue(c)
    else if 'a' <= c then (c as int) - ('a' as int) + 10
    else (c as int) - ('A' as int) + 10
  }

  /** Python's `int(s, 16)` for a string of hexadecimal digits. */
  function HexValue(s: string): nat
    requires AllHex(s)
  {
    if s == "" then 0 else HexValue(s[..|s| - 1]) * 16 + HexDigitValue(s[|s| - 1])
  }

  function HexChar(d: nat): (c: char)
    requires d < 16
    ensures IsHex(c) && HexDigitValue(c) == d
  {
    if d < 10 then DigitChar(d) else (d + 55) as char
  }

  /** A number in hexadecimal digits, as the controller sends it. */
  function Hexadecimal(n: nat): (s: string)
    ensures s != "" && AllHex(s)
  {
    if n < 16 then [HexChar(n)] else Hexadecimal(n / 16) + [HexChar(n % 16)]
  }

  lemma {:induction false} HexRoundTrip(n: nat)
    ensures HexValue(Hexadecimal(n)) == n
    decreases n
  {
    var s := Hexadecimal(n);
    if n < 16 {
      assert s[..0] == "" && HexValue("") == 0;
    } else {
      HexRoundTrip(n / 16);
      assert s[..|s| - 1] == Hexadecimal(n / 16);
    }
  }

  function UpperChar(c: char): char {
    if 'a' <= c <= 'z' then ((c as int) - ('a' as int) + ('A' as int)) as char else c
  }

  /** `str.upper` on ASCII text. */
  function Upper(s: string): (r: string)
    ensures |r| == |s|
    ensures forall i :: 0 <= i < |s| ==> r[i] == UpperChar(s[i])
  {
    seq(|s|, i requires 0 <= i < |s| => UpperChar(s[i]))
  }

  /** Letter case does not change the number a hexadecimal string denotes. */
  lemma {:induction false} HexCaseInsensitive(s: string, t: string)
    requires AllHex(s) && AllHex(t) && Upper(s) == Upper(t)
    ensures HexValue(s) == HexValue(t)
    decreases |s|
  {
    assert |s| == |Upper(s)| == |t|;
    if s == "" {
    } else {
      var n := |s| - 1;
      assert UpperChar(s[n]) == Upper(s)[n] == UpperChar(t[n]);
      assert Upper(s[..n]) == Upper(s)[..n] == Upper(t[..n]);
      HexCaseInsensitive(s[..n], t[..n]);
    }
  }

  /** Leading zeros do not change the number a hexadecimal string denotes. */
  lemma {:induction false} HexZeroPadding(k: nat, s: string)
    requires AllHex(s)
    ensures AllHex(Zeros(k) + s) && HexValue(Zeros(k) + s) == HexValue(s)
    decreases |s|, k
  {
    var t := Zeros(k) + s;
    if s == "" {
      if k > 0 {
        assert t == Zeros(k);
        assert t[..k - 1] == Zeros(k - 1) + "";
        HexZeroPadding(k - 1, "");
      }
    } else {
      HexZeroPadding(k, s[..|s| - 1]);
      assert t[..|t| - 1] == Zeros(k) + s[..|s| - 1];
    }
  }

  /** The digits and letters by name: the decimal ones count from '0', the hexadecimal ones go on to 'F'
      in either case, and only small letters have a capital. */
  lemma Alphabet(c: char)
    ensures IsDigit(c) <==> c in "0123456789"
    ensures IsDigit(c) ==> "0123456789"[DigitValue(c)] == c && DigitChar(DigitValue(c)) == c
    ensures IsHex(c) <==> c in "0123456789abcdefABCDEF"
    ensures IsHex(c) ==> "0123456789ABCDEF"[HexDigitValue(c)] == UpperChar(c)
    ensures UpperChar(c) as int == c as int - if 'a' <= c <= 'z' then 32 else 0
  {
  }

  /** Padding adds zeros in front up to the width, and never cuts. */
  lemma Padding(s: string, width: nat)
    ensures |ZeroFill(s, width)| == if |s| < width then width else |s|
    ensures ZeroFill(s, width)[|ZeroFill(s, width)| - |s|..] == s
    ensures forall i :: 0 <= i < |ZeroFill(s, width)| - |s| ==> ZeroFill(s, width)[i] == '0'
  {
  }
}
