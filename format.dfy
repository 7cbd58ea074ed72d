/** The slice of Python's printf-style formatting that the monitor and the
    session manager use. `%d`, `%0Nd`, `%0Nx` and `hex()` are characterised
    by their alphabet, sign, width and a parser that reads them back; `%Ns`
    and `%-Ns` by the field's length, the text's place in it and the fill;
    `str.startswith` is a prefix test. */
module Format {

  /** Characters Python's `%d` and `%x` write as digits. */
  predicate IsDigitChar(c: char) {
    '0' <= c <= '9' || 'a' <= c <= 'f'
  }

  /** The digit character of `d` in bases up to 16 (lower-case, as Python prints hex). */
  function DigitChar(d: nat): (c: char)
    requires d < 16
    ensures IsDigitChar(c)
  {
    if d < 10 then ('0' as int + d) as char else ('a' as int + d - 10) as char
  }

  /** The value of one digit character; characters outside the alphabet read as 0. */
  function DigitValue(c: char): nat {
    if '0' <= c <= '9' then (c as int - '0' as int)
    else if 'a' <= c <= 'f' then (c as int - 'a' as int) + 10
    else 0
  }

  lemma DigitCharValue(d: nat)
    requires d < 16
    ensures DigitValue(DigitChar(d)) == d
  {
  }

  /** A digit of `base`: '0' to '9', and 'a' to 'f' in base 16. */
  predicate IsDigitIn(c: char, base: nat) {
    IsDigitChar(c) && DigitValue(c) < base
  }

  /** Every character of `s` is a digit of `base`. */
  predicate AllDigitsIn(s: string, base: nat) {
    forall i :: 0 <= i < |s| ==> IsDigitIn(s[i], base)
  }

  /** Python formats integers here in decimal (`%d`) and hexadecimal (`%x`, `hex`). */
  predicate IsRadix(base: nat) {
    base == 10 || base == 16
  }

  /** The digits of `n` in `base`, most significant first; `0` is "0". */
  function Digits(n: nat, base: nat): (s: string)
    requires IsRadix(base)
    ensures |s| >= 1
    decreases n
  {
    if n < base then [DigitChar(n)]
    else Digits(n / base, base) + [DigitChar(n % base)]
  }

  /** The digits of `n` are digits of `base`, and the first is not '0'
      unless `n` is 0. */
  lemma {:induction false} DigitsAreDigits(n: nat, base: nat)
    requires IsRadix(base)
    ensures AllDigitsIn(Digits(n, base), base)
    ensures n > 0 ==> Digits(n, base)[0] != '0'
    ensures |Digits(n, base)| > 1 ==> n > 0
    decreases n
  {
    if n < base {
      DigitCharValue(n);
    } else {
      DivMod(n, base);
      DigitCharValue(n % base);
      DigitsAreDigits(n / base, base);
      var p := Digits(n / base, base);
      assert Digits(n, base) == p + [DigitChar(n % base)];
    }
  }

  /** The value of a string of digits read in `base` (Python's `int(s, base)` on digits). */
  function Value(s: string, base: nat): nat
    decreases |s|
  {
    if s == [] then 0 else Value(s[..|s| - 1], base) * base + DigitValue(s[|s| - 1])
  }

  /** Appending a digit shifts the value one place and adds the digit. */
  lemma ValueSnoc(prefix: string, c: char, base: nat)
    ensures Value(prefix + [c], base) == Value(prefix, base) * base + DigitValue(c)
  {
    assert (prefix + [c])[..|prefix|] == prefix;
  }

  lemma {:induction false} DigitsRoundTrip(n: nat, base: nat)
    requires IsRadix(base)
    ensures Value(Digits(n, base), base) == n
    decreases n
  {
    if n < base {
      DigitCharValue(n);
      ValueSnoc([], DigitChar(n), base);
    } else {
      var q, r := n / base, n % base;
      DivMod(n, base);
      var c := DigitChar(r);
      DigitCharValue(r);
      var p := Digits(q, base);
      assert Digits(n, base) == p + [c];
      ValueSnoc(p, c, base);
      DigitsRoundTrip(q, base);
      MulEqual(Value(p, base), q, base);
    }
  }

  lemma MulEqual(a: int, b: int, c: int)
    requires a == b
    ensures a * c == b * c
  {
  }

  /** Quotient and remainder facts for the two bases the source prints in. */
  lemma DivMod(n: nat, base: nat)
    requires IsRadix(base)
    ensures (n / base) * base + n % base == n
    ensures n % base < base
    ensures n >= base ==> 0 < n / base < n
  {
    if base == 10 {
      assert n / base == n / 10 && n % base == n % 10;
    } else {
      assert n / base == n / 16 && n % base == n % 16;
    }
  }

  function Zeros(k: nat): (z: string)
    ensures |z| == k && forall i :: 0 <= i < k ==> z[i] == '0'
  {
    seq(k, _ => '0')
  }

  /** Leading zeros do not change a digit string's value. */
  lemma {:induction false} LeadingZeros(k: nat, s: string, base: nat)
    ensures Value(Zeros(k) + s, base) == Value(s, base)
    decreases |s|
  {
    if s == [] {
      LeadingZerosOnly(k, base);
      assert Zeros(k) + s == Zeros(k);
    } else {
      var t := Zeros(k) + s;
      assert t[..|t| - 1] == Zeros(k) + s[..|s| - 1];
      LeadingZeros(k, s[..|s| - 1], base);
    }
  }

  lemma {:induction false} LeadingZerosOnly(k: nat, base: nat)
    ensures Value(Zeros(k), base) == 0
  {
    if k > 0 {
      assert Zeros(k)[..k - 1] == Zeros(k - 1);
      LeadingZerosOnly(k - 1, base);
    }
  }

  /** `s` right-justified in a field of `width` characters filled with `fill`
      (Python's `%Ns` when `fill` is a space, the `0` flag when it is '0'). */
  function PadLeft(s: string, width: int, fill: char): (r: string)
    ensures |r| == if |s| >= width then |s| else width
    ensures r[|r| - |s|..] == s
    ensures forall i :: 0 <= i < |r| - |s| ==> r[i] == fill
  {
    if |s| >= width then s else seq(width - |s|, _ => fill) + s
  }

  /** `s` left-justified in a field of `width` characters (Python's `%-Ns`). */
  function PadRight(s: string, width: int): (r: string)
    ensures |r| == if |s| >= width then |s| else width
    ensures r[..|s|] == s
    ensures forall i :: |s| <= i < |r| ==> r[i] == ' '
  {
    if |s| >= width then s else s + seq(width - |s|, _ => ' ')
  }

  /** Python's `%0<width>d` (base 10) or `%0<width>x` (base 16) of an integer:
      the sign, then the digits zero-padded so that the whole is `width` wide. */
  function Padded(n: int, width: int, base: nat): (r: string)
    requires IsRadix(base)
    ensures |r| >= 1 && |r| >= width
    ensures (r[0] == '-') == (n < 0)
    ensures r[0] == '-' || IsDigitChar(r[0])
  {
    DigitsAreDigits(if n < 0 then -n else n, base);
    if n < 0 then "-" + PadLeft(Digits(-n, base), width - 1, '0')
    else PadLeft(Digits(n, base), width, '0')
  }

  /** `Decimal` writes exactly the decimal numeral of `n`. */
  lemma DecimalNumeral(n: int)
    ensures IsNumeral(Decimal(n), n, 0, 10)
  {
    PaddedNumeral(n, 0, 10);
  }

  /** `Padded` writes exactly the numeral of `n` at that width. */
  lemma PaddedNumeral(n: int, width: int, base: nat)
    requires IsRadix(base)
    ensures IsNumeral(Padded(n, width, base), n, width, base)
  {
    NumeralOf(n, width, base, Padded(n, width, base));
  }

  /** `r` is how `%0<width>d` (base 10) or `%0<width>x` (base 16) writes `n`:
      a '-' exactly for negatives, then nothing but digits of `base`; at
      least `width` characters, and a leading zero only where the width
      needs one or `n` is 0; and it reads back to `n`. */
  predicate IsNumeral(r: string, n: int, width: int, base: nat) {
    var k := if n < 0 then 1 else 0;
    && |r| > k && |r| >= width
    && (r[0] == '-') == (n < 0)
    && AllDigitsIn(r[k..], base)
    && (|r| > width && |r| > k + 1 ==> r[k] != '0')
    && ParseSigned(r, base) == n
  }

  /** The sign and the zero-padded digits of `n` form its numeral. */
  lemma NumeralOf(n: int, width: int, base: nat, r: string)
    requires IsRadix(base)
    requires r == if n < 0 then "-" + PadLeft(Digits(-n, base), width - 1, '0')
                  else PadLeft(Digits(n, base), width, '0')
    ensures IsNumeral(r, n, width, base)
  {
    var m: nat := if n < 0 then -n else n;
    var k := if n < 0 then 1 else 0;
    PaddedDigits(m, width - k, base);
    SignedNumeral(n, width, base, PadLeft(Digits(m, base), width - k, '0'), r);
  }

  /** The digits of `m` zero-padded to `w`: digits of `base` only, a leading
      zero only where the padding or `m` being 0 puts one, and the value `m`. */
  lemma PaddedDigits(m: nat, w: int, base: nat)
    requires IsRadix(base)
    ensures var p := PadLeft(Digits(m, base), w, '0');
            && |p| >= 1 && |p| >= w && AllDigitsIn(p, base) && Value(p, base) == m
            && (|p| > w && |p| > 1 ==> p[0] != '0')
  {
    var d := Digits(m, base);
    var p := PadLeft(d, w, '0');
    DigitsAreDigits(m, base);
    PadLeftIsZeros(d, w);
    var z := |p| - |d|;
    forall i | 0 <= i < |p| ensures IsDigitIn(p[i], base) {
      if i >= z {
        assert p[i] == d[i - z];
      }
    }
    if |p| > w && |p| > 1 {
      assert p == d;
    }
    LeadingZeros(z, d, base);
    DigitsRoundTrip(m, base);
  }

  /** A '-' exactly for negatives, before such digits, makes the numeral. */
  lemma SignedNumeral(n: int, width: int, base: nat, p: string, r: string)
    requires var k := if n < 0 then 1 else 0;
             && |p| >= 1 && |p| >= width - k && AllDigitsIn(p, base)
             && Value(p, base) == (if n < 0 then -n else n)
             && (|p| > width - k && |p| > 1 ==> p[0] != '0')
    requires r == if n < 0 then "-" + p else p
    ensures IsNumeral(r, n, width, base)
  {
    if n < 0 {
      assert r[1..] == p;
    } else {
      assert IsDigitIn(p[0], base);
      assert r[0..] == p;
    }
  }

  /** Python's `str(n)` and `%d` of an integer. */
  function Decimal(n: int): (r: string)
    ensures |r| >= 1
    ensures r[0] == '-' || IsDigitChar(r[0])
  {
    Padded(n, 0, 10)
  }

  /** Reads back a signed digit string: an optional '-', then digits in `base`. */
  function ParseSigned(s: string, base: nat): int {
    if |s| > 0 && s[0] == '-' then 0 - Value(s[1..], base) else Value(s, base)
  }

  /** Zero-padding prepends nothing but zeros. */
  lemma PadLeftIsZeros(d: string, width: int)
    ensures PadLeft(d, width, '0') == Zeros(|PadLeft(d, width, '0')| - |d|) + d
  {
    var p := PadLeft(d, width, '0');
    if |d| < width {
      assert p == seq(width - |d|, _ => '0') + d;
    } else {
      assert p == Zeros(0) + d;
    }
  }

  /** Zero-padding a representation at any width loses nothing: it parses back to `n`. */
  lemma PaddedRoundTrip(n: int, width: int, base: nat)
    requires IsRadix(base)
    ensures ParseSigned(Padded(n, width, base), base) == n
  {
    PaddedNumeral(n, width, base);
  }

  lemma DecimalInjective(a: int, b: int)
    requires Decimal(a) == Decimal(b)
    ensures a == b
  {
    PaddedRoundTrip(a, 0, 10);
    PaddedRoundTrip(b, 0, 10);
  }

  /** Python's `hex(n)`: "0x" and the lower-case digits, after a '-' for negatives. */
  function Hex(n: int): (r: string)
    ensures |r| >= 3
  {
    if n < 0 then "-0x" + Digits(-n, 16) else "0x" + Digits(n, 16)
  }

  /** `r` is how `hex()` writes `n`: "0x", after a '-' for negatives, then
      nothing but lower-case hexadecimal digits, the first not '0' unless `n`
      is 0; and it reads back to `n`. */
  predicate IsHexText(r: string, n: int) {
    var k := if n < 0 then 3 else 2;
    && |r| > k && r[..k] == (if n < 0 then "-0x" else "0x")
    && AllDigitsIn(r[k..], 16)
    && (|r| > k + 1 ==> r[k] != '0')
    && ParseHex(r) == n
  }

  /** `Hex` writes exactly what `hex()` does. */
  lemma HexText(n: int)
    ensures IsHexText(Hex(n), n)
  {
    var r := Hex(n);
    var m: nat := if n < 0 then -n else n;
    var k := if n < 0 then 3 else 2;
    DigitsAreDigits(m, 16);
    DigitsRoundTrip(m, 16);
    assert r[k..] == Digits(m, 16);
    if n >= 0 {
      assert r[..3] != "-0x" by { assert r[0] == '0'; }
    }
  }

  /** Reads back what `Hex` writes. */
  function ParseHex(s: string): int {
    if |s| >= 3 && s[..3] == "-0x" then 0 - Value(s[3..], 16)
    else if |s| >= 2 then Value(s[2..], 16)
    else 0
  }

  lemma HexRoundTrip(n: int)
    ensures ParseHex(Hex(n)) == n
  {
    HexText(n);
  }

  /** Python's `str.startswith`. */
  predicate StartsWith(s: string, prefix: string) {
    |prefix| <= |s| && s[..|prefix|] == prefix
  }
}
