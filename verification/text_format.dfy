/**
 * Stand-ins for the parts of the C library the settings file and the LED
 * driver files pass through: printf-style numerals (%d, %0<w>X), the
 * sscanf conversions %d and %x, and the lines that successive fgets calls
 * return.
 */
module TextFormat {
  import opened Wrappers

  /** The digit characters printf uses, upper case as %X writes them. */
  const HEX_CHARS := "0123456789ABCDEF"

  /** The numeral bases printf and sscanf use here: %d and %X / %x. */
  type Base = b: nat | b == 10 || b == 16 witness 10

  /** Value of one digit character, either case, as %x reads it. */
  function DigitValue(c: char): (r: Option<nat>)
    ensures r.Some? ==> r.value < 16
    ensures r.Some? ==> c in HEX_CHARS || 'a' <= c <= 'f'
  {
    if '0' <= c <= '9' then Some(c as int - '0' as int)
    else if 'A' <= c <= 'F' then Some(c as int - 'A' as int + 10)
    else if 'a' <= c <= 'f' then Some(c as int - 'a' as int + 10)
    else None
  }

  predicate IsDigit(c: char, base: Base) {
    DigitValue(c).Some? && DigitValue(c).value < base
  }

  predicate AllDigits(s: string, base: Base) {
    forall i :: 0 <= i < |s| ==> IsDigit(s[i], base)
  }

  lemma DigitChar(d: nat)
    requires d < 16
    ensures DigitValue(HEX_CHARS[d]) == Some(d)
  {
  }

  /**
   * Digits of n in `base`, most significant first, padded with '0' on the
   * left to at least `width` characters: printf's %d (width 1) and %06X.
   */
  function Numeral(n: nat, base: Base, width: nat): (s: string)
    ensures |s| >= 1 && |s| >= width
    ensures forall i :: 0 <= i < |s| ==> s[i] in HEX_CHARS[..base]
    decreases n, width
  {
    if n < base && width <= 1 then [HEX_CHARS[n]]
    else
      var w := if width == 0 then 0 else width - 1;
      var prefix := Numeral(n / base, base, w);
      var s := prefix + [HEX_CHARS[n % base]];
      assert forall i :: 0 <= i < |prefix| ==> s[i] == prefix[i];
      s
  }

  /** Every character of a numeral is a digit of its base. */
  lemma NumeralDigits(n: nat, base: Base, width: nat)
    ensures AllDigits(Numeral(n, base, width), base)
  {
    var s := Numeral(n, base, width);
    forall i | 0 <= i < |s| ensures IsDigit(s[i], base) {
      var d :| 0 <= d < base && HEX_CHARS[d] == s[i];
      DigitChar(d);
    }
  }

  /** Value of a digit string read most significant digit first. */
  function NumeralValue(s: string, base: Base): nat
    requires AllDigits(s, base)
  {
    if s == [] then 0
    else NumeralValue(s[..|s| - 1], base) * base + DigitValue(s[|s| - 1]).value
  }

  lemma {:induction false} NumeralRoundTrip(n: nat, base: Base, width: nat)
    ensures NumeralValue(Numeral(n, base, width), base) == n
    decreases n, width
  {
    var s := Numeral(n, base, width);
    DigitChar(n % base);
    if n < base && width <= 1 {
      assert s[..0] == [];
    } else {
      var w := if width == 0 then 0 else width - 1;
      NumeralRoundTrip(n / base, base, w);
      assert s[..|s| - 1] == Numeral(n / base, base, w);
    }
  }

  function Pow(base: nat, k: nat): nat {
    if k == 0 then 1 else base * Pow(base, k - 1)
  }

  /** A value below base^width is written in exactly `width` digits. */
  lemma {:induction false} NumeralWidth(n: nat, base: Base, width: nat)
    requires width >= 1 && n < Pow(base, width)
    ensures |Numeral(n, base, width)| == width
    decreases width
  {
    assert Pow(base, 1) == base;
    if n < base && width <= 1 {
    } else {
      assert width >= 2;
      assert n / base < Pow(base, width - 1);
      NumeralWidth(n / base, base, width - 1);
    }
  }

  /** Number of leading characters of s that are digits: where a conversion stops. */
  function DigitRun(s: string, base: Base): (k: nat)
    ensures k <= |s|
    ensures AllDigits(s[..k], base)
    ensures k < |s| ==> !IsDigit(s[k], base)
  {
    if s == [] || !IsDigit(s[0], base) then 0
    else
      var k := 1 + DigitRun(s[1..], base);
      assert AllDigits(s[..k], base) by {
        forall i | 0 <= i < k
          ensures IsDigit(s[..k][i], base)
        {
          if i > 0 {
            assert s[..k][i] == s[1..][..k - 1][i - 1];
          }
        }
      }
      k
  }

  /** An unsigned sscanf conversion: the longest digit prefix, or None when there is none. */
  function ScanUnsigned(s: string, base: Base): Option<nat> {
    var k := DigitRun(s, base);
    if k == 0 then None else Some(NumeralValue(s[..k], base))
  }

  /** sscanf's %d: an optional sign, then decimal digits; what follows is ignored. */
  function ScanDecimal(s: string): Option<int> {
    if |s| > 0 && (s[0] == '-' || s[0] == '+') then
      match ScanUnsigned(s[1..], 10)
      case Some(v) => Some(if s[0] == '-' then 0 - v else v as int)
      case None => None
    else
      ScanUnsigned(s, 10)
  }

  /** sscanf's %x: an optional 0x or 0X, then hexadecimal digits of either case. */
  function ScanHex(s: string): Option<nat> {
    if |s| > 2 && s[0] == '0' && (s[1] == 'x' || s[1] == 'X') && IsDigit(s[2], 16) then
      ScanUnsigned(s[2..], 16)
    else
      ScanUnsigned(s, 16)
  }

  /** printf's %d. */
  function DecimalString(n: int): string {
    if n < 0 then "-" + Numeral(-n, 10, 1) else Numeral(n, 10, 1)
  }

  /** printf's %0<width>X. */
  function HexString(n: nat, width: nat): string {
    Numeral(n, 16, width)
  }

  lemma DigitRunStops(ds: string, rest: string, base: Base)
    requires AllDigits(ds, base)
    requires rest == [] || !IsDigit(rest[0], base)
    ensures DigitRun(ds + rest, base) == |ds|
    ensures (ds + rest)[..|ds|] == ds
  {
    if ds != [] {
      assert (ds + rest)[1..] == ds[1..] + rest;
      DigitRunStops(ds[1..], rest, base);
    }
  }

  /** Reading back a numeral printf wrote gives its value, whatever non-digit follows. */
  lemma ScanUnsignedRoundTrip(n: nat, base: Base, width: nat, rest: string)
    requires rest == [] || !IsDigit(rest[0], base)
    ensures ScanUnsigned(Numeral(n, base, width) + rest, base) == Some(n)
  {
    var ds := Numeral(n, base, width);
    NumeralDigits(n, base, width);
    DigitRunStops(ds, rest, base);
    NumeralRoundTrip(n, base, width);
  }

  lemma NumeralStartsWithDigit(m: nat)
    ensures Numeral(m, 10, 1)[0] != '-' && Numeral(m, 10, 1)[0] != '+'
  {
    NumeralDigits(m, 10, 1);
    assert IsDigit(Numeral(m, 10, 1)[0], 10);
  }

  lemma ScanDecimalNegative(digits: string, rest: string, m: nat)
    requires ScanUnsigned(digits + rest, 10) == Some(m)
    ensures ScanDecimal("-" + digits + rest) == Some(0 - m)
  {
    assert ("-" + digits + rest)[1..] == digits + rest;
  }

  lemma ScanDecimalUnsigned(m: nat, rest: string)
    requires ScanUnsigned(Numeral(m, 10, 1) + rest, 10) == Some(m)
    ensures ScanDecimal(Numeral(m, 10, 1) + rest) == Some(m)
  {
    var s := Numeral(m, 10, 1) + rest;
    NumeralStartsWithDigit(m);
    assert s[0] == Numeral(m, 10, 1)[0];
  }

  /** Reading back what printf("%d") wrote gives the number, whatever non-digit follows. */
  lemma ScanDecimalRoundTrip(n: int, rest: string)
    requires rest == [] || !IsDigit(rest[0], 10)
    ensures ScanDecimal(DecimalString(n) + rest) == Some(n)
  {
    var m: nat := if n < 0 then -n else n;
    ScanUnsignedRoundTrip(m, 10, 1, rest);
    if n < 0 {
      ScanDecimalNegative(Numeral(m, 10, 1), rest, m);
    } else {
      ScanDecimalUnsigned(m, rest);
    }
  }

  /** Reading back what printf("0x%06X") wrote gives the number. */
  lemma ScanHexRoundTrip(n: nat, rest: string)
    requires rest == [] || !IsDigit(rest[0], 16)
    ensures ScanHex("0x" + HexString(n, 6) + rest) == Some(n)
  {
    var ds := HexString(n, 6);
    var s := "0x" + ds + rest;
    assert s[2..] == ds + rest;
    assert s[2] == ds[0];
    NumeralDigits(n, 16, 6);
    ScanUnsignedRoundTrip(n, 16, 6, rest);
  }

  /** Where the first line of s ends: the index of its first '\n', or |s|. */
  function LineEnd(s: string): (k: nat)
    ensures k <= |s|
    ensures forall i :: 0 <= i < k ==> s[i] != '\n'
    ensures k < |s| ==> s[k] == '\n'
  {
    if s == [] || s[0] == '\n' then 0 else 1 + LineEnd(s[1..])
  }

  /** The lines successive fgets calls return, without their terminators. */
  function SplitLines(s: string): seq<string>
    decreases |s|
  {
    if s == [] then []
    else
      var k := LineEnd(s);
      if k < |s| then [s[..k]] + SplitLines(s[k + 1..]) else [s]
  }

  /** A text made of the given lines, each followed by '\n'. */
  function JoinLines(lines: seq<string>): string {
    if lines == [] then "" else lines[0] + "\n" + JoinLines(lines[1..])
  }

  predicate NoNewline(line: string) {
    forall i :: 0 <= i < |line| ==> line[i] != '\n'
  }

  lemma {:induction false} JoinLinesAppend(a: seq<string>, b: seq<string>)
    ensures JoinLines(a + b) == JoinLines(a) + JoinLines(b)
  {
    if a == [] {
      assert a + b == b;
    } else {
      assert (a + b)[0] == a[0];
      assert (a + b)[1..] == a[1..] + b;
      JoinLinesAppend(a[1..], b);
    }
  }

  /** One more line written: the text so far, the line, its line break. */
  lemma JoinSnoc(lines: seq<string>, line: string)
    ensures JoinLines(lines + [line]) == JoinLines(lines) + line + "\n"
  {
    JoinLinesAppend(lines, [line]);
    assert [line][1..] == [];
  }

  lemma LineEndOf(line: string, rest: string)
    requires NoNewline(line)
    ensures LineEnd(line + "\n" + rest) == |line|
  {
    if line != [] {
      assert (line + "\n" + rest)[1..] == line[1..] + "\n" + rest;
      LineEndOf(line[1..], rest);
    }
  }

  /** Splitting a joined text into lines gives the lines back. */
  lemma {:induction false} SplitJoin(lines: seq<string>)
    requires forall k :: 0 <= k < |lines| ==> NoNewline(lines[k])
    ensures SplitLines(JoinLines(lines)) == lines
  {
    if lines != [] {
      var s := JoinLines(lines);
      var rest := JoinLines(lines[1..]);
      assert s == lines[0] + "\n" + rest;
      LineEndOf(lines[0], rest);
      assert s[..|lines[0]|] == lines[0];
      assert s[|lines[0]| + 1..] == rest;
      SplitJoin(lines[1..]);
    }
  }
}
