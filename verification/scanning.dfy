/** Numbers printed and scanned as Go's formats %d, %dk and %dx%d do
    (internal/infrastructure/ffmpeg/encoder.go, internal/application/usecases/transcode_usecase.go,
    internal/application/usecases/separate_av_encoder.go). */
module Scanning {
  import opened Options

  predicate IsDigit(ch: char) { '0' <= ch <= '9' }

  predicate IsBlank(ch: char) { ch == ' ' || ch == '\t' || ch == '\r' }

  predicate IsSign(ch: char) { ch == '+' || ch == '-' }

  ghost predicate AllDigits(s: string) { forall i :: 0 <= i < |s| ==> IsDigit(s[i]) }

  function DigitOf(d: nat): (ch: char)
    requires d < 10
    ensures IsDigit(ch) && DigitValue(ch) == d
  {
    (48 + d) as char
  }

  function DigitValue(ch: char): nat
    requires IsDigit(ch)
  {
    ch as int - 48
  }

  function Decimal(n: nat): string
  {
    (if n < 10 then "" else Decimal(n / 10)) + [DigitOf(n % 10)]
  }

  /** %d */
  function PrintInt(z: int): string { if z < 0 then "-" + Decimal(-z) else Decimal(z) }

  /** The number that the first n characters spell. */
  function Value(s: string, n: nat): nat
    requires n <= |s| && forall i :: 0 <= i < n ==> IsDigit(s[i])
  {
    if n == 0 then 0 else 10 * Value(s, n - 1) + DigitValue(s[n - 1])
  }

  /** How many digits s begins with. */
  function Digits(s: string): (n: nat)
    ensures n <= |s| && (forall i :: 0 <= i < n ==> IsDigit(s[i])) && (n < |s| ==> !IsDigit(s[n]))
  {
    if s == "" || !IsDigit(s[0]) then 0 else 1 + Digits(s[1..])
  }

  function SkipBlanks(s: string): string
  {
    if s != "" && IsBlank(s[0]) then SkipBlanks(s[1..]) else s
  }

  datatype Scanned = Scanned(value: int, rest: string)

  /** One %d of a scan format: blanks, an optional sign, at least one digit. */
  function ScanInt(s: string): Option<Scanned>
  {
    var t := SkipBlanks(s);
    var u := if t != "" && IsSign(t[0]) then t[1..] else t;
    var n := Digits(u);
    if n == 0 then None
    else Some(Scanned(if t[0] == '-' then 0 - Value(u, n) else Value(u, n), u[n..]))
  }

  /** Scanning with "%dk": what fails to scan leaves the variable at 0, a missing k
      changes nothing. */
  function ParseBitrate(bitrate: string): int
  {
    match ScanInt(bitrate)
    case None => 0
    case Some(v) => v.value * 1000
  }

  /** Scanning with "%dx%d". */
  function ScanResolution(s: string): (int, int)
  {
    match ScanInt(s)
    case None => (0, 0)
    case Some(w) =>
      if w.rest == "" || w.rest[0] != 'x' then (w.value, 0)
      else
        match ScanInt(w.rest[1..])
        case None => (w.value, 0)
        case Some(h) => (w.value, h.value)
  }

  function ParseWidth(resolution: string): int { ScanResolution(resolution).0 }
  function ParseHeight(resolution: string): int { ScanResolution(resolution).1 }

  /** %dx%d */
  function Resolution(width: int, height: int): string { PrintInt(width) + "x" + PrintInt(height) }

  lemma {:induction false} DecimalDigits(n: nat)
    ensures Decimal(n) != "" && AllDigits(Decimal(n))
    ensures Value(Decimal(n), |Decimal(n)|) == n
  {
    if n >= 10 {
      DecimalDigits(n / 10);
      ValueOfPrefix(Decimal(n / 10), [DigitOf(n % 10)], |Decimal(n / 10)|);
    }
  }

  lemma {:induction false} ValueOfPrefix(s: string, rest: string, n: nat)
    requires n <= |s| && forall i :: 0 <= i < n ==> IsDigit(s[i])
    ensures (forall i :: 0 <= i < n ==> (s + rest)[i] == s[i]) && Value(s + rest, n) == Value(s, n)
  {
    if n > 0 {
      ValueOfPrefix(s, rest, n - 1);
    }
  }

  lemma {:induction false} DigitsStop(s: string, rest: string)
    requires AllDigits(s) && (rest == "" || !IsDigit(rest[0]))
    ensures Digits(s + rest) == |s|
  {
    if s == "" {
      assert s + rest == rest;
    } else {
      DigitsStop(s[1..], rest);
      assert (s + rest)[1..] == s[1..] + rest;
    }
  }

  lemma ScanDecimal(n: nat, rest: string)
    requires rest == "" || !IsDigit(rest[0])
    ensures var u := Decimal(n) + rest; Digits(u) == |Decimal(n)| && Value(u, Digits(u)) == n && u[Digits(u)..] == rest
    ensures IsDigit((Decimal(n) + rest)[0])
  {
    DecimalDigits(n);
    var d := Decimal(n);
    DigitsStop(d, rest);
    ValueOfPrefix(d, rest, |d|);
  }

  lemma ScanUnsigned(u: string)
    requires u != "" && IsDigit(u[0])
    ensures ScanInt(u) == Some(Scanned(Value(u, Digits(u)), u[Digits(u)..]))
  {
    assert SkipBlanks(u) == u && Digits(u) > 0;
  }

  lemma ScanNegative(u: string)
    requires u != "" && IsDigit(u[0])
    ensures ScanInt(['-'] + u) == Some(Scanned(0 - Value(u, Digits(u)), u[Digits(u)..]))
  {
    var s := ['-'] + u;
    assert SkipBlanks(s) == s;
    assert s[1..] == u;
    assert Digits(u) > 0;
  }

  /** %d printed and scanned gives the number back, whatever non-digit follows. */
  lemma ScanPrinted(z: int, rest: string)
    requires rest == "" || !IsDigit(rest[0])
    ensures ScanInt(PrintInt(z) + rest) == Some(Scanned(z, rest))
  {
    var n: nat := if z < 0 then -z else z;
    ScanDecimal(n, rest);
    if z < 0 {
      assert "-" + Decimal(n) + rest == ['-'] + (Decimal(n) + rest);
      ScanNegative(Decimal(n) + rest);
    } else {
      ScanUnsigned(Decimal(n) + rest);
    }
  }

  /** Main result: "%dx%d" printed and parsed gives width and height back. */
  lemma ResolutionRoundTrip(width: int, height: int)
    ensures ParseWidth(Resolution(width, height)) == width
    ensures ParseHeight(Resolution(width, height)) == height
  {
    var h := PrintInt(height);
    assert Resolution(width, height) == PrintInt(width) + ("x" + h);
    ScanPrinted(width, "x" + h);
    ScanPrinted(height, "");
    assert h + "" == h && ("x" + h)[1..] == h;
  }

  /** A number printed and parsed as a bitrate is multiplied by 1000, with "k" or
      whatever else follows it. */
  lemma BitrateRoundTrip(kbps: int, rest: string)
    requires rest == "" || !IsDigit(rest[0])
    ensures ParseBitrate(PrintInt(kbps) + rest) == kbps * 1000
  {
    ScanPrinted(kbps, rest);
  }

  /** A text that begins with no number gives zeros. */
  lemma NothingScanned(s: string)
    requires s == "" || (!IsDigit(s[0]) && !IsBlank(s[0]) && !IsSign(s[0]))
    ensures ParseBitrate(s) == 0 && ParseWidth(s) == 0 && ParseHeight(s) == 0
  {
    assert SkipBlanks(s) == s;
  }

  /** Leading blanks are skipped and a plus sign is allowed. */
  lemma BlanksAndPlus(blank: char, n: nat)
    requires IsBlank(blank)
    ensures ScanInt([blank] + PrintInt(n)) == Some(Scanned(n, ""))
    ensures ScanInt("+" + PrintInt(n)) == Some(Scanned(n, ""))
  {
    ScanDecimal(n, "");
    var d := Decimal(n);
    assert d + "" == d && ([blank] + d)[1..] == d && ("+" + d)[1..] == d;
    assert SkipBlanks(d) == d && SkipBlanks([blank] + d) == d;
    assert SkipBlanks("+" + d) == "+" + d;
  }

  /** Without an x after it the width is kept and the height is 0. */
  lemma WidthAlone(width: int, rest: string)
    requires rest == "" || (!IsDigit(rest[0]) && rest[0] != 'x')
    ensures ParseWidth(PrintInt(width) + rest) == width && ParseHeight(PrintInt(width) + rest) == 0
  {
    ScanPrinted(width, rest);
  }

  /** The separate encoder's variants carry bandwidth/1000 as a bitrate; parsing it gives
      the bandwidth back exactly when that loses nothing. */
  lemma SeparateBitrate(bandwidth: nat)
    ensures ParseBitrate(PrintInt(bandwidth / 1000) + "k") == bandwidth <==> bandwidth % 1000 == 0
  {
    BitrateRoundTrip(bandwidth / 1000, "k");
  }
}
