/** Decimal numbers as text: what `%d` prints and what scanning with `%d` reads. */
module Text {
  import opened Options

  const MAX_INT64: int := 0x7fff_ffff_ffff_ffff

  predicate IsDigit(c: char) { '0' <= c <= '9' }

  function DigitValue(c: char): nat
    requires IsDigit(c)
  {
    c as nat - '0' as nat
  }

  function Digits(n: nat): (s: string)
    ensures |s| > 0 && forall i :: 0 <= i < |s| ==> IsDigit(s[i])
  {
    var last := ['0' + (n % 10) as char];
    if n < 10 then last else Digits(n / 10) + last
  }

  /** What `%d` prints. */
  function Print(i: int): (s: string)
    ensures |s| > 0
  {
    if i < 0 then "-" + Digits(-i) else Digits(i)
  }

  /** The number written by a string of digits. */
  function Value(s: string): nat
    requires forall i :: 0 <= i < |s| ==> IsDigit(s[i])
  {
    if s == [] then 0 else 10 * Value(s[..|s| - 1]) + DigitValue(s[|s| - 1])
  }

  lemma {:induction false} ValueOfDigits(n: nat)
    ensures Value(Digits(n)) == n
  {
    var s := Digits(n);
    if n >= 10 {
      ValueOfDigits(n / 10);
      assert s[..|s| - 1] == Digits(n / 10);
    }
    assert DigitValue(s[|s| - 1]) == n % 10;
  }

  lemma DigitsInjective(m: nat, n: nat)
    requires Digits(m) == Digits(n)
    ensures m == n
  {
    ValueOfDigits(m);
    ValueOfDigits(n);
  }

  lemma PrintSign(i: int)
    ensures Print(i)[0] == '-' <==> i < 0
  {
    if i >= 0 {
      assert IsDigit(Digits(i)[0]);
    }
  }

  lemma PrintInjective(i: int, j: int)
    requires Print(i) == Print(j)
    ensures i == j
  {
    PrintSign(i);
    PrintSign(j);
    if i < 0 {
      assert Print(i)[1..] == Digits(-i) && Print(j)[1..] == Digits(-j);
      DigitsInjective(-i, -j);
    } else {
      DigitsInjective(i, j);
    }
  }

  lemma PrintHasNoColon(i: int)
    ensures ':' !in Print(i)
  {
  }

  /** A number is written in base ten, its last digit last, and a negative one with a minus sign in front. */
  lemma PrintPlaces(n: int, d: nat)
    requires n >= 0 && d < 10
    ensures Print(10 * n + d) == (if n == 0 then "" else Print(n)) + ["0123456789"[d]]
    ensures n > 0 ==> Print(-n) == "-" + Print(n)
  {
    assert (10 * n + d) / 10 == n && (10 * n + d) % 10 == d;
  }

  // ----- Scanning -----

  predicate IsBlank(c: char) { c == ' ' || c == '\t' || c == '\r' }

  /** Leading blanks are skipped. */
  function SkipBlanks(s: string): string {
    if s != [] && IsBlank(s[0]) then SkipBlanks(s[1..]) else s
  }

  /** The digits a string starts with; what follows them is ignored. */
  function LeadingDigits(s: string): (d: string)
    ensures forall i :: 0 <= i < |d| ==> IsDigit(d[i])
  {
    if s != [] && IsDigit(s[0]) then [s[0]] + LeadingDigits(s[1..]) else []
  }

  /** A number that fits into 64 bits. */
  function Fit(i: int): Option<int> {
    if -MAX_INT64 - 1 <= i <= MAX_INT64 then Some(i) else None
  }

  /** The number a string starts with, negative or not. */
  function InRange(s: string, negative: bool): Option<int> {
    var digits := LeadingDigits(s);
    if digits == [] then None else Fit(if negative then 0 - Value(digits) else Value(digits))
  }

  /** An optional sign, and at least one digit. */
  function ScanNumber(s: string): Option<int> {
    if s != [] && s[0] == '-' then InRange(s[1..], true)
    else if s != [] && s[0] == '+' then InRange(s[1..], false)
    else InRange(s, false)
  }

  /** Scanning a 64-bit integer with `%d`: blanks, an optional sign, at least one digit, no overflow. */
  function Scan(text: string): Option<int> {
    ScanNumber(SkipBlanks(text))
  }

  lemma {:induction false} SkipAll(blanks: string, rest: string)
    requires (forall i :: 0 <= i < |blanks| ==> IsBlank(blanks[i])) && (rest == [] || !IsBlank(rest[0]))
    ensures SkipBlanks(blanks + rest) == rest
  {
    if blanks == [] {
      assert blanks + rest == rest;
    } else {
      assert (blanks + rest)[1..] == blanks[1..] + rest;
      SkipAll(blanks[1..], rest);
    }
  }

  lemma {:induction false} DigitsThen(digits: string, tail: string)
    requires (forall i :: 0 <= i < |digits| ==> IsDigit(digits[i])) && (tail == [] || !IsDigit(tail[0]))
    ensures LeadingDigits(digits + tail) == digits
  {
    if digits == [] {
      assert digits + tail == tail;
    } else {
      assert (digits + tail)[1..] == digits[1..] + tail;
      DigitsThen(digits[1..], tail);
    }
  }

  lemma FitDigits(n: nat, tail: string, negative: bool)
    requires tail == [] || !IsDigit(tail[0])
    ensures InRange(Digits(n) + tail, negative) == Fit(if negative then 0 - n else n)
  {
    ValueOfDigits(n);
    DigitsThen(Digits(n), tail);
  }

  lemma SignedReads(sign: char, n: nat, tail: string)
    requires (sign == '-' || sign == '+') && (tail == [] || !IsDigit(tail[0]))
    ensures ScanNumber([sign] + (Digits(n) + tail)) == Fit(if sign == '-' then 0 - n else n)
  {
    var s := [sign] + (Digits(n) + tail);
    assert s[0] == sign && s[1..] == Digits(n) + tail;
    FitDigits(n, tail, sign == '-');
  }

  lemma UnsignedReads(n: nat, tail: string)
    requires tail == [] || !IsDigit(tail[0])
    ensures ScanNumber(Digits(n) + tail) == Fit(n) && IsDigit((Digits(n) + tail)[0])
  {
    assert (Digits(n) + tail)[0] == Digits(n)[0];
    FitDigits(n, tail, false);
  }

  lemma NumberReads(i: int, tail: string)
    requires tail == [] || !IsDigit(tail[0])
    ensures ScanNumber(Print(i) + tail) == Fit(i) && !IsBlank((Print(i) + tail)[0])
    ensures i >= 0 ==> ScanNumber("+" + (Print(i) + tail)) == Fit(i)
  {
    if i < 0 {
      assert Print(i) + tail == ['-'] + (Digits(-i) + tail);
      SignedReads('-', -i, tail);
    } else {
      UnsignedReads(i, tail);
      SignedReads('+', i, tail);
    }
  }

  /** A printed number is read back behind blanks and whatever follows it, with or without a plus sign, exactly if
      it fits into 64 bits. */
  lemma ScanReads(blanks: string, i: int, tail: string)
    requires forall j :: 0 <= j < |blanks| ==> blanks[j] == ' ' || blanks[j] == '\t' || blanks[j] == '\r'
    requires tail == [] || !IsDigit(tail[0])
    ensures Scan(blanks + (Print(i) + tail)) ==
            if -0x8000_0000_0000_0000 <= i < 0x8000_0000_0000_0000 then Some(i) else None
    ensures i >= 0 ==> Scan(blanks + ("+" + (Print(i) + tail))) == Scan(blanks + (Print(i) + tail))
  {
    NumberReads(i, tail);
    SkipAll(blanks, Print(i) + tail);
    SkipAll(blanks, "+" + (Print(i) + tail));
  }

  /** A text without a digit where the number should be cannot be read. */
  lemma ScanRefuses(blanks: string, sign: string, tail: string)
    requires forall j :: 0 <= j < |blanks| ==> blanks[j] == ' ' || blanks[j] == '\t' || blanks[j] == '\r'
    requires sign == "-" || sign == "+" || (sign == "" && tail != [] && !IsBlank(tail[0]) && tail[0] !in "+-")
    requires tail == [] || !IsDigit(tail[0])
    ensures Scan(blanks + (sign + tail)) == None
  {
    var s := sign + tail;
    SkipAll(blanks, s);
    assert sign == "" ==> s == tail;
    assert sign != "" ==> s[1..] == tail;
  }

  /** Scanning reads back what was printed. */
  lemma ScanPrint(i: int)
    requires -MAX_INT64 - 1 <= i <= MAX_INT64
    ensures Scan(Print(i)) == Some(i)
  {
    ScanReads("", i, "");
    assert "" + (Print(i) + "") == Print(i);
  }
}
