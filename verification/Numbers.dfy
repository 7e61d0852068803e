/** Reading and printing numbers as Go's strconv and fmt packages do. */
module Numbers {
  import opened Wrappers
  import opened Text

  const MAX_INT64 := 0x7fff_ffff_ffff_ffff

  /** The value an int64 holds after an operation whose exact result is `n`. */
  function Int64(n: int): int {
    (n + MAX_INT64 + 1) % (2 * (MAX_INT64 + 1)) - MAX_INT64 - 1
  }

  /** An optional sign and what follows it. */
  function Signed(s: string): (bool, string) {
    if s != "" && (s[0] == '+' || s[0] == '-') then (s[0] == '-', s[1..]) else (false, s)
  }

  /** strconv.Atoi on a 64-bit machine */
  function Atoi(s: string): Option<int> {
    var (negative, digits) := Signed(s);
    if !Digits(digits) then None else
    var size: int := DigitsValue(digits);
    var n := if negative then -size else size;
    if -MAX_INT64 - 1 <= n <= MAX_INT64 then Some(n) else None
  }

  function Pow10(n: nat): (p: nat)
    ensures p > 0
  {
    if n == 0 then 1 else 10 * Pow10(n - 1)
  }

  predicate AllDigits(s: string) {
    forall c <- s :: Digit(c)
  }

  /** The value of the digits `whole`, a decimal point and the digits `part`. */
  function PointValue(whole: string, part: string): real
    requires AllDigits(whole) && AllDigits(part)
  {
    DigitsValue(whole) as real + DigitsValue(part) as real / Pow10(|part|) as real
  }

  /** Digits with at most one decimal point among them. */
  function Mantissa(s: string): Option<real> {
    var parts := Split(s, ".");
    if |parts| == 1 && Digits(parts[0]) then Some(DigitsValue(parts[0]) as real)
    else if |parts| == 2 && AllDigits(parts[0]) && AllDigits(parts[1]) && parts[0] + parts[1] != "" then
      Some(PointValue(parts[0], parts[1]))
    else None
  }

  function Scaled(x: real, exponent: int): real {
    if exponent >= 0 then x * Pow10(exponent) as real else x / Pow10(-exponent) as real
  }

  /** strconv.ParseFloat on decimal syntax, without rounding: sign, mantissa, exponent. */
  function ParseFloat(s: string): Option<real> {
    var (negative, unsigned) := Signed(s);
    var parts := Split(ReplaceAll(unsigned, "E", "e"), "e");
    var mantissa := Mantissa(parts[0]);
    if mantissa == None || |parts| > 2 || (|parts| == 2 && !Digits(Signed(parts[1]).1)) then None else
    var (down, digits) := if |parts| == 2 then Signed(parts[1]) else (false, "");
    assert |parts| == 1 || Digits(digits);
    var size: int := if |parts| == 1 then 0 else DigitsValue(digits);
    var x := Scaled(mantissa.value, if down then -size else size);
    Some(if negative then -x else x)
  }

  /** The verb %0<width>d. */
  function Padded(n: nat, width: nat): string {
    Zeros(if |Decimal(n)| < width then width - |Decimal(n)| else 0) + Decimal(n)
  }

  function Zeros(n: nat): (s: string)
    ensures |s| == n && AllDigits(s)
  {
    if n == 0 then "" else ['0'] + Zeros(n - 1)
  }

  // ---------------------------------------------------------------- printing and reading back

  lemma {:induction false} LeadingZero(s: string)
    requires AllDigits(s)
    ensures DigitsValue(['0'] + s) == DigitsValue(s)
  {
    if s == "" {
      assert (['0'] + s)[..0] == "";
    } else {
      LeadingZero(s[..|s| - 1]);
      assert (['0'] + s)[..|s|] == ['0'] + s[..|s| - 1];
    }
  }

  lemma {:induction false} LeadingZeros(n: nat, s: string)
    requires AllDigits(s)
    ensures AllDigits(Zeros(n) + s) && DigitsValue(Zeros(n) + s) == DigitsValue(s)
  {
    if n == 0 {
      assert Zeros(0) + s == s;
    } else {
      LeadingZeros(n - 1, s);
      LeadingZero(Zeros(n - 1) + s);
      assert Zeros(n) + s == ['0'] + (Zeros(n - 1) + s);
    }
  }

  lemma PaddedValue(n: nat, width: nat)
    ensures Digits(Padded(n, width)) && DigitsValue(Padded(n, width)) == n
  {
    DecimalValue(n);
    LeadingZeros(if |Decimal(n)| < width then width - |Decimal(n)| else 0, Decimal(n));
  }

  lemma MillisWidth(n: nat)
    requires n < 1000
    ensures |Padded(n, 3)| == 3
  {
    if n >= 10 {
      assert |Decimal(n)| == |Decimal(n / 10)| + 1;
      if n >= 100 { assert |Decimal(n / 10)| == |Decimal(n / 100)| + 1 && n / 10 / 10 == n / 100; }
    }
  }

  lemma AtoiDigits(s: string)
    requires Digits(s) && DigitsValue(s) <= MAX_INT64
    ensures Atoi(s) == Some(DigitsValue(s))
  {
    assert s[0] in s;
  }

  /** Atoi takes digits with an optional sign, in the range of 64 bits, and nothing else. */
  lemma AtoiSigned(digits: string)
    requires Digits(digits)
    ensures var n: int := DigitsValue(digits);
            && Atoi(digits) == (if n <= MAX_INT64 then Some(n) else None)
            && Atoi("+" + digits) == (if n <= MAX_INT64 then Some(n) else None)
            && Atoi("-" + digits) == (if n <= MAX_INT64 + 1 then Some(-n) else None)
  {
    assert digits[0] in digits;
    assert ("+" + digits)[1..] == digits && ("-" + digits)[1..] == digits;
  }

  lemma AtoiNothingElse(s: string)
    requires Atoi(s).Some?
    ensures Digits(s) || (|s| > 1 && (s[0] == '+' || s[0] == '-') && Digits(s[1..]))
  {
  }

  // ---------------------------------------------------------------- splitting at a separator that is absent before

  lemma {:induction false} SplitWhole(a: string, sep: string)
    requires sep != "" && sep[0] !in a
    ensures Split(a, sep) == [a]
  {
    if a != "" {
      assert a[0] in a;
      SplitWhole(a[1..], sep);
      assert [a[0]] + a[1..] == a;
    }
  }

  lemma {:induction false} SplitFirst(a: string, sep: string, rest: string)
    requires sep != "" && sep[0] !in a
    ensures Split(a + sep + rest, sep) == [a] + Split(rest, sep)
  {
    var s := a + sep + rest;
    if a == "" {
      assert sep <= s && s[|sep|..] == rest;
    } else {
      assert s[0] == a[0] && a[0] in a && !(sep <= s);
      assert s[1..] == a[1..] + sep + rest;
      SplitFirst(a[1..], sep, rest);
      assert Split(s[1..], sep)[0] == a[1..] && Split(s[1..], sep)[1..] == Split(rest, sep);
      assert [a[0]] + a[1..] == a;
    }
  }

  lemma FractionMantissa(a: string, b: string)
    requires Digits(a) && Digits(b)
    ensures Mantissa(a + "." + b) == Some(PointValue(a, b))
  {
    hide DigitsValue, Split, PointValue;
    assert (".")[0] == '.';
    SplitFirst(a, ".", b);
    SplitWhole(b, ".");
    assert Split(a + "." + b, ".") == [a, b];
  }

  lemma FractionValue(a: string, b: string)
    requires Digits(a) && Digits(b)
    ensures ParseFloat(a + "." + b) == Some(PointValue(a, b))
  {
    hide Mantissa, DigitsValue, Split, ReplaceAll, PointValue;
    var s := a + "." + b;
    assert s[0] == a[0] && a[0] in a && Signed(s) == (false, s);
    assert 'E' !in s && 'e' !in s by {
      assert forall c <- s :: Digit(c) || c == '.';
    }
    assert ("E")[0] == 'E' && ("e")[0] == 'e';
    ReplaceAbsent(s, "E", "e");
    SplitWhole(s, "e");
    FractionMantissa(a, b);
    assert Scaled(Mantissa(s).value, 0) == Mantissa(s).value by { ScaledByNothing(Mantissa(s).value); }
  }

  lemma ScaledByNothing(x: real)
    ensures Scaled(x, 0) == x
  {
    assert Pow10(0) == 1 && 1 as real == 1.0;
  }
}
