/** The text operations of the Go and JavaScript standard libraries that the source uses. */
module Text {
  // ---------------------------------------------------------------- white space

  /** unicode.IsSpace */
  predicate GoSpace(c: char) {
    var n := c as int;
    || 0x9 <= n <= 0xD || n == 0x20 || n == 0x85 || n == 0xA0 || n == 0x1680 || 0x2000 <= n <= 0x200A
    || n == 0x2028 || n == 0x2029 || n == 0x202F || n == 0x205F || n == 0x3000
  }

  /** The characters String.prototype.trim removes. */
  predicate JsSpace(c: char) {
    c as int == 0xFEFF || (GoSpace(c) && c as int != 0x85)
  }

  function TrimLeft(sp: char -> bool, s: string): string {
    if s != "" && sp(s[0]) then TrimLeft(sp, s[1..]) else s
  }

  function TrimRight(sp: char -> bool, s: string): string {
    if s != "" && sp(s[|s| - 1]) then TrimRight(sp, s[..|s| - 1]) else s
  }

  function Trim(sp: char -> bool, s: string): string {
    TrimRight(sp, TrimLeft(sp, s))
  }

  function TrimSpace(s: string): string {
    Trim(GoSpace, s)
  }

  /** No white space at either end. */
  predicate Trimmed(sp: char -> bool, s: string) {
    s == "" || (!sp(s[0]) && !sp(s[|s| - 1]))
  }

  predicate Blank(sp: char -> bool, s: string) {
    forall c <- s :: sp(c)
  }

  lemma {:induction false} TrimLeftSplit(sp: char -> bool, s: string) returns (a: string)
    ensures s == a + TrimLeft(sp, s) && Blank(sp, a)
    ensures TrimLeft(sp, s) != "" ==> !sp(TrimLeft(sp, s)[0])
  {
    if s != "" && sp(s[0]) {
      var rest := TrimLeftSplit(sp, s[1..]);
      a := [s[0]] + rest;
    } else {
      a := "";
    }
  }

  lemma {:induction false} TrimRightSplit(sp: char -> bool, s: string) returns (b: string)
    ensures s == TrimRight(sp, s) + b && Blank(sp, b)
    ensures TrimRight(sp, s) != "" ==> !sp(TrimRight(sp, s)[|TrimRight(sp, s)| - 1])
  {
    if s != "" && sp(s[|s| - 1]) {
      var rest := TrimRightSplit(sp, s[..|s| - 1]);
      b := rest + [s[|s| - 1]];
    } else {
      b := "";
    }
  }

  /** Trim cuts white space off both ends and nothing else. */
  lemma TrimSplit(sp: char -> bool, s: string) returns (a: string, b: string)
    ensures s == a + Trim(sp, s) + b && Blank(sp, a) && Blank(sp, b)
    ensures Trimmed(sp, Trim(sp, s))
  {
    a := TrimLeftSplit(sp, s);
    b := TrimRightSplit(sp, TrimLeft(sp, s));
  }

  lemma TrimIsTrimmed(sp: char -> bool, s: string)
    ensures Trimmed(sp, Trim(sp, s))
  {
    var a, b := TrimSplit(sp, s);
  }

  lemma {:induction false} TrimPadded(sp: char -> bool, a: string, s: string, b: string)
    requires Blank(sp, a) && Blank(sp, b) && Trimmed(sp, s)
    ensures Trim(sp, a + s + b) == s
  {
    TrimLeftPadded(sp, a, s + b);
    assert a + s + b == a + (s + b);
    if s == "" {
      TrimLeftPadded(sp, b, "");
      assert b + "" == b && s + b == b;
    } else {
      TrimRightPadded(sp, s, b);
    }
  }

  lemma {:induction false} TrimLeftPadded(sp: char -> bool, a: string, s: string)
    requires Blank(sp, a)
    ensures TrimLeft(sp, a + s) == TrimLeft(sp, s)
  {
    if a == "" {
      assert a + s == s;
    } else {
      assert (a + s)[1..] == a[1..] + s;
      assert a[0] in a;
      TrimLeftPadded(sp, a[1..], s);
    }
  }

  lemma {:induction false} TrimRightPadded(sp: char -> bool, s: string, b: string)
    requires Blank(sp, b)
    ensures TrimRight(sp, s + b) == TrimRight(sp, s)
  {
    if b == "" {
      assert s + b == s;
    } else {
      var last := |b| - 1;
      assert (s + b)[..|s + b| - 1] == s + b[..last];
      assert b[last] in b;
      TrimRightPadded(sp, s, b[..last]);
    }
  }

  lemma TrimTrimmed(sp: char -> bool, s: string)
    requires Trimmed(sp, s)
    ensures Trim(sp, s) == s
  {
    TrimPadded(sp, "", s, "");
    assert "" + s + "" == s;
  }

  lemma TrimBlank(sp: char -> bool, s: string)
    ensures Trim(sp, s) == "" <==> Blank(sp, s)
  {
    var a, b := TrimSplit(sp, s);
    if Blank(sp, s) {
      TrimPadded(sp, s, "", "");
      assert s + "" + "" == s;
    }
    assert Trim(sp, s) == "" ==> s == a + b;
  }

  // ---------------------------------------------------------------- splitting and joining

  /** strings.Split for a separator that is not empty. */
  function Split(s: string, sep: string): (parts: seq<string>)
    requires sep != ""
    ensures parts != []
  {
    if s == "" then [""]
    else if sep <= s then [""] + Split(s[|sep|..], sep)
    else var rest := Split(s[1..], sep); [[s[0]] + rest[0]] + rest[1..]
  }

  function Join(parts: seq<string>, sep: string): string {
    if parts == [] then "" else if |parts| == 1 then parts[0] else parts[0] + sep + Join(parts[1..], sep)
  }

  function Lines(s: string): (lines: seq<string>)
    ensures lines != []
  {
    Split(s, "\n")
  }

  lemma LinesStep(c: char, s: string)
    ensures Lines([c] + s) == if c == '\n' then [""] + Lines(s) else [[c] + Lines(s)[0]] + Lines(s)[1..]
  {
    assert ([c] + s)[1..] == s && ("\n")[0] == '\n';
    assert "\n" <= [c] + s <==> c == '\n';
  }

  /** The text after one line is split separately. */
  lemma {:induction false} LinesCons(a: string, rest: string)
    requires '\n' !in a
    ensures Lines(a + "\n" + rest) == [a] + Lines(rest)
  {
    var s := a + "\n" + rest;
    if a == "" {
      assert "\n" <= s && s[1..] == rest;
    } else {
      assert s[0] == a[0] && a[0] in a;
      assert ("\n")[0] == '\n' && !("\n" <= s);
      assert s[1..] == a[1..] + "\n" + rest;
      LinesCons(a[1..], rest);
      assert Lines(s[1..])[0] == a[1..] && Lines(s[1..])[1..] == Lines(rest);
      assert [a[0]] + a[1..] == a;
    }
  }

  lemma {:induction false} LinesOfLine(a: string)
    requires '\n' !in a
    ensures Lines(a) == [a]
  {
    if a != "" {
      assert a[0] in a && ("\n")[0] == '\n' && !("\n" <= a);
      LinesOfLine(a[1..]);
      assert [a[0]] + a[1..] == a;
    }
  }

  lemma {:induction false} LinesHaveNoBreak(s: string)
    ensures forall line <- Lines(s) :: '\n' !in line
  {
    if s != "" { LinesHaveNoBreak(s[1..]); }
  }

  lemma {:induction false} JoinLines(s: string)
    ensures Join(Lines(s), "\n") == s
  {
    if s == "" {
    } else {
      var rest := Lines(s[1..]);
      JoinLines(s[1..]);
      if "\n" <= s {
        assert s == "\n" + s[1..];
      }
      if |rest| > 1 && !("\n" <= s) {
        assert ([[s[0]] + rest[0]] + rest[1..])[1..] == rest[1..];
      }
    }
  }

  /** Splitting what Join put together: the pieces are the lines of the parts. */
  lemma {:induction false} LinesOfJoin(parts: seq<string>)
    requires parts != [] && forall p <- parts :: '\n' !in p
    ensures Lines(Join(parts, "\n")) == parts
  {
    if |parts| == 1 {
      LinesOfLine(parts[0]);
    } else {
      assert parts[0] in parts;
      LinesOfJoin(parts[1..]);
      LinesCons(parts[0], Join(parts[1..], "\n"));
    }
  }

  /** Every line ends with a line break. */
  function Unlines(lines: seq<string>): string {
    if lines == [] then "" else lines[0] + "\n" + Unlines(lines[1..])
  }

  lemma {:induction false} UnlinesConcat(a: seq<string>, b: seq<string>)
    ensures Unlines(a + b) == Unlines(a) + Unlines(b)
  {
    if a == [] {
      assert a + b == b;
    } else {
      assert (a + b)[1..] == a[1..] + b;
      UnlinesConcat(a[1..], b);
      assert a[0] + "\n" + (Unlines(a[1..]) + Unlines(b)) == a[0] + "\n" + Unlines(a[1..]) + Unlines(b);
    }
  }

  lemma {:induction false} LinesOfUnlines(lines: seq<string>)
    requires forall line <- lines :: '\n' !in line
    ensures Lines(Unlines(lines)) == lines + [""]
  {
    if lines == [] {
      assert Lines("") == [""];
    } else {
      assert lines[0] in lines;
      LinesOfUnlines(lines[1..]);
      LinesCons(lines[0], Unlines(lines[1..]));
    }
  }

  /** strings.ReplaceAll for a non-empty old string. */
  function ReplaceAll(s: string, from: string, to: string): string
    requires from != ""
  {
    if s == "" then ""
    else if from <= s then to + ReplaceAll(s[|from|..], from, to)
    else [s[0]] + ReplaceAll(s[1..], from, to)
  }

  /** strings.Contains */
  predicate Contains(s: string, sub: string) {
    sub <= s || (s != "" && Contains(s[1..], sub))
  }

  lemma {:induction false} ReplaceAbsent(s: string, from: string, to: string)
    requires from != "" && from[0] !in s
    ensures ReplaceAll(s, from, to) == s
  {
    if s != "" {
      assert s[0] in s;
      ReplaceAbsent(s[1..], from, to);
    }
  }

  /** strings.ToLower as far as the ASCII letters its results are compared with; the Kelvin sign and the
      dotted capital I are the characters outside ASCII that become such letters. */
  function ToLower(s: string): string {
    seq(|s|, i requires 0 <= i < |s| =>
      if 'A' <= s[i] <= 'Z' then (s[i] as int + 32) as char
      else if s[i] as int == 0x212A then 'k'
      else if s[i] as int == 0x130 then 'i'
      else s[i])
  }

  // ---------------------------------------------------------------- decimal numbers

  predicate Digit(c: char) {
    '0' <= c <= '9'
  }

  predicate Digits(s: string) {
    s != "" && forall c <- s :: Digit(c)
  }

  function DigitChar(n: nat): char
    requires n < 10
  {
    ('0' as int + n) as char
  }

  /** The %d verb. */
  function Decimal(n: nat): (s: string)
    ensures Digits(s)
  {
    if n < 10 then [DigitChar(n)] else Decimal(n / 10) + [DigitChar(n % 10)]
  }

  function DigitsValue(s: string): nat
    requires forall c <- s :: Digit(c)
  {
    if s == "" then 0 else
    var last := s[|s| - 1];
    assert last in s && Digit(last);
    10 * DigitsValue(s[..|s| - 1]) + (last as int - '0' as int)
  }

  /** No zero ahead of the first digit. */
  lemma {:induction false} DecimalFirst(n: nat)
    ensures |Decimal(n)| > 1 ==> Decimal(n)[0] != '0'
    ensures Decimal(n)[0] == '0' <==> n == 0
  {
    if n >= 10 { DecimalFirst(n / 10); }
  }

  lemma {:induction false} DecimalValue(n: nat)
    ensures DigitsValue(Decimal(n)) == n
  {
    if n >= 10 {
      DecimalValue(n / 10);
      assert Decimal(n)[..|Decimal(n)| - 1] == Decimal(n / 10);
    } else {
      assert Decimal(n)[..0] == "";
    }
  }
}
