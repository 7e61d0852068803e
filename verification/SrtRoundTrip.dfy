/** Reading back what RenderSRT wrote. */
module SrtRoundTrip {
  import opened Wrappers
  import opened Text
  import opened Numbers
  import opened Wrapping
  import opened TidyText
  import opened Refine
  import opened RefineFacts
  import opened Srt

  // ---------------------------------------------------------------- one timestamp

  predicate ClockChar(c: char) {
    Digit(c) || c == ':' || c == ','
  }

  predicate ClockText(s: string) {
    forall c <- s :: ClockChar(c)
  }

  lemma TimestampText(millis: nat)
    ensures ClockText(Timestamp(millis)) && Timestamp(millis) != "" && Text.Trimmed(GoSpace, Timestamp(millis))
  {
    hide Padded;
    PaddedValue(millis / 3600000, 2);
    PaddedValue(millis % 3600000 / 60000, 2);
    PaddedValue(millis % 60000 / 1000, 2);
    PaddedValue(millis % 1000, 3);
    var t := Timestamp(millis);
    assert ClockText(t);
    assert t[0] in t && t[|t| - 1] in t;
  }

  lemma {:induction false} ReplaceComma(a: string, b: string)
    requires ',' !in a && ',' !in b
    ensures ReplaceAll(a + "," + b, ",", ".") == a + "." + b
  {
    var s := a + "," + b;
    assert (",")[0] == ',';
    if a == "" {
      assert "," <= s && s[1..] == b;
      ReplaceAbsent(b, ",", ".");
    } else {
      assert s[0] == a[0] && a[0] in a && s[1..] == a[1..] + "," + b;
      ReplaceComma(a[1..], b);
      assert [a[0]] + (a[1..] + "." + b) == a + "." + b;
    }
  }

  lemma SplitClock(hours: string, minutes: string, seconds: string)
    requires ':' !in hours && ':' !in minutes && ':' !in seconds
    ensures Split(hours + ":" + minutes + ":" + seconds, ":") == [hours, minutes, seconds]
  {
    hide Split;
    assert (":")[0] == ':';
    assert hours + ":" + minutes + ":" + seconds == hours + ":" + (minutes + ":" + seconds);
    SplitFirst(hours, ":", minutes + ":" + seconds);
    SplitFirst(minutes, ":", seconds);
    SplitWhole(seconds, ":");
  }

  lemma Dotted(hours: string, minutes: string, seconds: string, millis: string)
    requires Digits(hours) && Digits(minutes) && Digits(seconds) && Digits(millis)
    ensures var s := hours + ":" + minutes + ":" + seconds + "," + millis;
            && TrimSpace(ReplaceAll(s, ",", ".")) == hours + ":" + minutes + ":" + (seconds + "." + millis)
  {
    hide ReplaceAll;
    var clock := hours + ":" + minutes + ":" + seconds;
    ReplaceComma(clock, millis);
    var dotted := clock + "." + millis;
    assert dotted == hours + ":" + minutes + ":" + (seconds + "." + millis);
    assert dotted[0] == hours[0] && hours[0] in hours;
    assert dotted[|dotted| - 1] == millis[|millis| - 1] && millis[|millis| - 1] in millis;
    TrimTrimmed(GoSpace, dotted);
  }

  lemma ClockParts(millis: nat)
    ensures var h, m, s := millis / 3600000, millis % 3600000 / 60000, millis % 60000 / 1000;
            millis == 1000 * (h * 3600 + m * 60 + s) + millis % 1000
  {
    assert millis % 3600000 % 60000 == millis % 60000;
    assert millis % 60000 % 1000 == millis % 1000;
  }

  lemma MillisSum(a: int, s: nat, m: nat, millis: nat)
    requires millis == 1000 * (a + s) + m
    ensures a as real + (s as real + m as real / 1000.0) == millis as real / 1000.0
  {
    assert millis as real == 1000.0 * (a as real + s as real) + m as real;
  }

  /** A timestamp read back is the number of milliseconds it was printed from. */
  lemma TimestampRoundTrip(millis: nat)
    requires millis <= MAX_INT64
    ensures ParsedTime(Timestamp(millis)) == Ok(millis as real / 1000.0)
  {
    hide Padded, Atoi, ParseFloat, PointValue, Int64, Split, ReplaceAll;
    var h, m, s, ms := millis / 3600000, millis % 3600000 / 60000, millis % 60000 / 1000, millis % 1000;
    var hours, minutes, seconds, part := Padded(h, 2), Padded(m, 2), Padded(s, 2), Padded(ms, 3);
    PaddedValue(h, 2);
    PaddedValue(m, 2);
    PaddedValue(s, 2);
    PaddedValue(ms, 3);
    TimestampText(millis);
    TrimTrimmed(GoSpace, Timestamp(millis));
    Dotted(hours, minutes, seconds, part);
    SplitClock(hours, minutes, seconds + "." + part);
    AtoiDigits(hours);
    AtoiDigits(minutes);
    FractionValue(seconds, part);
    ClockParts(millis);
    assert Int64(h * 3600 + m * 60) == h * 3600 + m * 60 by { SmallInt64(h * 3600 + m * 60); }
    assert PointValue(seconds, part) == s as real + ms as real / 1000.0 by { MillisPoint(seconds, s, ms); }
    MillisSum(h * 3600 + m * 60, s, ms, millis);
  }

  lemma SmallInt64(n: nat)
    requires n <= MAX_INT64
    ensures Int64(n) == n
  {
  }

  lemma MillisPoint(seconds: string, s: nat, ms: nat)
    requires Digits(seconds) && DigitsValue(seconds) == s && ms < 1000 && Digits(Padded(ms, 3))
    ensures PointValue(seconds, Padded(ms, 3)) == s as real + ms as real / 1000.0
  {
    hide DigitsValue, Padded;
    MillisWidth(ms);
    PaddedValue(ms, 3);
    assert Pow10(3) == 1000 by { assert Pow10(0) == 1 && Pow10(1) == 10 && Pow10(2) == 100; }
  }

  // ---------------------------------------------------------------- one block

  /** Lines nonEmptyLines keeps as they are. */
  predicate Full(lines: seq<string>) {
    forall line <- lines :: line != "" && Text.Trimmed(GoSpace, line) && '\n' !in line
  }

  lemma {:induction false} KeptFull(lines: seq<string>)
    ensures (forall line <- lines :: '\n' !in line) ==> Full(Kept(lines))
    ensures Full(lines) ==> Kept(lines) == lines
  {
    if lines != [] {
      var line := lines[0];
      assert line in lines;
      KeptFull(lines[1..]);
      var a, b := TrimSplit(GoSpace, line);
      assert '\n' !in line ==> '\n' !in TrimSpace(line);
      if Full(lines) { TrimTrimmed(GoSpace, line); }
    }
  }

  lemma BlockOfLines(lines: seq<string>)
    requires lines != [] && Full(lines)
    ensures BlockLines(Join(lines, "\n")) == lines
    ensures Text.Trimmed(GoSpace, Join(lines, "\n")) && Join(lines, "\n") != ""
    ensures Lines(Join(lines, "\n")) == lines
  {
    assert lines[0] in lines && lines[|lines| - 1] in lines;
    JoinEnds(lines, "\n");
    TrimTrimmed(GoSpace, Join(lines, "\n"));
    LinesOfJoin(lines);
    KeptFull(lines);
  }

  /** No line of the text is empty. */
  predicate NoBlankLine(text: string) {
    forall line <- Lines(text) :: line != ""
  }

  lemma NormalLinesFull(text: string)
    requires NoBlankLine(Normalized(text))
    ensures Full(Lines(Normalized(text)))
  {
    NormalizedLines(text);
    LinesHaveNoBreak(Normalized(text));
  }

  lemma {:induction false} ContainsLacks(s: string, sub: string)
    requires sub != "" && sub[0] !in s
    ensures !Contains(s, sub)
  {
    if s != "" {
      assert s[0] in s;
      ContainsLacks(s[1..], sub);
    } else {
      assert !(sub <= s);
    }
  }

  lemma {:induction false} ContainsMiddle(a: string, sub: string, b: string)
    ensures Contains(a + sub + b, sub)
  {
    var s := a + sub + b;
    if a == "" {
      assert sub <= s;
    } else {
      assert s[1..] == a[1..] + sub + b;
      ContainsMiddle(a[1..], sub, b);
    }
  }

  lemma ArrowSplit(start: string, end: string)
    requires ClockText(start) && ClockText(end)
    ensures var line := start + " --> " + end;
            Contains(line, "-->") && Split(line, "-->") == [start + " ", " " + end]
  {
    hide Split, Contains;
    var line := start + " --> " + end;
    assert line == (start + " ") + "-->" + (" " + end);
    assert ("-->")[0] == '-';
    ContainsMiddle(start + " ", "-->", " " + end);
    assert '-' !in start + " " && '-' !in " " + end;
    SplitFirst(start + " ", "-->", " " + end);
    SplitWhole(" " + end, "-->");
  }

  lemma PaddedTime(value: string)
    requires Text.Trimmed(GoSpace, value)
    ensures ParsedTime(value + " ") == ParsedTime(value) && ParsedTime(" " + value) == ParsedTime(value)
  {
    hide Split, Atoi, ParseFloat, ReplaceAll;
    TrimPadded(GoSpace, "", value, " ");
    TrimPadded(GoSpace, " ", value, "");
    TrimTrimmed(GoSpace, value);
    assert "" + value + " " == value + " " && " " + value + "" == " " + value;
  }

  lemma LineParts(start: string, end: string)
    requires ClockText(start) && ClockText(end) && start != "" && end != ""
    ensures Full([start + " --> " + end])
  {
    var line := start + " --> " + end;
    assert line[0] == start[0] && start[0] in start;
    assert line[|line| - 1] == end[|end| - 1] && end[|end| - 1] in end;
  }

  lemma NumberFull(n: nat)
    ensures Full([Decimal(n)]) && !Contains(Decimal(n), "-->")
  {
    hide Decimal;
    var d := Decimal(n);
    assert d[0] in d && d[|d| - 1] in d && ("-->")[0] == '-';
    ContainsLacks(d, "-->");
  }

  /** The segment as it is read back: times in whole milliseconds, text normalised, no words. */
  function AsRead(s: Segment): Segment
    requires Playable(s)
  {
    Segment(Millis(s.start) as real / 1000.0, Millis(s.end) as real / 1000.0, Normalized(s.text), [])
  }

  function CueLines(s: Segment, n: nat): seq<string>
    requires Playable(s)
  {
    [Decimal(n), TimingLine(s)] + Lines(Normalized(s.text))
  }

  lemma CueIsLines(s: Segment, n: nat)
    requires Playable(s)
    ensures Cue(s, n) == Join(CueLines(s, n), "\n")
  {
    hide Decimal, TimingLine, Normalized, Lines;
    var lines := Lines(Normalized(s.text));
    JoinLines(Normalized(s.text));
    assert CueLines(s, n)[1..] == [TimingLine(s)] + lines && CueLines(s, n)[1..][1..] == lines;
    assert Decimal(n) + "\n" + (TimingLine(s) + "\n" + Normalized(s.text)) == Cue(s, n);
  }

  predicate InRange(s: Segment) {
    s.end >= 0.0 && Millis(s.end) <= MAX_INT64
  }

  lemma CueFull(s: Segment, n: nat)
    requires Playable(s) && NoBlankLine(Normalized(s.text))
    ensures Full(CueLines(s, n))
  {
    hide Decimal, Timestamp, Normalized, Lines, Millis;
    NumberFull(n);
    TimestampText(Millis(s.start));
    TimestampText(Millis(s.end));
    LineParts(Timestamp(Millis(s.start)), Timestamp(Millis(s.end)));
    NormalLinesFull(s.text);
    assert Decimal(n) in [Decimal(n)] && TimingLine(s) in [TimingLine(s)];
  }

  lemma ParsedTiming(s: Segment)
    requires Playable(s) && InRange(s)
    ensures Contains(TimingLine(s), "-->") && |Split(TimingLine(s), "-->")| == 2
    ensures var parts := Split(TimingLine(s), "-->");
            ParsedTime(parts[0]) == Ok(AsRead(s).start) && ParsedTime(parts[1]) == Ok(AsRead(s).end)
  {
    hide Timestamp, Normalized, ParsedTime, Split, Contains;
    var start, end := Timestamp(Millis(s.start)), Timestamp(Millis(s.end));
    assert Millis(s.start) <= Millis(s.end);
    TimestampText(Millis(s.start));
    TimestampText(Millis(s.end));
    ArrowSplit(start, end);
    PaddedTime(start);
    PaddedTime(end);
    TimestampRoundTrip(Millis(s.start));
    TimestampRoundTrip(Millis(s.end));
  }

  /** One cue read back. */
  lemma CueRoundTrip(s: Segment, n: nat)
    requires Playable(s) && InRange(s) && NoBlankLine(Normalized(s.text))
    ensures ParsedBlock(Cue(s, n)) == Ok(Some(AsRead(s)))
  {
    hide Decimal, TimingLine, Normalized, ParsedTime, Split, Contains, Millis, BlockLines, Join;
    var lines := CueLines(s, n);
    CueIsLines(s, n);
    CueFull(s, n);
    BlockOfLines(lines);
    NumberFull(n);
    ParsedTiming(s);
    assert lines[2..] == Lines(Normalized(s.text));
    JoinLines(Normalized(s.text));
    NormalizedTrimmed(s.text);
    TrimTrimmed(GoSpace, Normalized(s.text));
  }

  /** A cue without its number is read as the same segment. */
  lemma NumberIsOptional(s: Segment)
    requires Playable(s) && InRange(s) && NoBlankLine(Normalized(s.text))
    ensures ParsedBlock(TimingLine(s) + "\n" + Normalized(s.text)) == Ok(Some(AsRead(s)))
  {
    hide Decimal, TimingLine, Normalized, ParsedTime, Split, Contains, Millis, BlockLines, Join, Lines;
    var text := Normalized(s.text);
    var lines := [TimingLine(s)] + Lines(text);
    UnnumberedLines(s);
    JoinLines(text);
    assert lines[1..] == Lines(text) && |lines| >= 2;
    ParsedTiming(s);
    NormalizedTrimmed(s.text);
    TrimTrimmed(GoSpace, text);
  }

  lemma UnnumberedLines(s: Segment)
    requires Playable(s) && NoBlankLine(Normalized(s.text))
    ensures BlockLines(TimingLine(s) + "\n" + Normalized(s.text)) == [TimingLine(s)] + Lines(Normalized(s.text))
  {
    CueFull(s, 1);
    hide Decimal, TimingLine, Normalized, Lines, Full, NoBlankLine, BlockLines;
    var lines := [TimingLine(s)] + Lines(Normalized(s.text));
    assert CueLines(s, 1)[1..] == lines;
    FullRest(CueLines(s, 1));
    BlockOfLines(lines);
    JoinLines(Normalized(s.text));
    assert lines[1..] == Lines(Normalized(s.text));
  }

  lemma FullRest(lines: seq<string>)
    requires Full(lines) && lines != []
    ensures Full(lines[1..])
  {
    assert forall line <- lines[1..] :: line in lines;
  }

  lemma {:induction false} BreaksThere(s: string)
    requires '\r' !in s
    ensures ReplaceAll(ReplaceAll(s, "\n", "\r\n"), "\r\n", "\n") == s
  {
    if s != "" {
      var rest := s[1..];
      BreaksThere(rest);
      var there := ReplaceAll(rest, "\n", "\r\n");
      assert ("\n")[0] == '\n' && ("\r\n")[0] == '\r' && s[0] in s;
      if s[0] == '\n' {
        assert ReplaceAll(s, "\n", "\r\n") == "\r\n" + there;
        assert ("\r\n" + there)[2..] == there;
      } else {
        assert ReplaceAll(s, "\n", "\r\n") == [s[0]] + there && ([s[0]] + there)[1..] == there;
        assert !("\r\n" <= [s[0]] + there);
      }
    }
  }

  /** Carriage returns ahead of the line breaks change nothing. */
  lemma WindowsBreaks(raw: string)
    requires '\r' !in raw
    ensures Parsed(ReplaceAll(raw, "\n", "\r\n")) == Parsed(raw)
  {
    BreaksThere(raw);
    ReplaceAbsent(raw, "\r\n", "\n");
  }

  /** Seconds and milliseconds may also be parted by a point. */
  lemma PointOrComma(h: string, m: string, s: string, ms: string)
    requires Digits(h) && Digits(m) && Digits(s) && Digits(ms)
    ensures ParsedTime(h + ":" + m + ":" + s + "." + ms) == ParsedTime(h + ":" + m + ":" + s + "," + ms)
  {
    hide Split, Atoi, ParseFloat, ReplaceAll, TrimSpace, Digits;
    var clock := h + ":" + m + ":" + s;
    ClockTrimmed(h, m, s, ms, ".");
    ClockTrimmed(h, m, s, ms, ",");
    NoComma(h, m, s, ms);
    ReplaceAbsent(clock + "." + ms, ",", ".");
    ReplaceComma(clock, ms);
  }

  lemma ClockTrimmed(h: string, m: string, s: string, ms: string, sep: string)
    requires Digits(h) && Digits(ms)
    ensures var t := h + ":" + m + ":" + s + sep + ms; TrimSpace(t) == t
  {
    var t := h + ":" + m + ":" + s + sep + ms;
    assert t[0] == h[0] && h[0] in h && t[|t| - 1] == ms[|ms| - 1] && ms[|ms| - 1] in ms;
    TrimTrimmed(GoSpace, t);
  }

  lemma NoComma(h: string, m: string, s: string, ms: string)
    requires Digits(h) && Digits(m) && Digits(s) && Digits(ms)
    ensures ',' !in h + ":" + m + ":" + s + "." + ms && ',' !in h + ":" + m + ":" + s && ',' !in ms
    ensures (",")[0] == ','
  {
  }

  // ---------------------------------------------------------------- cutting the file into blocks

  /** Text in which every line break is followed by another character, not a line break. */
  predicate GapFree(s: string) {
    s == "" || ((s[0] == '\n' ==> |s| > 1 && s[1] != '\n') && GapFree(s[1..]))
  }

  lemma {:induction false} GapFreeGlue(a: string, b: string)
    requires '\n' !in a && b != "" && b[0] != '\n' && GapFree(b)
    ensures GapFree(a + "\n" + b)
  {
    var s := a + "\n" + b;
    if a == "" {
      assert s[1..] == b;
    } else {
      assert a[0] in a && s[1..] == a[1..] + "\n" + b;
      GapFreeGlue(a[1..], b);
    }
  }

  lemma {:induction false} GapFreeLine(a: string)
    requires '\n' !in a
    ensures GapFree(a)
  {
    if a != "" {
      assert a[0] in a;
      GapFreeLine(a[1..]);
    }
  }

  lemma {:induction false} GapFreeLines(lines: seq<string>)
    requires lines != [] && Full(lines)
    ensures GapFree(Join(lines, "\n"))
  {
    assert lines[0] in lines;
    if |lines| == 1 {
      GapFreeLine(lines[0]);
    } else {
      assert lines[1] in lines && lines[1][0] in lines[1] && lines[|lines| - 1] in lines;
      assert Full(lines[1..]) by { assert forall line <- lines[1..] :: line in lines; }
      GapFreeLines(lines[1..]);
      JoinEnds(lines[1..], "\n");
      GapFreeGlue(lines[0], Join(lines[1..], "\n"));
    }
  }

  lemma {:induction false} SplitAtGap(a: string, rest: string)
    requires GapFree(a)
    ensures Split(a + "\n\n" + rest, "\n\n") == [a] + Split(rest, "\n\n")
  {
    var s := a + "\n\n" + rest;
    assert ("\n\n")[0] == '\n' && ("\n\n")[1] == '\n';
    if a == "" {
      assert "\n\n" <= s && s[2..] == rest;
    } else {
      assert s[0] == a[0] && (|a| > 1 ==> s[1] == a[1]);
      assert !("\n\n" <= s);
      assert s[1..] == a[1..] + "\n\n" + rest;
      SplitAtGap(a[1..], rest);
      assert Split(s[1..], "\n\n")[0] == a[1..] && Split(s[1..], "\n\n")[1..] == Split(rest, "\n\n");
      assert [a[0]] + a[1..] == a;
    }
  }

  lemma CueGapFree(s: Segment, n: nat)
    requires Playable(s) && NoBlankLine(Normalized(s.text))
    ensures GapFree(Cue(s, n))
  {
    hide GapFree, CueLines;
    CueIsLines(s, n);
    CueFull(s, n);
    assert CueLines(s, n) != [] by { SomeLines(s, n); }
    GapFreeLines(CueLines(s, n));
  }

  lemma SomeLines(s: Segment, n: nat)
    requires Playable(s)
    ensures CueLines(s, n) != []
  {
    hide Decimal, TimingLine, Lines;
  }

  // ---------------------------------------------------------------- the whole file

  predicate AllPlayable(segments: seq<Segment>) {
    forall s <- segments :: Playable(s)
  }

  predicate AllInRange(segments: seq<Segment>) {
    forall s <- segments :: InRange(s)
  }

  predicate NoBlankLines(segments: seq<Segment>) {
    forall s <- segments :: NoBlankLine(Normalized(s.text))
  }

  function AllAsRead(segments: seq<Segment>): seq<Segment>
    requires AllPlayable(segments)
  {
    seq(|segments|, i requires 0 <= i < |segments| => AsRead(segments[i]))
  }

  /** RenderSRT accepts exactly the lists of segments with ordered times from zero on and some text. */
  lemma {:induction false} RenderedIff(segments: seq<Segment>, n: nat)
    ensures SrtText(segments, n).Ok? <==> AllPlayable(segments)
    decreases segments
  {
    hide Cue, Playable;
    if segments != [] {
      ProblemFirst(segments[0], n);
      RenderedIff(segments[1..], n + 1);
      assert segments == [segments[0]] + segments[1..];
      assert AllPlayable(segments) <==> Playable(segments[0]) && AllPlayable(segments[1..]);
    }
  }

  /** What RenderSRT says of a segment that cannot be shown. */
  predicate Refused(s: Segment, n: nat, error: RenderError) {
    if s.start < 0.0 || s.end < 0.0 then error == NegativeTime(n)
    else if s.end < s.start then error == EndBeforeStart(n)
    else Blank(GoSpace, s.text) && error == EmptyText(n)
  }

  lemma ErrorFirst(segments: seq<Segment>, n: nat)
    requires SrtText(segments, n).Err?
    ensures segments != []
    ensures match Problem(segments[0], n)
            case Some(e) => SrtText(segments, n).error == e
            case None => SrtText(segments[1..], n + 1).Err? && SrtText(segments, n).error == SrtText(segments[1..], n + 1).error
  {
    hide Cue, Problem;
  }

  /** An error of RenderSRT names the first segment that cannot be shown, by its number. */
  lemma {:induction false} FirstRefused(segments: seq<Segment>, n: nat) returns (i: nat)
    requires SrtText(segments, n).Err?
    ensures i < |segments| && Refused(segments[i], n + i, SrtText(segments, n).error) && AllPlayable(segments[..i])
    decreases segments
  {
    ErrorFirst(segments, n);
    hide SrtText, Cue, Playable, Refused, Problem, Normalized;
    var s, rest := segments[0], segments[1..];
    ProblemFirst(s, n);
    if Problem(s, n).Some? {
      RefusedFirst(s, n);
      i := 0;
    } else {
      i := FirstRefused(rest, n + 1);
      PlayableMore(s, rest[..i]);
      assert segments[..i + 1] == [s] + rest[..i];
      i := i + 1;
    }
  }

  lemma PlayableMore(s: Segment, rest: seq<Segment>)
    requires Playable(s) && AllPlayable(rest)
    ensures AllPlayable([s] + rest)
  {
    hide Playable;
  }

  lemma RefusedFirst(s: Segment, n: nat)
    requires Problem(s, n).Some?
    ensures Refused(s, n, Problem(s, n).value)
  {
    NormalizedTrimmed(s.text);
  }

  /** The rendered text is one block for each segment, numbered from `n` on: the number, the times, the
      lines of the text. */
  lemma {:induction false} RenderedBlocks(segments: seq<Segment>, n: nat)
    requires AllPlayable(segments) && NoBlankLines(segments) && SrtText(segments, n).Ok?
    ensures var blocks := Split(SrtText(segments, n).value, "\n\n");
            && |blocks| == |segments| + 1 && blocks[|segments|] == ""
            && forall i | 0 <= i < |segments| :: Lines(blocks[i]) == CueLines(segments[i], n + i)
    decreases segments
  {
    hide Cue, Playable, NoBlankLine, GapFree, Normalized, CueLines, Lines;
    if segments == [] {
      assert Split("", "\n\n") == [""];
    } else {
      var s, rest := segments[0], segments[1..];
      assert s in segments;
      ProblemFirst(s, n);
      RenderedIff(rest, n + 1);
      RenderedBlocks(rest, n + 1);
      CueGapFree(s, n);
      SplitAtGap(Cue(s, n), SrtText(rest, n + 1).value);
      BlockLinesOf(s, n);
      var later := Split(SrtText(rest, n + 1).value, "\n\n");
      forall i | 0 <= i < |segments|
        ensures Lines(([Cue(s, n)] + later)[i]) == CueLines(segments[i], n + i)
      {
        if i > 0 { assert segments[i] == rest[i - 1] && n + i == n + 1 + (i - 1); }
      }
    }
  }

  lemma BlockLinesOf(s: Segment, n: nat)
    requires Playable(s) && NoBlankLine(Normalized(s.text))
    ensures Lines(Cue(s, n)) == CueLines(s, n)
  {
    CueIsLines(s, n);
    CueFull(s, n);
    hide Cue, Playable, NoBlankLine, Normalized;
    assert CueLines(s, n) != [] by { SomeLines(s, n); }
    BlockOfLines(CueLines(s, n));
  }

  lemma {:induction false} BlocksRoundTrip(segments: seq<Segment>, n: nat)
    requires AllPlayable(segments) && AllInRange(segments) && NoBlankLines(segments) && SrtText(segments, n).Ok?
    ensures ParsedBlocks(Split(SrtText(segments, n).value, "\n\n")) == Ok(AllAsRead(segments))
    decreases segments
  {
    hide Cue, Playable, InRange, NoBlankLine, ParsedBlock, AsRead, GapFree, Normalized;
    if segments == [] {
      NothingParsed();
      assert |AllAsRead(segments)| == 0;
    } else {
      var s, rest := segments[0], segments[1..];
      assert s in segments;
      ProblemFirst(s, n);
      RenderedIff(rest, n + 1);
      BlocksRoundTrip(rest, n + 1);
      CueRoundTrip(s, n);
      CueGapFree(s, n);
      var later := SrtText(rest, n + 1).value;
      SplitAtGap(Cue(s, n), later);
      assert ([Cue(s, n)] + Split(later, "\n\n"))[1..] == Split(later, "\n\n");
      assert AllAsRead(segments) == [AsRead(s)] + AllAsRead(rest);
    }
  }

  lemma NothingParsed()
    ensures ParsedBlocks(Split("", "\n\n")) == Ok([])
  {
    assert Lines("") == [""] && TrimSpace("") == "";
    assert Kept([""]) == [];
    var blocks := Split("", "\n\n");
    assert blocks == [""] && blocks[1..] == [];
    assert ParsedBlock("") == Ok(None);
    var none: seq<Segment> := [];
    assert none + none == none;
    assert ParsedBlocks(blocks[1..]) == Ok(none);
  }

  lemma {:induction false} RenderedUnix(segments: seq<Segment>, n: nat)
    requires SrtText(segments, n).Ok?
    ensures '\r' !in SrtText(segments, n).value
    decreases segments
  {
    hide Cue, Playable;
    if segments != [] {
      ProblemFirst(segments[0], n);
      RenderedUnix(segments[1..], n + 1);
      CueUnix(segments[0], n);
    }
  }

  lemma CueUnix(s: Segment, n: nat)
    requires Playable(s)
    ensures '\r' !in Cue(s, n)
  {
    hide Decimal, Timestamp, Normalized;
    NormalizedTrimmed(s.text);
    TimestampText(Millis(s.start));
    TimestampText(Millis(s.end));
  }

  lemma AsReadPlayable(s: Segment)
    requires Playable(s)
    ensures Playable(AsRead(s))
  {
    hide Normalized;
    assert Millis(s.start) <= Millis(s.end);
    var text := Normalized(s.text);
    NormalizedTrimmed(s.text);
    NormalizedTrimmed(text);
    assert text[0] in text;
  }

  /** What ParseSRT accepts: no text it returns is blank or has a blank line. */
  lemma {:induction false} ParsedNoBlankLine(blocks: seq<string>)
    requires ParsedBlocks(blocks).Ok?
    ensures forall s <- ParsedBlocks(blocks).value :: s.text != "" && NoBlankLine(s.text)
  {
    hide ParsedBlock, NoBlankLine;
    if blocks != [] {
      ParsedNoBlankLine(blocks[1..]);
      ParsedTextFull(blocks[0]);
    }
  }

  lemma ParsedTextFull(block: string)
    ensures ParsedBlock(block).Ok? && ParsedBlock(block).value.Some? ==>
              var text := ParsedBlock(block).value.value.text; text != "" && NoBlankLine(text)
  {
    hide ParsedTime, Split, Contains;
    var lines := BlockLines(block);
    LinesHaveNoBreak(TrimSpace(block));
    KeptFull(Lines(TrimSpace(block)));
    if ParsedBlock(block).Ok? && ParsedBlock(block).value.Some? {
      var timing := if !Contains(lines[0], "-->") && |lines| >= 3 then 1 else 0;
      TextLinesFull(lines[timing + 1..]);
    }
  }

  lemma TextLinesFull(lines: seq<string>)
    requires Full(lines) && TrimSpace(Join(lines, "\n")) != ""
    ensures NoBlankLine(TrimSpace(Join(lines, "\n")))
  {
    TrimBlank(GoSpace, "");
    BlockOfLines(lines);
    TrimTrimmed(GoSpace, Join(lines, "\n"));
  }

  /** The same segments up to half a millisecond, with their text normalised and without words. */
  ghost predicate CameBack(read: seq<Segment>, segments: seq<Segment>) {
    && |read| == |segments|
    && forall i | 0 <= i < |read| ::
         && -0.0005 <= read[i].start - segments[i].start <= 0.0005
         && -0.0005 <= read[i].end - segments[i].end <= 0.0005
         && read[i].text == Normalized(segments[i].text) && read[i].words == []
  }

  lemma AsReadNear(s: Segment)
    requires Playable(s)
    ensures -0.0005 <= AsRead(s).start - s.start <= 0.0005 && -0.0005 <= AsRead(s).end - s.end <= 0.0005
  {
    MillisNearest(s.start);
    MillisNearest(s.end);
    hide Millis, Normalized;
    HalfMilli(s.start, Millis(s.start));
    HalfMilli(s.end, Millis(s.end));
  }

  lemma HalfMilli(sec: real, n: nat)
    requires n as real - 0.5 <= sec * 1000.0 < n as real + 0.5
    ensures -0.0005 <= n as real / 1000.0 - sec <= 0.0005
  {
  }

  lemma AllCameBack(segments: seq<Segment>)
    requires AllPlayable(segments)
    ensures CameBack(AllAsRead(segments), segments)
  {
    hide Playable, Normalized, Millis;
    forall i | 0 <= i < |segments| ensures Playable(segments[i]) && AllAsRead(segments)[i] == AsRead(segments[i]) {
      assert segments[i] in segments;
    }
    forall i | 0 <= i < |segments| { AsReadNear(segments[i]); }
  }

  /** Rendering and parsing gives the segments back, with every time within half a millisecond and text
      normalised, exactly when there are segments and none of their normalised texts has a blank line. */
  lemma RoundTrip(segments: seq<Segment>)
    requires AllPlayable(segments) && AllInRange(segments)
    ensures SrtText(segments, 1).Ok?
    ensures Parsed(SrtText(segments, 1).value) == Ok(AllAsRead(segments))
            <==> segments != [] && NoBlankLines(segments)
    ensures Parsed(SrtText(segments, 1).value).Ok? && CameBack(Parsed(SrtText(segments, 1).value).value, segments)
            <==> segments != [] && NoBlankLines(segments)
  {
    ReadBack(segments);
    AllCameBack(segments);
    hide SrtText, AllAsRead, Playable, InRange, NoBlankLine, Normalized;
    var r := Parsed(SrtText(segments, 1).value);
    if r.Ok? && CameBack(r.value, segments) {
      ParsedFacts(SrtText(segments, 1).value);
      assert segments != [];
      forall s | s in segments ensures NoBlankLine(Normalized(s.text)) {
        var i :| 0 <= i < |segments| && segments[i] == s;
        assert r.value[i] in r.value;
      }
    }
  }

  lemma ParsedFacts(raw: string)
    requires Parsed(raw).Ok?
    ensures Parsed(raw).value != [] && forall s <- Parsed(raw).value :: NoBlankLine(s.text)
  {
    hide ParsedBlocks, SrtText, NoBlankLine;
    ParsedNoBlankLine(Blocks(raw));
  }

  lemma ReadBack(segments: seq<Segment>)
    requires AllPlayable(segments) && AllInRange(segments)
    ensures SrtText(segments, 1).Ok?
    ensures Parsed(SrtText(segments, 1).value) == Ok(AllAsRead(segments))
            <==> segments != [] && NoBlankLines(segments)
  {
    hide SrtText, ParsedBlocks, Playable, InRange, NoBlankLine, AsRead, Split, Normalized;
    RenderedIff(segments, 1);
    RenderedUnix(segments, 1);
    var raw, read := SrtText(segments, 1).value, AllAsRead(segments);
    ReplaceAbsent(raw, "\r\n", "\n");
    if Parsed(raw) == Ok(read) {
      ParsedNoBlankLine(Blocks(raw));
      forall s | s in segments ensures NoBlankLine(Normalized(s.text)) {
        var i :| 0 <= i < |segments| && segments[i] == s;
        assert read[i] in read;
        AsReadText(s);
      }
    }
    if segments != [] && NoBlankLines(segments) {
      BlocksRoundTrip(segments, 1);
      forall s | s in read ensures Playable(s) {
        var i :| 0 <= i < |read| && read[i] == s;
        AsReadPlayable(segments[i]);
      }
      RenderedIff(read, 1);
    }
  }

  lemma AsReadText(s: Segment)
    requires Playable(s)
    ensures AsRead(s).text == Normalized(s.text)
  {
  }

  // ---------------------------------------------------------------- a text that does not survive

  lemma NormalLetter(text: string)
    requires text in {"a", "b"}
    ensures Normalized(text) == text && Lines(text) == [text] && TrimSpace(text) == text
  {
    assert Text.Trimmed(GoSpace, text);
    ReplaceAbsent(text, "\r\n", "\n");
    ReplaceAbsent(text, "\r", "\n");
    TrimTrimmed(GoSpace, text);
    LinesOfLine(text);
    assert TrimEach([text]) == [text];
  }

  lemma NormalGap()
    ensures Normalized("a\n\nb") == "a\n\nb"
  {
    hide Trim, Lines;
    var text := "a\n\nb";
    assert Text.Trimmed(GoSpace, text) && '\r' !in text;
    ReplaceAbsent(text, "\r\n", "\n");
    ReplaceAbsent(text, "\r", "\n");
    TrimTrimmed(GoSpace, text);
    NormalLetter("a");
    NormalLetter("b");
    LinesCons("", "b");
    LinesCons("a", "\nb");
    assert "a" + "\n" + ("" + "\n" + "b") == text;
    TrimTrimmed(GoSpace, "");
    assert ["a", "", "b"][1..] == ["", "b"] && ["", "b"][1..] == ["b"];
    assert Lines(text) == ["a", "", "b"];
    assert TrimEach(["a", "", "b"]) == ["a", "", "b"];
  }

  /** What is left of a cue after a blank line in its text: a block without a timing line. */
  lemma LostBlocks()
    ensures ParsedBlocks(Split("b\n\n", "\n\n")) == Ok([])
  {
    hide TrimSpace, Lines, Contains;
    NormalLetter("b");
    GapFreeLine("b");
    SplitAtGap("b", "");
    assert "b" + "\n\n" + "" == "b\n\n";
    KeptFull(["b"]);
    assert ParsedBlock("b") == Ok(None);
    NothingParsed();
    assert (["b"] + Split("", "\n\n"))[1..] == Split("", "\n\n");
  }

  lemma PlayableIf(s: Segment)
    requires 0.0 <= s.start <= s.end && Normalized(s.text) != ""
    ensures Playable(s)
  {
  }

  lemma GapInCue(s: Segment, a: Segment)
    requires Playable(s) && Playable(a) && s.start == a.start && s.end == a.end
    requires Normalized(s.text) == Normalized(a.text) + "\n\n" + "b"
    ensures Cue(s, 1) == Cue(a, 1) + "\n\n" + "b"
  {
    hide Decimal, Timestamp, Millis, Normalized;
  }

  lemma OneSecond()
    ensures Millis(0.0) == 0 && Millis(1.0) == 1000
  {
    assert (0.0 * 1000.0 + 0.5).Floor == 0 && (1.0 * 1000.0 + 0.5).Floor == 1000;
  }

  lemma ReadLetter(a: Segment)
    requires a == Segment(0.0, 1.0, "a", []) && Playable(a)
    ensures InRange(a) && NoBlankLine(Normalized(a.text)) && AsRead(a) == a
  {
    NormalLetter("a");
    OneSecond();
    hide Normalized, Lines, Millis, Playable;
    assert forall line <- ["a"] :: line != "";
    assert 1000 as real / 1000.0 == 1.0 && 0 as real / 1000.0 == 0.0;
  }

  lemma GapRendered(s: Segment, a: Segment)
    requires Playable(s) && Playable(a) && s.start == a.start && s.end == a.end
    requires Normalized(s.text) == Normalized(a.text) + "\n\n" + "b"
    ensures SrtText([s], 1) == Ok(Cue(a, 1) + "\n\n" + "b\n\n")
  {
    GapInCue(s, a);
    hide Cue, Playable, Normalized;
    ProblemFirst(s, 1);
    assert [s][1..] == [] && SrtText([], 2) == Ok("");
    assert Cue(s, 1) + "\n\n" + "" == Cue(a, 1) + "\n\n" + "b\n\n";
  }

  lemma OneBlockParsed(block: string, rest: seq<string>, a: Segment)
    requires ParsedBlock(block) == Ok(Some(a)) && ParsedBlocks(rest) == Ok([])
    ensures ParsedBlocks([block] + rest) == Ok([a])
  {
    hide ParsedBlock;
    assert ([block] + rest)[1..] == rest;
    var none: seq<Segment> := [];
    assert ParsedBlocks(rest) == Ok(none) && [a] + none == [a];
  }

  lemma ReadFirstBlock(block: string, rest: string, a: Segment)
    requires ParsedBlock(block) == Ok(Some(a)) && ParsedBlocks(Split(rest, "\n\n")) == Ok([])
    requires Split(block + "\n\n" + rest, "\n\n") == [block] + Split(rest, "\n\n")
    ensures ParsedBlocks(Split(block + "\n\n" + rest, "\n\n")) == Ok([a])
  {
    hide ParsedBlock, Split;
    OneBlockParsed(block, Split(rest, "\n\n"), a);
  }

  lemma GapParsed(a: Segment)
    requires a == Segment(0.0, 1.0, "a", []) && Playable(a)
    ensures ParsedBlocks(Split(Cue(a, 1) + "\n\n" + "b\n\n", "\n\n")) == Ok([a])
  {
    ReadLetter(a);
    hide Cue, Playable, Normalized, ParsedBlock, Split, GapFree, InRange, NoBlankLine, AsRead;
    CueRoundTrip(a, 1);
    CueGapFree(a, 1);
    SplitAtGap(Cue(a, 1), "b\n\n");
    LostBlocks();
    ReadFirstBlock(Cue(a, 1), "b\n\n", a);
  }

  /** RenderSRT accepts the text "a\n\nb"; ParseSRT reads back a segment with the text "a" alone. */
  lemma BlankLineCutsText()
    ensures SrtText([Segment(0.0, 1.0, "a\n\nb", [])], 1).Ok?
    ensures Parsed(SrtText([Segment(0.0, 1.0, "a\n\nb", [])], 1).value) == Ok([Segment(0.0, 1.0, "a", [])])
  {
    hide Normalized, ParsedBlocks, Split, Playable, ReplaceAll, SrtText, Cue;
    var s, a := Segment(0.0, 1.0, "a\n\nb", []), Segment(0.0, 1.0, "a", []);
    NormalGap();
    NormalLetter("a");
    PlayableIf(s);
    PlayableIf(a);
    assert "a" + "\n\n" + "b" == "a\n\nb";
    GapRendered(s, a);
    RenderedUnix([s], 1);
    RenderedIff([a], 1);
    ReplaceAbsent(SrtText([s], 1).value, "\r\n", "\n");
    GapParsed(a);
  }

  // ---------------------------------------------------------------- refined segments

  lemma TidyHasNoBlankLine(text: string)
    requires Tidy(text)
    ensures NoBlankLine(text) && Normalized(text) == text && text != ""
  {
    NormalizedTidy(text);
  }

  /** What RefineSegments returns can be rendered, and read back with every text as it was and every
      time within half a millisecond. */
  lemma RefinedRoundTrip(segments: seq<Segment>, options: Options)
    requires AllInRange(Refined(segments, options))
    ensures var r := Refined(segments, options);
            && AllPlayable(r) && SrtText(r, 1).Ok?
            && (forall i | 0 <= i < |r| :: AllAsRead(r)[i].text == r[i].text)
            && (r != [] ==> Parsed(SrtText(r, 1).value) == Ok(AllAsRead(r)))
            && (r != [] ==> CameBack(Parsed(SrtText(r, 1).value).value, r))
            && (forall s <- r :: Normalized(s.text) == s.text)
  {
    hide SrtText, Parsed, InRange, NoBlankLine, Refined, Tidy, Normalized, CameBack;
    var r := Refined(segments, options);
    RefinedIsPlayable(segments, options);
    forall s | s in r ensures Playable(s) && NoBlankLine(Normalized(s.text)) && Normalized(s.text) == s.text {
      var i :| 0 <= i < |r| && r[i] == s;
      TidyHasNoBlankLine(s.text);
    }
    RoundTrip(r);
  }
}
