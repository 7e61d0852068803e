/** SubRip text: RenderSRT (internal/subtitle/srt.go) and ParseSRT
    (internal/runtime/whispercpp/whispercpp.go). */
module Srt {
  import opened Wrappers
  import opened Text
  import opened Numbers
  import opened Wrapping
  import opened Refine

  // ---------------------------------------------------------------- printing

  /** Errors carry the number of the segment, counted from 1. */
  datatype RenderError = NegativeTime(segment: nat) | EndBeforeStart(segment: nat) | EmptyText(segment: nat)

  /** math.Round(sec * 1000) for a time that is not negative. */
  function Millis(sec: real): (n: nat)
    requires sec >= 0.0
  {
    (sec * 1000.0 + 0.5).Floor
  }

  /** Millis is the nearest whole number of milliseconds, the later of two that are as near. */
  lemma MillisNearest(sec: real)
    requires sec >= 0.0
    ensures Millis(sec) as real - 0.5 <= sec * 1000.0 < Millis(sec) as real + 0.5
  {
  }

  /** "%02d:%02d:%02d,%03d" */
  function Timestamp(millis: nat): string {
    Clock(millis / 3600000, millis % 3600000 / 60000, millis % 60000 / 1000) + "," + Padded(millis % 1000, 3)
  }

  function Clock(hours: nat, minutes: nat, seconds: nat): string {
    Padded(hours, 2) + ":" + Padded(minutes, 2) + ":" + Padded(seconds, 2)
  }

  lemma Remainders(n: nat)
    ensures n % 3600000 % 60000 == n % 60000 && n % 3600000 % 60000 % 1000 == n % 1000
  {
    WholeMinutes(n / 3600000 * 60, n % 3600000);
    WholeSeconds(n / 60000 * 60, n % 60000);
  }

  lemma WholeMinutes(k: nat, r: nat)
    ensures (60000 * k + r) % 60000 == r % 60000
  {
    assert 60000 * k + r == 60000 * (k + r / 60000) + r % 60000;
  }

  lemma WholeSeconds(k: nat, r: nat)
    ensures (1000 * k + r) % 1000 == r % 1000
  {
    assert 1000 * k + r == 1000 * (k + r / 1000) + r % 1000;
  }

  /** Digits for hours, minutes, seconds and milliseconds that add up to `n`: at least two for the
      hours, two below sixty for minutes and seconds, three for the milliseconds. */
  ghost predicate ClockDigits(n: nat, h: string, m: string, s: string, ms: string) {
    && Digits(h) && Digits(m) && Digits(s) && Digits(ms)
    && |h| >= 2 && |m| == 2 && |s| == 2 && |ms| == 3
    && DigitsValue(m) < 60 && DigitsValue(s) < 60
    && 3600000 * DigitsValue(h) + 60000 * DigitsValue(m) + 1000 * DigitsValue(s) + DigitsValue(ms) == n
  }

  lemma TwoDigits(n: nat)
    ensures |Padded(n, 2)| >= 2 && (n < 100 ==> |Padded(n, 2)| == 2)
  {
    if 10 <= n < 100 { assert |Decimal(n)| == |Decimal(n / 10)| + 1 == 2; }
  }

  lemma TimestampShape(n: nat)
    ensures exists h, m, s, ms :: ClockDigits(n, h, m, s, ms) && Timestamp(n) == h + ":" + m + ":" + s + "," + ms
  {
    hide Padded, DigitsValue;
    var hours, minutes, seconds := n / 3600000, n % 3600000 / 60000, n % 60000 / 1000;
    PaddedValue(hours, 2);
    PaddedValue(minutes, 2);
    PaddedValue(seconds, 2);
    PaddedValue(n % 1000, 3);
    TwoDigits(hours);
    TwoDigits(minutes);
    TwoDigits(seconds);
    MillisWidth(n % 1000);
    Remainders(n);
    var h, m, s, ms := Padded(hours, 2), Padded(minutes, 2), Padded(seconds, 2), Padded(n % 1000, 3);
    assert ClockDigits(n, h, m, s, ms) && Timestamp(n) == h + ":" + m + ":" + s + "," + ms;
  }

  method FormatTimestamp(sec: real) returns (r: string)
    requires sec >= 0.0
    ensures r == Timestamp(Millis(sec))
    ensures exists n: nat, h, m, s, ms ::
              n as real - 0.5 <= sec * 1000.0 < n as real + 0.5 && ClockDigits(n, h, m, s, ms)
              && r == h + ":" + m + ":" + s + "," + ms
  {
    var totalMillis: nat := Millis(sec);
    var hours := totalMillis / 3600000;
    totalMillis := totalMillis % 3600000;
    var minutes := totalMillis / 60000;
    totalMillis := totalMillis % 60000;
    var seconds := totalMillis / 1000;
    var millis := totalMillis % 1000;
    hide Padded;
    r := Padded(hours, 2) + ":" + Padded(minutes, 2) + ":" + Padded(seconds, 2) + "," + Padded(millis, 3);
    assert r == Clock(hours, minutes, seconds) + "," + Padded(millis, 3);
    Remainders(Millis(sec));
    MillisNearest(sec);
    TimestampShape(Millis(sec));
  }

  function Problem(s: Segment, n: nat): Option<RenderError> {
    if s.start < 0.0 || s.end < 0.0 then Some(NegativeTime(n))
    else if s.end < s.start then Some(EndBeforeStart(n))
    else if Normalized(s.text) == "" then Some(EmptyText(n))
    else None
  }

  predicate Playable(s: Segment) {
    0.0 <= s.start <= s.end && Normalized(s.text) != ""
  }

  function TimingLine(s: Segment): string
    requires Playable(s)
  {
    Timestamp(Millis(s.start)) + " --> " + Timestamp(Millis(s.end))
  }

  function Cue(s: Segment, n: nat): string
    requires Playable(s)
  {
    Decimal(n) + "\n" + TimingLine(s) + "\n" + Normalized(s.text)
  }

  /** The cues of the segments, the first with number `n`. */
  function SrtText(segments: seq<Segment>, n: nat): Result<string, RenderError> {
    if segments == [] then Ok("")
    else match Problem(segments[0], n)
      case Some(e) => Err(e)
      case None => match SrtText(segments[1..], n + 1)
        case Err(e) => Err(e)
        case Ok(rest) => Ok(Cue(segments[0], n) + "\n\n" + rest)
  }

  /** `b` followed by what is still to be rendered. */
  function Appended(b: string, r: Result<string, RenderError>): Result<string, RenderError> {
    if r.Ok? then Ok(b + r.value) else r
  }

  lemma RenderedStep(b: string, segments: seq<Segment>, n: nat)
    requires segments != [] && Playable(segments[0])
    ensures Appended(b, SrtText(segments, n)) == Appended(b + (Cue(segments[0], n) + "\n\n"), SrtText(segments[1..], n + 1))
  {
    hide Cue, Playable;
    ProblemFirst(segments[0], n);
    var cue, r := Cue(segments[0], n) + "\n\n", SrtText(segments[1..], n + 1);
    if r.Ok? { assert b + (cue + r.value) == b + cue + r.value; }
  }

  lemma AppendedNothing(r: Result<string, RenderError>)
    ensures Appended("", r) == r
  {
    if r.Ok? { assert "" + r.value == r.value; }
  }

  method RenderSrt(segments: seq<Segment>) returns (r: Result<string, RenderError>)
    ensures r == SrtText(segments, 1)
  {
    hide Cue, Problem, Millis, Timestamp, Normalized, Decimal;
    if |segments| == 0 {
      return Ok("");
    }
    var b := "";
    assert segments[0..] == segments;
    AppendedNothing(SrtText(segments, 1));
    for i := 0 to |segments|
      invariant SrtText(segments, 1) == Appended(b, SrtText(segments[i..], i + 1))
    {
      assert segments[i..][1..] == segments[i + 1..];
      var s := segments[i];
      ProblemFirst(s, i + 1);
      if s.start < 0.0 || s.end < 0.0 {
        return Err(NegativeTime(i + 1));
      }
      if s.end < s.start {
        return Err(EndBeforeStart(i + 1));
      }
      var text := NormalizeText(s.text);
      if text == "" {
        return Err(EmptyText(i + 1));
      }
      RenderedStep(b, segments[i..], i + 1);
      var start := FormatTimestamp(s.start);
      var end := FormatTimestamp(s.end);
      CueParts(s, i + 1, start, end);
      b := b + (Decimal(i + 1) + "\n" + start + " --> " + end + "\n" + text + "\n\n");
    }
    r := Ok(b);
    assert b + "" == b;
  }

  lemma ProblemFirst(s: Segment, n: nat)
    ensures Problem(s, n) == None <==> Playable(s)
    ensures s.start < 0.0 || s.end < 0.0 ==> Problem(s, n) == Some(NegativeTime(n))
    ensures 0.0 <= s.end < s.start ==> Problem(s, n) == Some(EndBeforeStart(n))
    ensures 0.0 <= s.start <= s.end && Normalized(s.text) == "" ==> Problem(s, n) == Some(EmptyText(n))
  {
  }

  lemma CueParts(s: Segment, n: nat, start: string, end: string)
    requires Playable(s) && start == Timestamp(Millis(s.start)) && end == Timestamp(Millis(s.end))
    ensures Decimal(n) + "\n" + start + " --> " + end + "\n" + Normalized(s.text) == Cue(s, n)
  {
    hide Timestamp, Millis, Decimal, Normalized;
    assert Decimal(n) + "\n" + start + " --> " + end == Decimal(n) + "\n" + TimingLine(s);
  }

  // ---------------------------------------------------------------- parsing

  datatype ParseError =
    | BadTimingLine(line: string)
    | BadTimestamp(value: string)
    | NoSegments
    | InvalidSegments(cause: RenderError)

  function ParsedTime(value: string): Result<real, ParseError> {
    var dotted := TrimSpace(ReplaceAll(TrimSpace(value), ",", "."));
    var parts := Split(dotted, ":");
    if |parts| != 3 then Err(BadTimestamp(dotted)) else
    match (Atoi(parts[0]), Atoi(parts[1]), ParseFloat(parts[2]))
      case (Some(hours), Some(minutes), Some(seconds)) => Ok(Int64(hours * 3600 + minutes * 60) as real + seconds)
      case _ => Err(BadTimestamp(dotted))
  }

  function Kept(lines: seq<string>): seq<string> {
    if lines == [] then []
    else (if TrimSpace(lines[0]) == "" then [] else [TrimSpace(lines[0])]) + Kept(lines[1..])
  }

  function BlockLines(block: string): seq<string> {
    Kept(Lines(TrimSpace(block)))
  }

  lemma KeptFirst(lines: seq<string>)
    requires lines != []
    ensures TrimSpace(lines[0]) == "" ==> Kept(lines) == Kept(lines[1..])
    ensures TrimSpace(lines[0]) != "" ==> Kept(lines) == [TrimSpace(lines[0])] + Kept(lines[1..])
  {
    hide TrimSpace;
    assert [] + Kept(lines[1..]) == Kept(lines[1..]);
  }

  lemma KeptStep(before: seq<string>, lines: seq<string>)
    requires lines != []
    ensures TrimSpace(lines[0]) == "" ==> before + Kept(lines) == before + Kept(lines[1..])
    ensures TrimSpace(lines[0]) != "" ==> before + Kept(lines) == before + [TrimSpace(lines[0])] + Kept(lines[1..])
  {
    hide TrimSpace, Kept;
    KeptFirst(lines);
    var t, rest := TrimSpace(lines[0]), Kept(lines[1..]);
    if t != "" { assert before + ([t] + rest) == before + [t] + rest; }
  }

  method NonEmptyLines(block: string) returns (lines: seq<string>)
    ensures lines == BlockLines(block)
  {
    hide Kept, TrimSpace, Lines;
    var rawLines := Lines(TrimSpace(block));
    lines := [];
    assert rawLines[0..] == rawLines && [] + Kept(rawLines) == Kept(rawLines);
    for i := 0 to |rawLines|
      invariant lines + Kept(rawLines[i..]) == Kept(rawLines)
    {
      assert rawLines[i..][1..] == rawLines[i + 1..];
      KeptStep(lines, rawLines[i..]);
      var line := TrimSpace(rawLines[i]);
      if line != "" {
        lines := lines + [line];
      }
    }
    KeptNothing(lines);
  }

  lemma KeptNothing(before: seq<string>)
    ensures before + Kept([]) == before
  {
  }

  /** The segment one block stands for; none if it has no timing line or no text. */
  function ParsedBlock(block: string): Result<Option<Segment>, ParseError> {
    ParsedLines(BlockLines(block))
  }

  function ParsedLines(lines: seq<string>): Result<Option<Segment>, ParseError> {
    if |lines| < 2 then Ok(None) else
    var timing := if !Contains(lines[0], "-->") && |lines| >= 3 then 1 else 0;
    if !Contains(lines[timing], "-->") then Ok(None) else
    var parts := Split(lines[timing], "-->");
    if |parts| != 2 then Err(BadTimingLine(lines[timing])) else
    match (ParsedTime(parts[0]), ParsedTime(parts[1]))
      case (Err(e), _) => Err(e)
      case (_, Err(e)) => Err(e)
      case (Ok(start), Ok(end)) =>
        var text := TrimSpace(Join(lines[timing + 1..], "\n"));
        if text == "" then Ok(None) else Ok(Some(Segment(start, end, text, [])))
  }

  function ParsedBlocks(blocks: seq<string>): Result<seq<Segment>, ParseError> {
    if blocks == [] then Ok([])
    else match ParsedBlock(blocks[0])
      case Err(e) => Err(e)
      case Ok(first) => match ParsedBlocks(blocks[1..])
        case Err(e) => Err(e)
        case Ok(rest) => Ok((if first == None then [] else [first.value]) + rest)
  }

  function Blocks(raw: string): seq<string> {
    Split(ReplaceAll(raw, "\r\n", "\n"), "\n\n")
  }

  function Parsed(raw: string): Result<seq<Segment>, ParseError> {
    match ParsedBlocks(Blocks(raw))
      case Err(e) => Err(e)
      case Ok(segments) =>
        if segments == [] then Err(NoSegments)
        else if SrtText(segments, 1).Err? then Err(InvalidSegments(SrtText(segments, 1).error))
        else Ok(segments)
  }

  /** `segments` followed by those still to be parsed. */
  function After(segments: seq<Segment>, r: Result<seq<Segment>, ParseError>): Result<seq<Segment>, ParseError> {
    if r.Ok? then Ok(segments + r.value) else r
  }

  lemma ParsedStep(segments: seq<Segment>, blocks: seq<string>)
    requires blocks != [] && ParsedBlock(blocks[0]).Ok?
    ensures var first := ParsedBlock(blocks[0]).value;
            After(segments, ParsedBlocks(blocks))
              == After(if first == None then segments else segments + [first.value], ParsedBlocks(blocks[1..]))
  {
    hide ParsedBlock;
    var first, r := ParsedBlock(blocks[0]).value, ParsedBlocks(blocks[1..]);
    if r.Ok? {
      if first == None { assert [] + r.value == r.value; }
      else { assert segments + ([first.value] + r.value) == segments + [first.value] + r.value; }
    }
  }

  lemma AfterNothing(r: Result<seq<Segment>, ParseError>)
    ensures After([], r) == r
  {
    if r.Ok? { assert [] + r.value == r.value; }
  }

  /** The body of the loop of ParseSRT. */
  method ParseBlock(block: string) returns (r: Result<Option<Segment>, ParseError>)
    ensures r == ParsedBlock(block)
  {
    hide BlockLines, ParsedTime, Split, Contains, Join;
    var lines := NonEmptyLines(block);
    if |lines| < 2 {
      return Ok(None);
    }
    var timingIndex := 0;
    if !Contains(lines[0], "-->") && |lines| >= 3 {
      timingIndex := 1;
    }
    if !Contains(lines[timingIndex], "-->") {
      return Ok(None);
    }
    var parts := Split(lines[timingIndex], "-->");
    if |parts| != 2 {
      return Err(BadTimingLine(lines[timingIndex]));
    }
    var start := ParsedTime(parts[0]);
    if start.Err? {
      return Err(start.error);
    }
    var end := ParsedTime(parts[1]);
    if end.Err? {
      return Err(end.error);
    }
    var text := TrimSpace(Join(lines[timingIndex + 1..], "\n"));
    if text == "" {
      return Ok(None);
    }
    r := Ok(Some(Segment(start.value, end.value, text, [])));
  }

  method ParseSrt(raw: string) returns (r: Result<seq<Segment>, ParseError>)
    ensures r == Parsed(raw)
  {
    hide ParsedBlock, SrtText;
    var blocks := Blocks(raw);
    var segments := [];
    assert blocks[0..] == blocks;
    AfterNothing(ParsedBlocks(blocks));
    for i := 0 to |blocks|
      invariant ParsedBlocks(blocks) == After(segments, ParsedBlocks(blocks[i..]))
    {
      assert blocks[i..][1..] == blocks[i + 1..];
      var segment := ParseBlock(blocks[i]);
      if segment.Err? {
        return Err(segment.error);
      }
      ParsedStep(segments, blocks[i..]);
      if segment.value.Some? {
        segments := segments + [segment.value.value];
      }
    }
    assert segments + [] == segments;
    if |segments| == 0 {
      return Err(NoSegments);
    }
    var rendered := RenderSrt(segments);
    if rendered.Err? {
      return Err(InvalidSegments(rendered.error));
    }
    r := Ok(segments);
  }
}
