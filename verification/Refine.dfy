/** RefineSegments (internal/subtitle/refine.go): repair of cue times, splitting of long cues by word
    timestamps or evenly by time, and wrapping.  Seconds are real numbers. */
module Refine {
  import opened Extrema
  import opened Wrappers
  import opened Text
  import opened Chunking
  import opened Wrapping
  import opened TidyText

  datatype Word = Word(start: real, end: real, text: string)

  datatype Segment = Segment(start: real, end: real, text: string, words: seq<Word>)

  datatype Options = Options(lang: string, maxChars: int, minDuration: real, maxDuration: real)

  const CJK_LINE_CHARS := 22
  const EN_LINE_CHARS := 42
  const MIN_SPLIT_DURATION := 0.5

  // ---------------------------------------------------------------- options

  function WithDefaults(o: Options): Options {
    Options(if o.lang == "" then "auto" else o.lang, o.maxChars,
            if o.minDuration <= 0.0 then 1.0 else o.minDuration,
            if o.maxDuration <= 0.0 then 6.0 else o.maxDuration)
  }

  predicate CjkLanguage(lang: string) {
    ToLower(lang) in {"zh", "ja", "ko"}
  }

  predicate CjkChar(c: char) {
    var n := c as int;
    0x4e00 <= n <= 0x9fff || 0x3040 <= n <= 0x30ff || 0xac00 <= n <= 0xd7af
  }

  predicate ContainsCjk(segments: seq<Segment>) {
    exists s <- segments :: exists c <- s.text :: CjkChar(c)
  }

  function LineChars(segments: seq<Segment>, o: Options): (n: nat)
    ensures n > 0
  {
    if o.maxChars > 0 then o.maxChars
    else if CjkLanguage(o.lang) || (ToLower(o.lang) == "auto" && ContainsCjk(segments)) then CJK_LINE_CHARS
    else EN_LINE_CHARS
  }

  predicate CjkSpacing(segment: Segment, o: Options) {
    CjkLanguage(o.lang) || (ToLower(o.lang) == "auto" && ContainsCjk([segment]))
  }

  // ---------------------------------------------------------------- blank segments

  function Cleaned(segments: seq<Segment>): seq<Segment> {
    if segments == [] then [] else
    var s := segments[0];
    (if Normalized(s.text) == "" then []
     else [s.(start := Max(0.0, s.start), end := Max(0.0, s.end), text := Normalized(s.text))])
    + Cleaned(segments[1..])
  }

  method DropBlankSegments(segments: seq<Segment>) returns (cleaned: seq<Segment>)
    ensures cleaned == Cleaned(segments)
  {
    cleaned := [];
    assert segments[0..] == segments;
    for i := 0 to |segments|
      invariant cleaned + Cleaned(segments[i..]) == Cleaned(segments)
    {
      assert segments[i..][1..] == segments[i + 1..];
      var text := NormalizeText(segments[i].text);
      if text == "" {
        assert [] + Cleaned(segments[i + 1..]) == Cleaned(segments[i + 1..]);
        continue;
      }
      cleaned := cleaned + [segments[i].(start := Max(0.0, segments[i].start), end := Max(0.0, segments[i].end), text := text)];
    }
    assert cleaned + [] == cleaned;
  }

  // ---------------------------------------------------------------- the timeline

  function RepairOne(s: Segment, previousEnd: real, minDuration: real): Segment {
    var start0 := Max(0.0, s.start);
    var end0 := Max(start0, s.end);
    var start := if start0 < previousEnd then previousEnd else start0;
    s.(start := start, end := if end0 <= start then start + minDuration else end0)
  }

  function Repaired(segments: seq<Segment>, previousEnd: real, minDuration: real): seq<Segment>
    decreases segments
  {
    if segments == [] then [] else
    var s := RepairOne(segments[0], previousEnd, minDuration);
    [s] + Repaired(segments[1..], s.end, minDuration)
  }

  lemma RepairedStep(before: seq<Segment>, segments: seq<Segment>, previousEnd: real, minDuration: real)
    requires segments != []
    ensures var s := RepairOne(segments[0], previousEnd, minDuration);
            before + Repaired(segments, previousEnd, minDuration) == before + [s] + Repaired(segments[1..], s.end, minDuration)
  {
    hide RepairOne;
  }

  lemma RepairedNothing(before: seq<Segment>, previousEnd: real, minDuration: real)
    ensures before + Repaired([], previousEnd, minDuration) == before
  {
  }

  method RepairTimeline(segments: seq<Segment>, o: Options) returns (repaired: seq<Segment>)
    ensures repaired == Repaired(segments, 0.0, o.minDuration)
  {
    hide Repaired;
    repaired := [];
    var previousEnd := 0.0;
    assert segments[0..] == segments && [] + Repaired(segments, 0.0, o.minDuration) == Repaired(segments, 0.0, o.minDuration);
    for i := 0 to |segments|
      invariant repaired + Repaired(segments[i..], previousEnd, o.minDuration) == Repaired(segments, 0.0, o.minDuration)
    {
      assert segments[i..][1..] == segments[i + 1..];
      RepairedStep(repaired, segments[i..], previousEnd, o.minDuration);
      var start := Max(0.0, segments[i].start);
      var end := Max(start, segments[i].end);
      if start < previousEnd {
        start := previousEnd;
      }
      if end <= start {
        end := start + o.minDuration;
      }
      var segment := segments[i].(start := start, end := end);
      assert segment == RepairOne(segments[i], previousEnd, o.minDuration);
      repaired := repaired + [segment];
      previousEnd := end;
    }
    RepairedNothing(repaired, previousEnd, o.minDuration);
  }

  /** Cues in order from `from` on: each lasts, and none starts before the one ahead of it has ended. */
  predicate Timeline(segments: seq<Segment>, from: real)
    decreases segments
  {
    segments == [] || (from <= segments[0].start < segments[0].end && Timeline(segments[1..], segments[0].end))
  }

  lemma {:induction false} RepairedTimeline(segments: seq<Segment>, from: real, minDuration: real)
    requires minDuration > 0.0
    ensures Timeline(Repaired(segments, from, minDuration), from)
    ensures |Repaired(segments, from, minDuration)| == |segments|
    decreases segments
  {
    if segments != [] {
      var s := RepairOne(segments[0], from, minDuration);
      RepairedTimeline(segments[1..], s.end, minDuration);
      assert Repaired(segments, from, minDuration)[1..] == Repaired(segments[1..], s.end, minDuration);
    }
  }

  lemma {:induction false} TimelineUnchanged(segments: seq<Segment>, from: real, minDuration: real)
    requires Timeline(segments, from) && 0.0 <= from
    ensures Repaired(segments, from, minDuration) == segments
    decreases segments
  {
    if segments != [] { TimelineUnchanged(segments[1..], segments[0].end, minDuration); }
  }

  /** Repairing a repaired timeline changes nothing. */
  lemma RepairIdempotent(segments: seq<Segment>, minDuration: real)
    requires minDuration > 0.0
    ensures Repaired(Repaired(segments, 0.0, minDuration), 0.0, minDuration) == Repaired(segments, 0.0, minDuration)
  {
    RepairedTimeline(segments, 0.0, minDuration);
    TimelineUnchanged(Repaired(segments, 0.0, minDuration), 0.0, minDuration);
  }

  function EndOf(segments: seq<Segment>, from: real): real {
    if segments == [] then from else segments[|segments| - 1].end
  }

  lemma {:induction false} TimelineConcat(a: seq<Segment>, b: seq<Segment>, from: real)
    requires Timeline(a, from) && Timeline(b, EndOf(a, from))
    ensures Timeline(a + b, from)
    decreases a
  {
    if a == [] { assert a + b == b; } else {
      assert (a + b)[1..] == a[1..] + b;
      TimelineConcat(a[1..], b, a[0].end);
    }
  }

  lemma {:induction false} TimelineLater(a: seq<Segment>, from: real, later: real)
    requires Timeline(a, later) && from <= later
    ensures Timeline(a, from) && later <= EndOf(a, later)
    decreases a
  {
    if a != [] { TimelineLater(a[1..], a[0].end, a[0].end); }
  }

  // ---------------------------------------------------------------- word timestamps

  /** The words kept, trimmed; none when their times are out of order. */
  function KeptWords(words: seq<Word>, previousEnd: real): Option<seq<Word>>
    decreases words
  {
    if words == [] then Some([]) else
    var text := TrimSpace(words[0].text);
    if text == "" then KeptWords(words[1..], previousEnd)
    else if words[0].start < 0.0 || words[0].end < words[0].start
            || (previousEnd >= 0.0 && words[0].start < previousEnd - 0.001) then None
    else match KeptWords(words[1..], words[0].end)
      case None => None
      case Some(rest) => Some([words[0].(text := text)] + rest)
  }

  function ValidWordsOf(words: seq<Word>): seq<Word> {
    match KeptWords(words, -1.0)
    case None => []
    case Some(valid) => valid
  }

  method ValidWords(segment: Segment) returns (valid: seq<Word>)
    ensures valid == ValidWordsOf(segment.words)
  {
    if |segment.words| == 0 {
      return [];
    }
    valid := [];
    var previousEnd := -1.0;
    var words := segment.words;
    assert words[0..] == words;
    assert KeptWords(words, -1.0).Some? ==> [] + KeptWords(words, -1.0).value == KeptWords(words, -1.0).value;
    for i := 0 to |words|
      invariant var rest := KeptWords(words[i..], previousEnd);
                KeptWords(words, -1.0) == if rest.Some? then Some(valid + rest.value) else None
    {
      assert words[i..][1..] == words[i + 1..];
      ghost var before := valid;
      var word := words[i].(text := TrimSpace(words[i].text));
      if word.text == "" {
        continue;
      }
      if word.start < 0.0 || word.end < word.start || (previousEnd >= 0.0 && word.start < previousEnd - 0.001) {
        return [];
      }
      valid := valid + [word];
      previousEnd := word.end;
      assert forall rest: seq<Word> :: before + ([word] + rest) == valid + rest;
    }
    assert words[|words|..] == [] && valid + [] == valid;
  }

  /** The words joinWordTexts joins: those that are not blank. */
  function SpokenTexts(words: seq<Word>): seq<string> {
    if words == [] then [] else
    var text := TrimSpace(words[0].text);
    (if text != "" then [text] else []) + SpokenTexts(words[1..])
  }

  function Sentence(words: seq<Word>, cjk: bool): string {
    Join(SpokenTexts(words), if cjk then "" else " ")
  }

  method JoinWordTexts(words: seq<Word>, cjk: bool) returns (text: string)
    ensures text == Sentence(words, cjk)
  {
    var parts := [];
    assert words[0..] == words;
    for i := 0 to |words|
      invariant parts + SpokenTexts(words[i..]) == SpokenTexts(words)
    {
      assert words[i..][1..] == words[i + 1..];
      var word := TrimSpace(words[i].text);
      if word != "" {
        parts := parts + [word];
      } else {
        assert [] + SpokenTexts(words[i + 1..]) == SpokenTexts(words[i + 1..]);
      }
    }
    assert parts + [] == parts;
    if cjk {
      return Join(parts, "");
    }
    text := Join(parts, " ");
  }

  function CueOf(words: seq<Word>, maxChars: nat, cjk: bool): Segment
    requires words != [] && maxChars > 0
  {
    Segment(words[0].start, words[|words| - 1].end, Wrapped(Sentence(words, cjk), maxChars), words)
  }

  predicate MustFlush(current: seq<Word>, word: Word, maxChars: nat, maxDuration: real, cjk: bool) {
    var candidate := current + [word];
    current != [] && (PlainLen(Sentence(candidate, cjk)) > maxChars * 2 || word.end - candidate[0].start > maxDuration)
  }

  /** The cues made of the words still to come, given those of the current cue. */
  function WordCues(current: seq<Word>, words: seq<Word>, maxChars: nat, maxDuration: real, cjk: bool): seq<Segment>
    requires maxChars > 0
    decreases words
  {
    if words == [] then (if current != [] then [CueOf(current, maxChars, cjk)] else [])
    else if MustFlush(current, words[0], maxChars, maxDuration, cjk) then
      [CueOf(current, maxChars, cjk)] + WordCues([words[0]], words[1..], maxChars, maxDuration, cjk)
    else WordCues(current + [words[0]], words[1..], maxChars, maxDuration, cjk)
  }

  function ByWords(segment: Segment, o: Options, maxChars: nat): seq<Segment>
    requires maxChars > 0
  {
    WordCues([], ValidWordsOf(segment.words), maxChars, o.maxDuration, CjkSpacing(segment, o))
  }

  method SegmentFromWords(words: seq<Word>, maxChars: nat, cjk: bool) returns (cue: Segment)
    requires words != [] && maxChars > 0
    ensures cue == CueOf(words, maxChars, cjk)
  {
    var text := JoinWordTexts(words, cjk);
    var wrapped := WrapSubtitleText(text, maxChars);
    cue := Segment(words[0].start, words[|words| - 1].end, wrapped, words);
  }

  method SplitSegmentByWords(segment: Segment, o: Options, maxChars: nat) returns (chunks: seq<Segment>, ok: bool)
    requires maxChars > 0
    ensures chunks == ByWords(segment, o, maxChars) && (ok <==> chunks != [])
  {
    hide Wrapped, PlainLen, Sentence, CueOf, CjkSpacing, KeptWords;
    var words := ValidWords(segment);
    chunks := [];
    if |words| == 0 {
      return [], false;
    }
    var cjk := CjkSpacing(segment, o);
    var current := [];
    assert words[0..] == words;
    for i := 0 to |words|
      invariant chunks + WordCues(current, words[i..], maxChars, o.maxDuration, cjk) == ByWords(segment, o, maxChars)
    {
      assert words[i..][1..] == words[i + 1..];
      var candidate := current + [words[i]];
      assert candidate[|candidate| - 1] == words[i] && [] + [words[i]] == [words[i]];
      var text := JoinWordTexts(candidate, cjk);
      var duration := candidate[|candidate| - 1].end - candidate[0].start;
      assert MustFlush(current, words[i], maxChars, o.maxDuration, cjk)
        <==> |current| > 0 && (PlainLen(text) > maxChars * 2 || duration > o.maxDuration);
      if |current| > 0 && (PlainLen(text) > maxChars * 2 || duration > o.maxDuration) {
        var cue := SegmentFromWords(current, maxChars, cjk);
        chunks := chunks + [cue];
        current := [];
      }
      current := current + [words[i]];
    }
    if |current| > 0 {
      var cue := SegmentFromWords(current, maxChars, cjk);
      chunks := chunks + [cue];
    }
    ok := |chunks| > 0;
  }

  // ---------------------------------------------------------------- the even split

  /** The texts a segment without word timestamps is split into. */
  function SplitTexts(segment: Segment, o: Options, maxChars: nat): seq<string>
    requires maxChars > 0
  {
    var chunks := CueTexts(segment.text, maxChars);
    var duration := segment.end - segment.start;
    if duration > o.maxDuration && (|chunks| == 1 || (chunks != [] && duration / |chunks| as real > o.maxDuration))
    then Chunks(OneLine(segment.text), maxChars) else chunks
  }

  /** The time `i` steps after the start of the segment. */
  function Mark(segment: Segment, step: real, i: nat): real {
    segment.start + step * i as real
  }

  function Part(segment: Segment, text: string, step: real, i: nat, maxChars: nat): Segment
    requires maxChars > 0
  {
    segment.(start := Mark(segment, step, i), end := Mark(segment, step, i + 1), text := Wrapped(text, maxChars))
  }

  /** The parts from number `i` on. */
  function EvenParts(segment: Segment, texts: seq<string>, step: real, i: nat, maxChars: nat): seq<Segment>
    requires maxChars > 0 && i <= |texts|
    decreases |texts| - i
  {
    if i == |texts| then [] else [Part(segment, texts[i], step, i, maxChars)] + EvenParts(segment, texts, step, i + 1, maxChars)
  }

  function EvenSplit(segment: Segment, o: Options, maxChars: nat): seq<Segment>
    requires maxChars > 0
  {
    var texts := SplitTexts(segment, o, maxChars);
    var duration := segment.end - segment.start;
    if |texts| <= 1 || duration / |texts| as real < MIN_SPLIT_DURATION then
      [segment.(text := Wrapped(segment.text, maxChars))]
    else EvenParts(segment, texts, duration / |texts| as real, 0, maxChars)
  }

  function SplitOne(segment: Segment, o: Options, maxChars: nat): seq<Segment>
    requires maxChars > 0
  {
    if ByWords(segment, o, maxChars) != [] then ByWords(segment, o, maxChars) else EvenSplit(segment, o, maxChars)
  }

  function SplitAll(segments: seq<Segment>, o: Options, maxChars: nat): seq<Segment>
    requires maxChars > 0
  {
    if segments == [] then [] else SplitOne(segments[0], o, maxChars) + SplitAll(segments[1..], o, maxChars)
  }

  /** Segments that dropBlankSegments let through. */
  predicate NoBlankText(segments: seq<Segment>) {
    forall s <- segments :: !Blank(GoSpace, s.text)
  }

  method SplitLongSegments(segments: seq<Segment>, o: Options, maxChars: nat) returns (split: seq<Segment>)
    requires maxChars > 0 && NoBlankText(segments)
    ensures split == SplitAll(segments, o, maxChars)
  {
    hide Wrapped, CueTexts, Chunks, ByWords, OneLine;
    split := [];
    assert segments[0..] == segments;
    for i := 0 to |segments|
      invariant split + SplitAll(segments[i..], o, maxChars) == SplitAll(segments, o, maxChars)
    {
      assert segments[i..][1..] == segments[i + 1..];
      var parts := SplitSegment(segments[i], o, maxChars);
      split := split + parts;
    }
    assert split + [] == split;
  }

  /** The body of the loop of splitLongSegments. */
  method SplitSegment(segment: Segment, o: Options, maxChars: nat) returns (split: seq<Segment>)
    requires maxChars > 0 && !Blank(GoSpace, segment.text)
    ensures split == SplitOne(segment, o, maxChars)
  {
    hide Wrapped, CueTexts, Chunks, ByWords, OneLine;
    var byWords, ok := SplitSegmentByWords(segment, o, maxChars);
    if ok {
      return byWords;
    }
    var chunks := TextChunks(segment.text, maxChars);
    CueTextsNotBlank(segment.text, maxChars);
    var duration := segment.end - segment.start;
    if duration > o.maxDuration && (|chunks| == 1 || duration / |chunks| as real > o.maxDuration) {
      var plain := NormalizeText(segment.text);
      assert OneLine(segment.text) == ReplaceAll(plain, "\n", " ") by { OneLineIs(segment.text); }
      chunks := SplitChunk(ReplaceAll(plain, "\n", " "), maxChars);
    }
    assert chunks == SplitTexts(segment, o, maxChars);
    if |chunks| <= 1 || duration / |chunks| as real < MIN_SPLIT_DURATION {
      var text := WrapSubtitleText(segment.text, maxChars);
      return [segment.(text := text)];
    }
    split := SplitEvenly(segment, chunks, duration / |chunks| as real, maxChars);
  }

  method SplitEvenly(segment: Segment, chunks: seq<string>, step: real, maxChars: nat) returns (split: seq<Segment>)
    requires maxChars > 0
    ensures split == EvenParts(segment, chunks, step, 0, maxChars)
  {
    hide Wrapped;
    split := [];
    for i := 0 to |chunks|
      invariant split + EvenParts(segment, chunks, step, i, maxChars) == EvenParts(segment, chunks, step, 0, maxChars)
    {
      var text := WrapSubtitleText(chunks[i], maxChars);
      var part := segment.(start := segment.start + step * i as real,
                           end := segment.start + step * (i + 1) as real, text := text);
      assert part == Part(segment, chunks[i], step, i, maxChars);
      assert split + ([part] + EvenParts(segment, chunks, step, i + 1, maxChars))
          == split + [part] + EvenParts(segment, chunks, step, i + 1, maxChars);
      split := split + [part];
    }
    assert split + [] == split;
  }

  lemma OneLineIs(text: string)
    ensures OneLine(text) == ReplaceAll(Normalized(text), "\n", " ")
  {
  }

  function Refined(segments: seq<Segment>, options: Options): seq<Segment> {
    var cleaned := Cleaned(segments);
    var o := WithDefaults(options);
    var maxChars := LineChars(cleaned, o);
    Repaired(SplitAll(Repaired(cleaned, 0.0, o.minDuration), o, maxChars), 0.0, o.minDuration)
  }

  method RefineSegments(segments: seq<Segment>, options: Options) returns (refined: seq<Segment>)
    ensures refined == Refined(segments, options)
  {
    var cleaned := DropBlankSegments(segments);
    if |cleaned| == 0 {
      return [];
    }
    var o := WithDefaults(options);
    var maxChars := LineChars(cleaned, o);
    var repaired := RepairTimeline(cleaned, o);
    CleanedNotBlank(segments);
    RepairedTexts(cleaned, 0.0, o.minDuration);
    var split := SplitLongSegments(repaired, o, maxChars);
    refined := RepairTimeline(split, o);
  }

  // ---------------------------------------------------------------- no text is blank

  lemma {:induction false} CleanedNotBlank(segments: seq<Segment>)
    ensures NoBlankText(Cleaned(segments))
  {
    if segments != [] {
      CleanedNotBlank(segments[1..]);
      NormalizedTrimmed(segments[0].text);
      SqueezeNormalized(segments[0].text);
      SqueezeBlank(Normalized(segments[0].text));
      SqueezeBlank(segments[0].text);
    }
  }

  /** Repairing touches nothing but times. */
  lemma {:induction false} RepairedTexts(segments: seq<Segment>, from: real, minDuration: real)
    ensures var r := Repaired(segments, from, minDuration);
            |r| == |segments| && forall i | 0 <= i < |r| :: r[i].text == segments[i].text && r[i].words == segments[i].words
    ensures NoBlankText(segments) ==> NoBlankText(Repaired(segments, from, minDuration))
    decreases segments
  {
    if segments != [] {
      RepairedTexts(segments[1..], RepairOne(segments[0], from, minDuration).end, minDuration);
    }
  }

  predicate NoneBlank(texts: seq<string>) {
    forall t <- texts :: !Blank(GoSpace, t)
  }

  lemma TidyNotBlank(texts: seq<string>)
    requires TidyLines(texts)
    ensures NoneBlank(texts)
  {
    forall t | t in texts ensures !Blank(GoSpace, t) { assert t[0] in t; }
  }

  lemma StackNotBlank(current: string, part: string)
    requires !Blank(GoSpace, part)
    ensures !Blank(GoSpace, Stack(current, part))
  {
    var c :| c in part && !GoSpace(c);
    assert c in Stack(current, part);
  }

  lemma {:induction false} GroupNotBlank(current: string, parts: seq<string>, maxChars: nat)
    requires NoneBlank(parts) && (current != "" ==> !Blank(GoSpace, current))
    ensures NoneBlank(Group(current, parts, maxChars))
    decreases parts
  {
    hide PlainLen, Blank;
    if parts != [] {
      assert parts[0] in parts;
      StackNotBlank(current, parts[0]);
      if PlainLen(Stack(current, parts[0])) > maxChars * 2 && current != "" {
        GroupNotBlank(parts[0], parts[1..], maxChars);
      } else {
        GroupNotBlank(Stack(current, parts[0]), parts[1..], maxChars);
      }
    }
  }

  lemma {:induction false} PartsNotBlank(paragraphs: seq<string>, maxChars: nat)
    requires maxChars > 0 && forall p <- paragraphs :: Text.Trimmed(GoSpace, p)
    ensures NoneBlank(PartsOf(paragraphs, maxChars))
  {
    hide Chunks;
    if paragraphs != [] {
      PartsNotBlank(paragraphs[1..], maxChars);
      assert paragraphs[0] in paragraphs;
      ChunksTidy(paragraphs[0], maxChars);
      TidyNotBlank(Chunks(paragraphs[0], maxChars));
    }
  }

  lemma NormalizedLines(text: string)
    ensures forall line <- Lines(Normalized(text)) :: Text.Trimmed(GoSpace, line)
  {
    var s := TrimSpace(UnixBreaks(text));
    var lines := TrimEach(Lines(s));
    LinesHaveNoBreak(s);
    forall line | line in lines ensures '\n' !in line && Text.Trimmed(GoSpace, line) {
      var i :| 0 <= i < |lines| && lines[i] == line;
      assert Lines(s)[i] in Lines(s);
      var a, b := TrimSplit(GoSpace, Lines(s)[i]);
    }
    LinesOfJoin(lines);
  }

  lemma CueTextsNotBlank(text: string, maxChars: nat)
    requires maxChars > 0 && !Blank(GoSpace, text)
    ensures CueTexts(text, maxChars) != [] && NoneBlank(CueTexts(text, maxChars))
  {
    var normalized := Normalized(text);
    SqueezeCueTexts(text, maxChars);
    SqueezeBlank(text);
    SqueezeNormalized(text);
    SqueezeBlank(normalized);
    NormalizedLines(text);
    PartsNotBlank(Lines(normalized), maxChars);
    GroupNotBlank("", PartsOf(Lines(normalized), maxChars), maxChars);
  }
}
