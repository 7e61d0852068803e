/** What RefineSegments guarantees about any list of segments: a playable timeline, tidy text, and no
    character of the text lost, added or moved. */
module RefineFacts {
  import opened Text
  import opened Chunking
  import opened Wrapping
  import opened TidyText
  import opened Refine

  function Texts(segments: seq<Segment>): seq<string> {
    seq(|segments|, i requires 0 <= i < |segments| => segments[i].text)
  }

  lemma TextsConcat(a: seq<Segment>, b: seq<Segment>)
    ensures Texts(a + b) == Texts(a) + Texts(b)
  {
  }

  lemma TextsFirst(s: Segment, rest: seq<Segment>)
    ensures SqueezeAll(Texts([s] + rest)) == Squeeze(s.text) + SqueezeAll(Texts(rest))
  {
    assert Texts([s] + rest) == [s.text] + Texts(rest);
    SqueezeFirst(s.text, Texts(rest));
  }

  // ---------------------------------------------------------------- cues made of words

  /** The spoken characters of some words. */
  function Said(words: seq<Word>): string {
    SqueezeAll(SpokenTexts(words))
  }

  lemma {:induction false} SpokenConcat(a: seq<Word>, b: seq<Word>)
    ensures SpokenTexts(a + b) == SpokenTexts(a) + SpokenTexts(b)
  {
    if a == [] { assert a + b == b; } else {
      assert (a + b)[1..] == a[1..] + b;
      SpokenConcat(a[1..], b);
    }
  }

  lemma SaidConcat(a: seq<Word>, b: seq<Word>)
    ensures Said(a + b) == Said(a) + Said(b)
  {
    SpokenConcat(a, b);
    SqueezeAllConcat(SpokenTexts(a), SpokenTexts(b));
  }

  lemma SqueezeCue(words: seq<Word>, maxChars: nat, cjk: bool)
    requires words != [] && maxChars > 0
    ensures Squeeze(CueOf(words, maxChars, cjk).text) == Said(words)
  {
    SqueezeJoin(SpokenTexts(words), if cjk then "" else " ");
    SqueezeWrapped(Sentence(words, cjk), maxChars);
  }

  lemma {:induction false} SqueezeWordCues(current: seq<Word>, words: seq<Word>, maxChars: nat, maxDuration: real, cjk: bool)
    requires maxChars > 0
    ensures SqueezeAll(Texts(WordCues(current, words, maxChars, maxDuration, cjk))) == Said(current) + Said(words)
    decreases words
  {
    hide CueOf, MustFlush, Squeeze, Said;
    SaidNothing();
    if current != [] { SqueezeCue(current, maxChars, cjk); }
    if words == [] {
      if current != [] { TextsFirst(CueOf(current, maxChars, cjk), []); }
      assert SqueezeAll(Texts([])) == "";
    } else {
      var w, rest := words[0], words[1..];
      assert words == [w] + rest;
      SaidConcat([w], rest);
      if MustFlush(current, w, maxChars, maxDuration, cjk) {
        SqueezeWordCues([w], rest, maxChars, maxDuration, cjk);
        if current != [] {
          TextsFirst(CueOf(current, maxChars, cjk), WordCues([w], rest, maxChars, maxDuration, cjk));
        } else {
          FlushNeedsCurrent(w, maxChars, maxDuration, cjk);
        }
      } else {
        SqueezeWordCues(current + [w], rest, maxChars, maxDuration, cjk);
        SaidConcat(current, [w]);
        assert Said(current) + (Said([w]) + Said(rest)) == Said(current) + Said([w]) + Said(rest);
      }
    }
  }

  lemma FlushNeedsCurrent(w: Word, maxChars: nat, maxDuration: real, cjk: bool)
    ensures !MustFlush([], w, maxChars, maxDuration, cjk)
  {
  }

  lemma SaidNothing()
    ensures Said([]) == ""
  {
  }

  predicate Spoken(words: seq<Word>) {
    forall w <- words :: TrimSpace(w.text) != ""
  }

  lemma {:induction false} KeptSpoken(words: seq<Word>, previousEnd: real)
    ensures KeptWords(words, previousEnd).Some? ==> Spoken(KeptWords(words, previousEnd).value)
    decreases words
  {
    if words != [] {
      KeptSpoken(words[1..], previousEnd);
      KeptSpoken(words[1..], words[0].end);
      TrimIsTrimmed(GoSpace, words[0].text);
      TrimTrimmed(GoSpace, TrimSpace(words[0].text));
    }
  }

  lemma SaidNotBlank(words: seq<Word>)
    requires words != [] && Spoken(words)
    ensures Said(words) != ""
  {
    var text := TrimSpace(words[0].text);
    assert words[0] in words;
    TrimIsTrimmed(GoSpace, words[0].text);
    SqueezeBlank(text);
    assert text[0] in text;
    assert SpokenTexts(words)[0] == text;
  }

  predicate AllTidy(segments: seq<Segment>) {
    forall s <- segments :: Tidy(s.text)
  }

  lemma CueTidy(words: seq<Word>, maxChars: nat, cjk: bool)
    requires words != [] && Spoken(words) && maxChars > 0
    ensures Tidy(CueOf(words, maxChars, cjk).text)
  {
    SaidNotBlank(words);
    SqueezeJoin(SpokenTexts(words), if cjk then "" else " ");
    SqueezeBlank(Sentence(words, cjk));
    WrappedTidy(Sentence(words, cjk), maxChars);
  }

  lemma {:induction false} WordCuesTidy(current: seq<Word>, words: seq<Word>, maxChars: nat, maxDuration: real, cjk: bool)
    requires maxChars > 0 && Spoken(current) && Spoken(words)
    ensures AllTidy(WordCues(current, words, maxChars, maxDuration, cjk))
    ensures current != [] || words != [] ==> WordCues(current, words, maxChars, maxDuration, cjk) != []
    decreases words
  {
    hide CueOf, MustFlush, Tidy;
    if current != [] { CueTidy(current, maxChars, cjk); }
    if words != [] {
      assert words[0] in words;
      FlushNeedsCurrent(words[0], maxChars, maxDuration, cjk);
      if MustFlush(current, words[0], maxChars, maxDuration, cjk) {
        WordCuesTidy([words[0]], words[1..], maxChars, maxDuration, cjk);
      } else {
        WordCuesTidy(current + [words[0]], words[1..], maxChars, maxDuration, cjk);
      }
    }
  }

  lemma ByWordsFacts(segment: Segment, o: Options, maxChars: nat)
    requires maxChars > 0
    ensures AllTidy(ByWords(segment, o, maxChars))
    ensures ByWords(segment, o, maxChars) == [] <==> ValidWordsOf(segment.words) == []
    ensures SqueezeAll(Texts(ByWords(segment, o, maxChars))) == Said(ValidWordsOf(segment.words))
  {
    var words := ValidWordsOf(segment.words);
    KeptSpoken(segment.words, -1.0);
    WordCuesTidy([], words, maxChars, o.maxDuration, CjkSpacing(segment, o));
    SqueezeWordCues([], words, maxChars, o.maxDuration, CjkSpacing(segment, o));
    SaidNothing();
  }

  // ---------------------------------------------------------------- cues of even length

  lemma SplitTextsFacts(segment: Segment, o: Options, maxChars: nat)
    requires maxChars > 0 && !Blank(GoSpace, segment.text)
    ensures SplitTexts(segment, o, maxChars) != [] && NoneBlank(SplitTexts(segment, o, maxChars))
    ensures SqueezeAll(SplitTexts(segment, o, maxChars)) == Squeeze(segment.text)
  {
    var text := segment.text;
    CueTextsNotBlank(text, maxChars);
    SqueezeCueTexts(text, maxChars);
    OneLineTrimmed(text);
    ChunksTidy(OneLine(text), maxChars);
    TidyNotBlank(Chunks(OneLine(text), maxChars));
    SqueezeOneLine(text);
    SqueezeChunks(OneLine(text), maxChars);
  }

  lemma {:induction false} EvenPartsText(segment: Segment, texts: seq<string>, step: real, i: nat, maxChars: nat)
    requires maxChars > 0 && i <= |texts| && NoneBlank(texts)
    ensures var parts := EvenParts(segment, texts, step, i, maxChars);
            SqueezeAll(Texts(parts)) == SqueezeAll(texts[i..]) && AllTidy(parts) && |parts| == |texts| - i
    decreases |texts| - i
  {
    hide Tidy, Squeeze, Wrapped;
    if i < |texts| {
      EvenPartsText(segment, texts, step, i + 1, maxChars);
      assert texts[i] in texts;
      WrappedTidy(texts[i], maxChars);
      SqueezeWrapped(texts[i], maxChars);
      TextsFirst(Part(segment, texts[i], step, i, maxChars), EvenParts(segment, texts, step, i + 1, maxChars));
      assert texts[i..] == [texts[i]] + texts[i + 1..];
      SqueezeFirst(texts[i], texts[i + 1..]);
    }
  }

  /** The parts cover the segment without gap or overlap, and last half a second or more if there are
      several. */
  ghost predicate Tiles(parts: seq<Segment>, segment: Segment) {
    && parts != []
    && parts[0].start == segment.start && parts[|parts| - 1].end == segment.end
    && (forall i | 0 <= i < |parts| - 1 :: parts[i].end == parts[i + 1].start)
    && (|parts| > 1 ==> forall p <- parts :: p.end - p.start >= MIN_SPLIT_DURATION)
  }

  lemma {:induction false} EvenPartsAt(segment: Segment, texts: seq<string>, step: real, i: nat, maxChars: nat)
    requires maxChars > 0 && i <= |texts|
    ensures var parts := EvenParts(segment, texts, step, i, maxChars);
            |parts| == |texts| - i
            && forall k | 0 <= k < |parts| :: parts[k] == Part(segment, texts[i + k], step, i + k, maxChars)
    decreases |texts| - i
  {
    hide Part;
    if i < |texts| { EvenPartsAt(segment, texts, step, i + 1, maxChars); }
  }

  lemma StepLasts(segment: Segment, step: real, i: nat)
    ensures Mark(segment, step, i + 1) - Mark(segment, step, i) == step
  {
    assert (i + 1) as real == i as real + 1.0;
    assert step * (i as real + 1.0) == step * i as real + step;
  }

  lemma OuterMarks(segment: Segment, step: real, n: nat)
    requires n > 0 && step == (segment.end - segment.start) / n as real
    ensures Mark(segment, step, 0) == segment.start && Mark(segment, step, n) == segment.end
  {
    assert step * n as real == segment.end - segment.start;
  }

  lemma EvenPartsTile(segment: Segment, texts: seq<string>, step: real, maxChars: nat)
    requires maxChars > 0 && texts != []
    requires step == (segment.end - segment.start) / |texts| as real && step >= MIN_SPLIT_DURATION
    ensures Tiles(EvenParts(segment, texts, step, 0, maxChars), segment)
  {
    hide Wrapped, EvenParts, Mark;
    var parts := EvenParts(segment, texts, step, 0, maxChars);
    EvenPartsAt(segment, texts, step, 0, maxChars);
    OuterMarks(segment, step, |texts|);
    forall p | p in parts ensures p.end - p.start >= MIN_SPLIT_DURATION {
      var k :| 0 <= k < |parts| && parts[k] == p;
      StepLasts(segment, step, k);
    }
  }

  lemma EvenSplitTiles(segment: Segment, o: Options, maxChars: nat)
    requires maxChars > 0 && !Blank(GoSpace, segment.text) && segment.start < segment.end
    ensures Tiles(EvenSplit(segment, o, maxChars), segment)
  {
    hide Wrapped, SplitTexts, EvenParts;
    var texts := SplitTexts(segment, o, maxChars);
    var duration := segment.end - segment.start;
    if |texts| > 1 && duration / |texts| as real >= MIN_SPLIT_DURATION {
      EvenPartsTile(segment, texts, duration / |texts| as real, maxChars);
    }
  }

  lemma {:induction false} TilesTimeline(parts: seq<Segment>, segment: Segment)
    requires Tiles(parts, segment) && segment.start < segment.end
    ensures Timeline(parts, segment.start) && EndOf(parts, segment.start) == segment.end
    decreases parts
  {
    if |parts| == 1 {
      assert parts[1..] == [];
    } else {
      assert parts[0] in parts && parts[1] in parts;
      var rest := segment.(start := parts[0].end);
      assert parts[1..][|parts| - 2] == parts[|parts| - 1] && parts[|parts| - 1] in parts;
      assert rest.start < rest.end by { TilesLater(parts, segment, 1); }
      TilesTimeline(parts[1..], rest);
    }
  }

  /** Every part but the first starts before the segment ends. */
  lemma {:induction false} TilesLater(parts: seq<Segment>, segment: Segment, i: nat)
    requires Tiles(parts, segment) && 0 < i < |parts|
    ensures parts[i].start < segment.end
    decreases |parts| - i
  {
    assert parts[i] in parts;
    if i + 1 < |parts| { TilesLater(parts, segment, i + 1); }
  }

  lemma EvenSplitText(segment: Segment, o: Options, maxChars: nat)
    requires maxChars > 0 && !Blank(GoSpace, segment.text)
    ensures AllTidy(EvenSplit(segment, o, maxChars))
    ensures SqueezeAll(Texts(EvenSplit(segment, o, maxChars))) == Squeeze(segment.text)
  {
    hide Squeeze, Tidy, Wrapped, SplitTexts;
    var texts := SplitTexts(segment, o, maxChars);
    SplitTextsFacts(segment, o, maxChars);
    if |texts| <= 1 || (segment.end - segment.start) / |texts| as real < MIN_SPLIT_DURATION {
      WrappedTidy(segment.text, maxChars);
      SqueezeWrapped(segment.text, maxChars);
      TextsFirst(segment.(text := Wrapped(segment.text, maxChars)), []);
      assert Texts([]) == [];
    } else {
      EvenPartsText(segment, texts, (segment.end - segment.start) / |texts| as real, 0, maxChars);
      assert texts[0..] == texts;
    }
  }

  // ---------------------------------------------------------------- the whole of RefineSegments

  /** The characters a segment contributes: its valid word timestamps if it has any, else its text;
      nothing when its text is blank. */
  function SourceOf(s: Segment): string {
    if Blank(GoSpace, s.text) then ""
    else if ValidWordsOf(s.words) != [] then Said(ValidWordsOf(s.words))
    else Squeeze(s.text)
  }

  function Sources(segments: seq<Segment>): string {
    if segments == [] then "" else SourceOf(segments[0]) + Sources(segments[1..])
  }

  lemma {:induction false} SplitAllText(segments: seq<Segment>, o: Options, maxChars: nat)
    requires maxChars > 0 && NoBlankText(segments)
    ensures AllTidy(SplitAll(segments, o, maxChars))
    ensures SqueezeAll(Texts(SplitAll(segments, o, maxChars))) == Sources(segments)
  {
    hide Squeeze, Tidy, EvenSplit, ByWords, Said, Blank, ValidWordsOf;
    if segments != [] {
      var s, rest := segments[0], segments[1..];
      assert s in segments;
      SplitAllText(rest, o, maxChars);
      ByWordsFacts(s, o, maxChars);
      EvenSplitText(s, o, maxChars);
      TextsConcat(SplitOne(s, o, maxChars), SplitAll(rest, o, maxChars));
      SqueezeAllConcat(Texts(SplitOne(s, o, maxChars)), Texts(SplitAll(rest, o, maxChars)));
    }
  }

  lemma {:induction false} CleanedSources(segments: seq<Segment>)
    ensures Sources(Cleaned(segments)) == Sources(segments)
  {
    hide Said, ValidWordsOf;
    if segments != [] {
      var s, rest := segments[0], segments[1..];
      CleanedSources(rest);
      NormalizedTrimmed(s.text);
      SqueezeNormalized(s.text);
      SqueezeBlank(s.text);
      SqueezeBlank(Normalized(s.text));
      if Normalized(s.text) == "" {
        assert [] + Cleaned(rest) == Cleaned(rest);
      } else {
        assert Cleaned(segments)[1..] == Cleaned(rest);
      }
    }
  }

  lemma {:induction false} SourcesSame(a: seq<Segment>, b: seq<Segment>)
    requires |a| == |b| && forall i | 0 <= i < |a| :: a[i].text == b[i].text && a[i].words == b[i].words
    ensures Sources(a) == Sources(b)
  {
    if a != [] { SourcesSame(a[1..], b[1..]); }
  }

  /** Text is conserved: with white space removed, the texts of the cues are the texts of the segments. */
  lemma RefinedConservesText(segments: seq<Segment>, options: Options)
    ensures SqueezeAll(Texts(Refined(segments, options))) == Sources(segments)
  {
    var cleaned, o := Cleaned(segments), WithDefaults(options);
    var maxChars := LineChars(cleaned, o);
    var repaired := Repaired(cleaned, 0.0, o.minDuration);
    var split := SplitAll(repaired, o, maxChars);
    CleanedNotBlank(segments);
    RepairedTexts(cleaned, 0.0, o.minDuration);
    SplitAllText(repaired, o, maxChars);
    RepairedTexts(split, 0.0, o.minDuration);
    assert Texts(Refined(segments, options)) == Texts(split);
    CleanedSources(segments);
    SourcesSame(repaired, cleaned);
  }

  lemma {:induction false} TimelineOrder(segments: seq<Segment>, from: real, i: nat, j: nat)
    requires Timeline(segments, from) && i < |segments| && j < |segments|
    ensures from <= segments[i].start < segments[i].end
    ensures i < j ==> segments[i].end <= segments[j].start
    decreases segments
  {
    var rest := segments[1..];
    TimelineLater(rest, segments[0].end, segments[0].end);
    if i > 0 { TimelineOrder(rest, segments[0].end, i - 1, if j > 0 then j - 1 else 0); }
    else if j > 0 { TimelineOrder(rest, segments[0].end, j - 1, j - 1); }
  }

  /** The cues can be played: none starts before zero, each lasts, none starts before an earlier one
      has ended, and every text is tidy. */
  lemma RefinedIsPlayable(segments: seq<Segment>, options: Options)
    ensures var r := Refined(segments, options);
            && AllTidy(r)
            && (forall i | 0 <= i < |r| :: 0.0 <= r[i].start < r[i].end)
            && (forall i, j | 0 <= i < j < |r| :: r[i].end <= r[j].start)
  {
    hide Tidy, SplitAll;
    var cleaned, o := Cleaned(segments), WithDefaults(options);
    var maxChars := LineChars(cleaned, o);
    var repaired := Repaired(cleaned, 0.0, o.minDuration);
    var split := SplitAll(repaired, o, maxChars);
    var r := Refined(segments, options);
    CleanedNotBlank(segments);
    RepairedTexts(cleaned, 0.0, o.minDuration);
    SplitAllText(repaired, o, maxChars);
    RepairedTexts(split, 0.0, o.minDuration);
    RepairedTimeline(split, 0.0, o.minDuration);
    forall s | s in r ensures Tidy(s.text) {
      var i :| 0 <= i < |r| && r[i] == s;
      assert split[i] in split;
    }
    forall i | 0 <= i < |r| ensures 0.0 <= r[i].start < r[i].end { TimelineOrder(r, 0.0, i, i); }
    forall i, j | 0 <= i < j < |r| ensures r[i].end <= r[j].start { TimelineOrder(r, 0.0, i, j); }
  }

  predicate NoValidWords(segments: seq<Segment>) {
    forall s <- segments :: ValidWordsOf(s.words) == []
  }

  lemma {:induction false} SplitAllTimeline(segments: seq<Segment>, o: Options, maxChars: nat, from: real)
    requires maxChars > 0 && NoBlankText(segments) && NoValidWords(segments) && Timeline(segments, from)
    ensures Timeline(SplitAll(segments, o, maxChars), from)
    ensures EndOf(SplitAll(segments, o, maxChars), from) == EndOf(segments, from)
    decreases segments
  {
    hide EvenSplit, ByWords, Blank, ValidWordsOf;
    if segments != [] {
      var s, rest := segments[0], segments[1..];
      assert s in segments;
      ByWordsFacts(s, o, maxChars);
      var parts := SplitOne(s, o, maxChars);
      EvenSplitTiles(s, o, maxChars);
      TilesTimeline(parts, s);
      TimelineLater(parts, from, s.start);
      SplitAllTimeline(rest, o, maxChars, s.end);
      TimelineConcat(parts, SplitAll(rest, o, maxChars), from);
    }
  }

  lemma RepairedReady(segments: seq<Segment>, minDuration: real)
    requires NoValidWords(segments) && minDuration > 0.0
    ensures var r := Repaired(Cleaned(segments), 0.0, minDuration);
            NoBlankText(r) && NoValidWords(r) && Timeline(r, 0.0)
  {
    hide Blank, ValidWordsOf, Normalized, Cleaned;
    var cleaned := Cleaned(segments);
    var repaired := Repaired(cleaned, 0.0, minDuration);
    CleanedNotBlank(segments);
    CleanedWords(segments);
    RepairedTexts(cleaned, 0.0, minDuration);
    RepairedTimeline(cleaned, 0.0, minDuration);
    forall s | s in repaired ensures ValidWordsOf(s.words) == [] {
      var i :| 0 <= i < |repaired| && repaired[i] == s;
      assert cleaned[i] in cleaned;
    }
  }

  lemma SplitTiles(segments: seq<Segment>, o: Options, maxChars: nat)
    requires maxChars > 0 && NoBlankText(segments) && NoValidWords(segments) && Timeline(segments, 0.0)
    ensures forall s <- segments :: Tiles(SplitOne(s, o, maxChars), s)
  {
    hide EvenSplit, ByWords, Blank, ValidWordsOf, Tiles;
    forall s | s in segments ensures Tiles(SplitOne(s, o, maxChars), s) {
      var i :| 0 <= i < |segments| && segments[i] == s;
      TimelineOrder(segments, 0.0, i, i);
      ByWordsFacts(s, o, maxChars);
      EvenSplitTiles(s, o, maxChars);
    }
  }

  /** Without word timestamps the second repair has nothing to do: the cues of each repaired segment
      tile it exactly. */
  lemma EvenRefinement(segments: seq<Segment>, options: Options)
    requires NoValidWords(segments)
    ensures var cleaned, o := Cleaned(segments), WithDefaults(options);
            var repaired := Repaired(cleaned, 0.0, o.minDuration);
            && Refined(segments, options) == SplitAll(repaired, o, LineChars(cleaned, o))
            && forall s <- repaired :: Tiles(SplitOne(s, o, LineChars(cleaned, o)), s)
  {
    hide SplitOne, SplitAll, Repaired, Cleaned, LineChars, Tiles;
    var cleaned, o := Cleaned(segments), WithDefaults(options);
    var maxChars := LineChars(cleaned, o);
    var repaired := Repaired(cleaned, 0.0, o.minDuration);
    RepairedReady(segments, o.minDuration);
    SplitAllTimeline(repaired, o, maxChars, 0.0);
    TimelineUnchanged(SplitAll(repaired, o, maxChars), 0.0, o.minDuration);
    SplitTiles(repaired, o, maxChars);
  }

  lemma {:induction false} CleanedWords(segments: seq<Segment>)
    requires NoValidWords(segments)
    ensures NoValidWords(Cleaned(segments))
  {
    hide ValidWordsOf, Normalized;
    if segments != [] {
      CleanedWords(segments[1..]);
      assert segments[0] in segments;
    }
  }

  lemma {:induction false} CleanedEmpty(segments: seq<Segment>)
    ensures Cleaned(segments) == [] <==> forall s <- segments :: Blank(GoSpace, s.text)
  {
    hide Blank, Normalized;
    if segments != [] {
      CleanedEmpty(segments[1..]);
      NormalizedTrimmed(segments[0].text);
      assert segments == [segments[0]] + segments[1..];
    }
  }

  lemma SplitAllSome(segments: seq<Segment>, o: Options, maxChars: nat)
    requires segments != [] && maxChars > 0 && NoBlankText(segments)
    ensures SplitAll(segments, o, maxChars) != []
  {
    hide Wrapped, ByWords, SplitTexts, Blank;
    var s := segments[0];
    assert s in segments;
    SplitTextsFacts(s, o, maxChars);
    var texts := SplitTexts(s, o, maxChars);
    EvenPartsAt(s, texts, (s.end - s.start) / |texts| as real, 0, maxChars);
    assert SplitOne(s, o, maxChars) != [];
  }

  /** No cue comes out exactly when every text that went in is blank. */
  lemma RefinedEmpty(segments: seq<Segment>, options: Options)
    ensures Refined(segments, options) == [] <==> forall s <- segments :: Blank(GoSpace, s.text)
  {
    hide SplitAll, Cleaned, Blank, LineChars;
    var cleaned, o := Cleaned(segments), WithDefaults(options);
    var maxChars := LineChars(cleaned, o);
    var repaired := Repaired(cleaned, 0.0, o.minDuration);
    CleanedEmpty(segments);
    CleanedNotBlank(segments);
    RepairedTexts(cleaned, 0.0, o.minDuration);
    RepairedTexts(SplitAll(repaired, o, maxChars), 0.0, o.minDuration);
    if repaired != [] { SplitAllSome(repaired, o, maxChars); }
    assert repaired == [] ==> SplitAll(repaired, o, maxChars) == [] by { NothingSplit(o, maxChars); }
  }

  lemma NothingSplit(o: Options, maxChars: nat)
    requires maxChars > 0
    ensures SplitAll([], o, maxChars) == []
  {
  }
}
