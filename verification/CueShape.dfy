/** The cues RefineSegments makes (internal/subtitle/refine.go): which words and characters each holds
    and how they are spaced, how long and how wide it may be, and what becomes of its times. */
module CueShape {
  import opened Wrappers
  import opened Text
  import opened Chunking
  import opened Wrapping
  import opened TidyText
  import opened LineWidths
  import opened Refine
  import opened RefineFacts

  // ---------------------------------------------------------------- valid words

  /** The words that are not blank, trimmed. */
  function SpokenWords(words: seq<Word>): seq<Word> {
    if words == [] then []
    else (if TrimSpace(words[0].text) == "" then [] else [words[0].(text := TrimSpace(words[0].text))]) + SpokenWords(words[1..])
  }

  /** No word ends before it starts, and none starts more than a millisecond before the last one has ended. */
  predicate InOrder(words: seq<Word>) {
    && (forall w <- words :: 0.0 <= w.start <= w.end)
    && (forall i | 0 < i < |words| :: words[i].start >= words[i - 1].end - 0.001)
  }

  lemma InOrderCons(w: Word, rest: seq<Word>)
    ensures InOrder([w] + rest) <==> 0.0 <= w.start <= w.end && InOrder(rest) && (rest != [] ==> rest[0].start >= w.end - 0.001)
  {
    var words := [w] + rest;
    if InOrder(words) { InOrderRest(words); }
    if 0.0 <= w.start <= w.end && InOrder(rest) && (rest != [] ==> rest[0].start >= w.end - 0.001) {
      forall i | 0 < i < |words| ensures words[i].start >= words[i - 1].end - 0.001 {
        assert words[i] == rest[i - 1];
        if i > 1 { assert words[i - 1] == rest[i - 2]; }
      }
    }
  }

  lemma InOrderRest(words: seq<Word>)
    requires words != [] && InOrder(words)
    ensures InOrder(words[1..]) && 0.0 <= words[0].start <= words[0].end
    ensures |words| > 1 ==> words[1].start >= words[0].end - 0.001
  {
    var rest := words[1..];
    assert words[0] in words;
    forall i | 0 < i < |rest| ensures rest[i].start >= rest[i - 1].end - 0.001 {
      assert rest[i] == words[i + 1] && rest[i - 1] == words[i];
    }
  }

  lemma {:induction false} KeptWordsAre(words: seq<Word>, previousEnd: real)
    ensures var spoken := SpokenWords(words);
            KeptWords(words, previousEnd)
            == if InOrder(spoken) && (spoken != [] && previousEnd >= 0.0 ==> spoken[0].start >= previousEnd - 0.001)
               then Some(spoken) else None
    decreases words
  {
    hide InOrder, TrimSpace;
    if words == [] {
      assert InOrder([]) by { NothingInOrder(); }
    } else {
      var w, rest := words[0].(text := TrimSpace(words[0].text)), SpokenWords(words[1..]);
      KeptWordsAre(words[1..], previousEnd);
      if w.text == "" {
        assert [] + rest == rest;
      } else {
        InOrderCons(w, rest);
        KeptWordsAre(words[1..], w.end);
      }
    }
  }

  lemma NothingInOrder()
    ensures InOrder([])
  {
  }

  /** The valid words of a segment: all that are not blank if their times are in order, else none. */
  lemma ValidWordsAre(words: seq<Word>)
    ensures ValidWordsOf(words) == if InOrder(SpokenWords(words)) then SpokenWords(words) else []
  {
    KeptWordsAre(words, -1.0);
  }

  // ---------------------------------------------------------------- the space between words

  function WordTexts(words: seq<Word>): seq<string> {
    seq(|words|, i requires 0 <= i < |words| => words[i].text)
  }

  predicate TrimmedWords(words: seq<Word>) {
    forall w <- words :: w.text != "" && Text.Trimmed(GoSpace, w.text)
  }

  lemma {:induction false} SpokenTrimmed(words: seq<Word>)
    ensures TrimmedWords(SpokenWords(words))
  {
    hide Trim;
    if words != [] {
      SpokenTrimmed(words[1..]);
      TrimIsTrimmed(GoSpace, words[0].text);
    }
  }

  lemma {:induction false} SpokenAll(words: seq<Word>)
    requires TrimmedWords(words)
    ensures SpokenTexts(words) == WordTexts(words)
  {
    if words != [] {
      assert words[0] in words;
      TrimTrimmed(GoSpace, words[0].text);
      SpokenAll(words[1..]);
      assert WordTexts(words) == [words[0].text] + WordTexts(words[1..]);
    }
  }

  /** Where words are spaced, a sentence has the words of its texts: none is glued to the next. */
  lemma SentenceSpaced(words: seq<Word>)
    ensures Fields(Sentence(words, false)) == AllFields(SpokenTexts(words))
  {
    FieldsJoin(SpokenTexts(words), " ");
  }

  function TotalLength(texts: seq<string>): nat {
    if texts == [] then 0 else |texts[0]| + TotalLength(texts[1..])
  }

  lemma {:induction false} JoinLength(parts: seq<string>)
    ensures |Join(parts, "")| == TotalLength(parts)
  {
    if |parts| == 1 {
      assert parts[1..] == [];
    } else if |parts| > 1 {
      JoinLength(parts[1..]);
    }
  }

  /** Where they are not, it has exactly the characters of its texts: nothing is put between them. */
  lemma SentenceUnspaced(words: seq<Word>)
    ensures |Sentence(words, true)| == TotalLength(SpokenTexts(words))
  {
    JoinLength(SpokenTexts(words));
  }

  lemma {:induction false} JoinWords(parts: seq<string>)
    requires parts != [] && AllWords(parts) && forall p <- parts :: Plain(p)
    ensures IsWord(Join(parts, "")) && Plain(Join(parts, ""))
  {
    assert parts[0] in parts;
    if |parts| > 1 { JoinWords(parts[1..]); }
  }

  /** The words of a cue of spaced words are the words of its texts, one after the other.  The lines of a
      cue of unspaced words without white space or control characters are those words put together,
      and nothing else. */
  ghost predicate SpacedAs(text: string, words: seq<Word>, cjk: bool) {
    var texts := WordTexts(words);
    if cjk then
      AllWords(texts) && (forall t <- texts :: Plain(t)) ==>
        Join(Lines(text), "") == Join(texts, "") && |Join(Lines(text), "")| == TotalLength(texts)
    else
      |AllFields(texts)| > 1 ==> Fields(text) == AllFields(texts)
  }

  lemma CueSpacing(words: seq<Word>, maxChars: nat, cjk: bool)
    requires words != [] && TrimmedWords(words) && maxChars > 0
    ensures SpacedAs(CueOf(words, maxChars, cjk).text, words, cjk)
  {
    hide Wrapped, Plain, IsWord, Fields, AllFields, TotalLength, Lines;
    var texts, sentence := WordTexts(words), Sentence(words, cjk);
    SpokenAll(words);
    if cjk {
      if AllWords(texts) && forall t <- texts :: Plain(t) {
        JoinWords(texts);
        JoinLength(texts);
        WrappedWord(sentence, maxChars);
      }
    } else {
      SentenceSpaced(words);
      if |AllFields(texts)| > 1 { FieldsWrapped(sentence, maxChars); }
    }
  }

  lemma WrappedWord(w: string, maxChars: nat)
    requires maxChars > 0 && IsWord(w) && Plain(w)
    ensures Join(Lines(Wrapped(w, maxChars)), "") == w
  {
    hide Wrapped, WrappedLines;
    FieldsOfWord(w);
    assert w[0] in w;
    WrappedOneWord(w, maxChars);
    WrappedTidy(w, maxChars);
  }

  // ---------------------------------------------------------------- which words a cue takes

  /** One word, or no longer than two lines and the longest time allowed. */
  predicate CueFits(words: seq<Word>, maxChars: nat, maxDuration: real, cjk: bool) {
    words != []
    && (|words| == 1
        || (PlainLen(Sentence(words, cjk)) <= maxChars * 2 && words[|words| - 1].end - words[0].start <= maxDuration))
  }

  /** The next word would not have fitted any more. */
  predicate CueFull(words: seq<Word>, next: Word, maxChars: nat, maxDuration: real, cjk: bool) {
    words != [] && (PlainLen(Sentence(words + [next], cjk)) > maxChars * 2 || next.end - words[0].start > maxDuration)
  }

  predicate Followed(cue: Segment, next: Segment, maxChars: nat, maxDuration: real, cjk: bool) {
    next.words != [] && CueFull(cue.words, next.words[0], maxChars, maxDuration, cjk)
  }

  /** The cues take the words in order, each as many as fit. */
  ghost predicate TakenInOrder(cues: seq<Segment>, words: seq<Word>, maxChars: nat, maxDuration: real, cjk: bool) {
    && WordsOf(cues) == words
    && (forall c <- cues :: CueFits(c.words, maxChars, maxDuration, cjk))
    && (forall i | 0 <= i < |cues| - 1 :: Followed(cues[i], cues[i + 1], maxChars, maxDuration, cjk))
  }

  function WordsOf(cues: seq<Segment>): seq<Word> {
    if cues == [] then [] else cues[0].words + WordsOf(cues[1..])
  }

  /** Every cue has the times of its first and last word, and its text spaced as the language asks. */
  ghost predicate MadeOfWords(c: Segment, cjk: bool) {
    && c.words != [] && TrimmedWords(c.words)
    && c.start == c.words[0].start && c.end == c.words[|c.words| - 1].end
    && SpacedAs(c.text, c.words, cjk)
  }

  lemma CueMade(words: seq<Word>, maxChars: nat, cjk: bool)
    requires words != [] && TrimmedWords(words) && maxChars > 0
    ensures MadeOfWords(CueOf(words, maxChars, cjk), cjk) && CueOf(words, maxChars, cjk).words == words
  {
    hide SpacedAs, Wrapped, TrimmedWords;
    CueSpacing(words, maxChars, cjk);
  }

  lemma {:induction false} WordCuesShape(current: seq<Word>, words: seq<Word>, maxChars: nat, maxDuration: real, cjk: bool)
    requires maxChars > 0 && TrimmedWords(current) && TrimmedWords(words)
    requires current != [] ==> CueFits(current, maxChars, maxDuration, cjk)
    ensures var cues := WordCues(current, words, maxChars, maxDuration, cjk);
            && TakenInOrder(cues, current + words, maxChars, maxDuration, cjk)
            && (forall c <- cues :: MadeOfWords(c, cjk))
            && (current != [] ==> cues != [] && cues[0].words != [] && cues[0].words[0] == current[0])
    decreases words
  {
    hide CueOf, PlainLen, Sentence, MadeOfWords;
    if current != [] { CueMade(current, maxChars, cjk); }
    if words == [] {
      LastCue(current, maxChars, maxDuration, cjk);
    } else {
      var w, rest := words[0], words[1..];
      assert w in words && forall x <- rest :: x in words;
      assert [w][0] == w && TrimmedWords([w]);
      if MustFlush(current, w, maxChars, maxDuration, cjk) {
        WordCuesShape([w], rest, maxChars, maxDuration, cjk);
        NextCue(current, words, WordCues([w], rest, maxChars, maxDuration, cjk), maxChars, maxDuration, cjk);
      } else {
        TakeOne(current, w, maxChars, maxDuration, cjk);
        WordCuesShape(current + [w], rest, maxChars, maxDuration, cjk);
        assert current + [w] + rest == current + words;
      }
    }
  }

  lemma LastCue(current: seq<Word>, maxChars: nat, maxDuration: real, cjk: bool)
    requires maxChars > 0 && (current != [] ==> CueFits(current, maxChars, maxDuration, cjk))
    ensures TakenInOrder(WordCues(current, [], maxChars, maxDuration, cjk), current + [], maxChars, maxDuration, cjk)
  {
    hide CueFits, Wrapped, Sentence;
    assert current + [] == current;
    if current != [] {
      var c := CueOf(current, maxChars, cjk);
      assert [c][1..] == [] && WordsOf([c]) == c.words + [];
    }
  }

  lemma FlushIsFull(current: seq<Word>, w: Word, maxChars: nat, maxDuration: real, cjk: bool)
    requires current != [] && MustFlush(current, w, maxChars, maxDuration, cjk)
    ensures CueFull(current, w, maxChars, maxDuration, cjk)
  {
    hide PlainLen, Sentence;
    assert (current + [w])[0] == current[0];
  }

  lemma NextCue(current: seq<Word>, words: seq<Word>, later: seq<Segment>, maxChars: nat, maxDuration: real, cjk: bool)
    requires maxChars > 0 && current != [] && words != [] && CueFits(current, maxChars, maxDuration, cjk)
    requires MustFlush(current, words[0], maxChars, maxDuration, cjk)
    requires TakenInOrder(later, [words[0]] + words[1..], maxChars, maxDuration, cjk)
    requires later != [] && later[0].words != [] && later[0].words[0] == words[0]
    ensures TakenInOrder([CueOf(current, maxChars, cjk)] + later, current + words, maxChars, maxDuration, cjk)
  {
    var c := CueOf(current, maxChars, cjk);
    assert c.words == current;
    hide CueFits, PlainLen, Sentence, CueOf;
    var all := [c] + later;
    assert [words[0]] + words[1..] == words;
    assert all[1..] == later && WordsOf(all) == c.words + WordsOf(later);
    assert Followed(c, later[0], maxChars, maxDuration, cjk) by { FlushIsFull(current, words[0], maxChars, maxDuration, cjk); }
    hide WordsOf, Followed, MustFlush;
    forall i | 0 <= i < |all| - 1 ensures Followed(all[i], all[i + 1], maxChars, maxDuration, cjk) {
      if i > 0 { assert all[i] == later[i - 1] && all[i + 1] == later[i]; }
    }
  }

  lemma TakeOne(current: seq<Word>, w: Word, maxChars: nat, maxDuration: real, cjk: bool)
    requires TrimmedWords(current) && TrimmedWords([w]) && !MustFlush(current, w, maxChars, maxDuration, cjk)
    ensures CueFits(current + [w], maxChars, maxDuration, cjk) && TrimmedWords(current + [w])
    ensures current != [] ==> (current + [w])[0] == current[0]
  {
    hide PlainLen, Sentence;
    assert w in [w];
  }

  /** The language of a segment is written without blanks between words: it is said to be Chinese,
      Japanese or Korean, or it is left open and the text has a character of theirs. */
  predicate WithoutBlanks(segment: Segment, lang: string) {
    ToLower(lang) == "zh" || ToLower(lang) == "ja" || ToLower(lang) == "ko"
    || (ToLower(lang) == "auto"
        && exists c <- segment.text ::
             '\U{4e00}' <= c <= '\U{9fff}' || '\U{3040}' <= c <= '\U{30ff}' || '\U{ac00}' <= c <= '\U{d7af}')
  }

  lemma SpacingIs(segment: Segment, o: Options)
    ensures CjkSpacing(segment, o) <==> WithoutBlanks(segment, o.lang)
  {
    hide ToLower;
    assert segment in [segment];
  }

  /** The cues made of word timestamps: they take the valid words in order, each as many as fit on two
      lines and into the longest time, and put blanks between words unless the language has none. */
  lemma ByWordsShape(segment: Segment, o: Options, maxChars: nat)
    requires maxChars > 0
    ensures var cues, cjk := ByWords(segment, o, maxChars), WithoutBlanks(segment, o.lang);
            && (forall c <- cues :: MadeOfWords(c, cjk))
            && TakenInOrder(cues, ValidWordsOf(segment.words), maxChars, o.maxDuration, cjk)
  {
    hide WithoutBlanks, CjkSpacing, MadeOfWords, TakenInOrder, SpokenWords, InOrder;
    ValidWordsAre(segment.words);
    SpokenTrimmed(segment.words);
    SpacingIs(segment, o);
    var words := ValidWordsOf(segment.words);
    assert TrimmedWords(words) && TrimmedWords([]);
    WordCuesShape([], words, maxChars, o.maxDuration, CjkSpacing(segment, o));
    assert [] + words == words;
  }

  // ---------------------------------------------------------------- even parts

  /** Where a segment without valid words is cut: into texts that fit on two lines or are one word, or
      into its lines where it would otherwise last too long; unless it is one text anyway or the
      parts would last less than half a second. */
  lemma EvenSplitShape(segment: Segment, o: Options, maxChars: nat)
    requires maxChars > 0 && o.maxDuration > 0.0 && !Blank(GoSpace, segment.text)
    ensures var texts, parts := SplitTexts(segment, o, maxChars), EvenSplit(segment, o, maxChars);
            var duration := segment.end - segment.start;
            && texts != []
            && (forall t <- texts :: PlainLen(t) <= maxChars * 2 || IsWord(t))
            && (duration / |texts| as real > o.maxDuration ==> texts == Chunks(OneLine(segment.text), maxChars))
            && (duration <= o.maxDuration ==> texts == CueTexts(segment.text, maxChars))
            && (if |texts| == 1 || duration / |texts| as real < 0.5
                then parts == [segment.(text := Wrapped(segment.text, maxChars))]
                else |parts| == |texts| && forall i | 0 <= i < |parts| ::
                       && parts[i].text == Wrapped(texts[i], maxChars) && parts[i].words == segment.words
                       && parts[i].end - parts[i].start == duration / |texts| as real)
  {
    hide PlainLen, Wrapped, IsWord, CueTexts, Chunks, Blank, OneLine;
    var texts, duration := SplitTexts(segment, o, maxChars), segment.end - segment.start;
    SplitTextsFacts(segment, o, maxChars);
    TextsWidth(segment, o, maxChars);
    LongerStill(duration, |CueTexts(segment.text, maxChars)|, o.maxDuration);
    var step := duration / |texts| as real;
    EvenPartsAt(segment, texts, step, 0, maxChars);
    forall i | 0 <= i < |texts|
      ensures Mark(segment, step, i + 1) - Mark(segment, step, i) == step
    {
      StepLasts(segment, step, i);
    }
  }

  /** A mean that is too long means that the whole is. */
  lemma LongerStill(duration: real, n: nat, maxDuration: real)
    ensures n > 0 && duration / n as real > maxDuration && maxDuration >= 0.0 ==> duration > maxDuration
  {
    if n > 0 && duration / n as real > maxDuration && maxDuration >= 0.0 {
      Scales(duration / n as real, n);
    }
  }

  lemma Scales(x: real, n: nat)
    requires x >= 0.0 && n > 0
    ensures x * n as real >= x
  {
    assert x * (n as real - 1.0) >= 0.0;
  }

  lemma TextsWidth(segment: Segment, o: Options, maxChars: nat)
    requires maxChars > 0
    ensures forall t <- SplitTexts(segment, o, maxChars) :: PlainLen(t) <= maxChars * 2 || IsWord(t)
  {
    hide PlainLen, IsWord, CueTexts, Chunks, OneLine;
    CueTextsWidth(segment.text, maxChars);
    ChunksWidth(OneLine(segment.text), maxChars);
    forall t | t in Chunks(OneLine(segment.text), maxChars) ensures PlainLen(t) <= maxChars * 2 || IsWord(t) {
      PlainLenAtMost(t);
    }
  }

  // ---------------------------------------------------------------- times

  /** What repairing does to one segment: it starts at its own time, at zero or where the one ahead has
      ended, whichever is latest; it ends at its own time if that is later, else it lasts the least time. */
  lemma {:induction false} RepairedAt(segments: seq<Segment>, from: real, minDuration: real, i: nat)
    requires i < |segments| && 0.0 <= from && 0.0 < minDuration
    ensures var r := Repaired(segments, from, minDuration);
            && |r| == |segments|
            && var before := if i == 0 then from else r[i - 1].end;
               && r[i].start >= 0.0 && r[i].start >= segments[i].start && r[i].start >= before
               && (r[i].start == 0.0 || r[i].start == segments[i].start || r[i].start == before)
               && r[i].end == (if segments[i].end > r[i].start then segments[i].end else r[i].start + minDuration)
               && r[i].text == segments[i].text && r[i].words == segments[i].words
    decreases segments
  {
    var first := RepairOne(segments[0], from, minDuration);
    var later := Repaired(segments[1..], first.end, minDuration);
    assert Repaired(segments, from, minDuration) == [first] + later;
    RepairedTexts(segments[1..], first.end, minDuration);
    if i > 0 { RepairedAt(segments[1..], first.end, minDuration, i - 1); }
  }

  /** What dropBlankSegments does: blank segments go, the others keep their words and their times but for
      negative ones, and their text is normalised. */
  lemma CleanedFirst(s: Segment, rest: seq<Segment>)
    ensures Cleaned([s] + rest)
         == (if Blank(GoSpace, s.text) then []
             else [Segment(if s.start < 0.0 then 0.0 else s.start, if s.end < 0.0 then 0.0 else s.end,
                           Normalized(s.text), s.words)])
            + Cleaned(rest)
  {
    hide Blank, Normalized;
    NormalizedTrimmed(s.text);
    assert ([s] + rest)[1..] == rest;
  }

  // ---------------------------------------------------------------- lines

  predicate CjkText(text: string) {
    exists c <- text :: CjkChar(c)
  }

  lemma CjkNormalized(text: string)
    ensures CjkText(Normalized(text)) <==> CjkText(text)
  {
    hide Normalized;
    SqueezeNormalized(text);
    SqueezeMembers(text);
    SqueezeMembers(Normalized(text));
  }

  lemma {:induction false} CjkCleaned(segments: seq<Segment>)
    ensures ContainsCjk(Cleaned(segments)) <==> exists s <- segments :: CjkText(s.text)
  {
    hide Normalized;
    if segments != [] {
      var s, rest := segments[0], segments[1..];
      CjkCleaned(rest);
      CjkNormalized(s.text);
      NormalizedTrimmed(s.text);
      assert segments == [s] + rest;
      CleanedFirst(s, rest);
      NoCjkBlank(s.text);
      ContainsFirst(segments, Cleaned(segments), Cleaned(rest));
    }
  }

  lemma NoCjkBlank(text: string)
    ensures Blank(GoSpace, text) ==> !CjkText(text)
  {
  }

  lemma ContainsFirst(segments: seq<Segment>, cleaned: seq<Segment>, later: seq<Segment>)
    requires segments != []
    requires ContainsCjk(later) <==> exists s <- segments[1..] :: CjkText(s.text)
    requires (cleaned == later && !CjkText(segments[0].text))
             || (|cleaned| == 1 + |later| && cleaned[1..] == later && (CjkText(cleaned[0].text) <==> CjkText(segments[0].text)))
    ensures ContainsCjk(cleaned) <==> exists s <- segments :: CjkText(s.text)
  {
    hide CjkChar;
    assert segments == [segments[0]] + segments[1..];
    assert forall s :: s in segments <==> s == segments[0] || s in segments[1..];
    assert ContainsCjk(later) <==> exists s <- later :: CjkText(s.text);
    assert ContainsCjk(cleaned) <==> exists s <- cleaned :: CjkText(s.text);
    if |cleaned| == 1 + |later| {
      assert cleaned == [cleaned[0]] + later;
      assert forall s :: s in cleaned <==> s == cleaned[0] || s in later;
    }
  }

  /** The widest line allowed: what the options say, else 22 where the language is said to be Chinese,
      Japanese or Korean or is left open and some text that came in has a character of theirs, else 42. */
  lemma LineLimit(segments: seq<Segment>, options: Options)
    ensures LineChars(Cleaned(segments), WithDefaults(options))
         == if options.maxChars > 0 then options.maxChars
            else if ToLower(options.lang) in {"zh", "ja", "ko"} then 22
            else if (options.lang == "" || ToLower(options.lang) == "auto") && exists s <- segments :: CjkText(s.text) then 22
            else 42
  {
    hide CjkText, ContainsCjk;
    CjkCleaned(segments);
    assert ToLower("") == "";
    assert ToLower("auto") == "auto";
  }

  predicate NarrowLine(line: string, maxChars: nat) {
    PlainLen(line) <= maxChars || IsWord(line)
  }

  /** No line of any cue is wider than allowed, unless it is one word. */
  ghost predicate LinesFit(cues: seq<Segment>, maxChars: nat) {
    forall c <- cues :: forall line <- Lines(c.text) :: NarrowLine(line, maxChars)
  }

  lemma WrappedLinesFit(text: string, maxChars: nat)
    requires maxChars > 0 && !Blank(GoSpace, text)
    ensures forall line <- Lines(Wrapped(text, maxChars)) :: NarrowLine(line, maxChars)
  {
    hide PlainLen, IsWord, Wrapped, WrappedLines, Blank;
    WrappedTidy(text, maxChars);
    WrappedWidth(text, maxChars);
  }

  lemma {:induction false} WordCuesLines(current: seq<Word>, words: seq<Word>, maxChars: nat, maxDuration: real, cjk: bool)
    requires maxChars > 0 && RefineFacts.Spoken(current) && RefineFacts.Spoken(words)
    ensures LinesFit(WordCues(current, words, maxChars, maxDuration, cjk), maxChars)
    decreases words
  {
    hide MustFlush, Wrapped, Sentence, NarrowLine, Lines;
    if current != [] {
      SaidNotBlank(current);
      SqueezeCue(current, maxChars, cjk);
      CueLines(current, maxChars, cjk);
    }
    if words != [] {
      assert words[0] in words;
      FlushNeedsCurrent(words[0], maxChars, maxDuration, cjk);
      WordCuesLines(if MustFlush(current, words[0], maxChars, maxDuration, cjk) then [words[0]] else current + [words[0]],
                    words[1..], maxChars, maxDuration, cjk);
    }
  }

  lemma CueLines(words: seq<Word>, maxChars: nat, cjk: bool)
    requires words != [] && maxChars > 0 && Said(words) != ""
    ensures forall line <- Lines(CueOf(words, maxChars, cjk).text) :: NarrowLine(line, maxChars)
  {
    hide Wrapped, NarrowLine, Squeeze;
    SqueezeJoin(SpokenTexts(words), if cjk then "" else " ");
    SqueezeBlank(Sentence(words, cjk));
    WrappedLinesFit(Sentence(words, cjk), maxChars);
  }

  lemma SplitOneLines(segment: Segment, o: Options, maxChars: nat)
    requires maxChars > 0 && !Blank(GoSpace, segment.text)
    ensures LinesFit(SplitOne(segment, o, maxChars), maxChars)
  {
    hide Wrapped, SplitTexts, Blank, NarrowLine, KeptWords, CjkSpacing, Lines;
    KeptSpoken(segment.words, -1.0);
    WordCuesLines([], ValidWordsOf(segment.words), maxChars, o.maxDuration, CjkSpacing(segment, o));
    WrappedLinesFit(segment.text, maxChars);
    SplitTextsFacts(segment, o, maxChars);
    var texts := SplitTexts(segment, o, maxChars);
    var step := (segment.end - segment.start) / |texts| as real;
    EvenPartsAt(segment, texts, step, 0, maxChars);
    forall i | 0 <= i < |texts| ensures forall line <- Lines(Wrapped(texts[i], maxChars)) :: NarrowLine(line, maxChars) {
      assert texts[i] in texts;
      WrappedLinesFit(texts[i], maxChars);
    }
  }

  lemma {:induction false} SplitAllLines(segments: seq<Segment>, o: Options, maxChars: nat)
    requires maxChars > 0 && NoBlankText(segments)
    ensures LinesFit(SplitAll(segments, o, maxChars), maxChars)
  {
    hide SplitOne, NarrowLine, Blank;
    if segments != [] {
      assert segments[0] in segments;
      SplitAllLines(segments[1..], o, maxChars);
      SplitOneLines(segments[0], o, maxChars);
    }
  }

  /** No line of a refined cue is wider than the limit, unless it is one word. */
  lemma RefinedLinesFit(segments: seq<Segment>, options: Options)
    ensures var maxChars := LineChars(Cleaned(segments), WithDefaults(options));
            forall c <- Refined(segments, options), line <- Lines(c.text) :: PlainLen(line) <= maxChars || IsWord(line)
  {
    hide NarrowLine, SplitAll, Lines;
    var cleaned, o := Cleaned(segments), WithDefaults(options);
    var maxChars := LineChars(cleaned, o);
    var repaired := Repaired(cleaned, 0.0, o.minDuration);
    var split := SplitAll(repaired, o, maxChars);
    CleanedNotBlank(segments);
    RepairedTexts(cleaned, 0.0, o.minDuration);
    SplitAllLines(repaired, o, maxChars);
    RepairedTexts(split, 0.0, o.minDuration);
    forall c, line | c in Refined(segments, options) && line in Lines(c.text)
      ensures PlainLen(line) <= maxChars || IsWord(line)
    {
      var i :| 0 <= i < |split| && Refined(segments, options)[i] == c;
      assert split[i] in split && NarrowLine(line, maxChars);
      NarrowIs(line, maxChars);
    }
  }

  lemma NarrowIs(line: string, maxChars: nat)
    requires NarrowLine(line, maxChars)
    ensures PlainLen(line) <= maxChars || IsWord(line)
  {
  }
}
