/** What plain-text translation keeps: every line for every translator, and the text itself for a
    translator that returns its input. */
module PlainTextFacts {
  import opened Text
  import opened Numbers
  import opened Chunking
  import opened Wrapping
  import opened TidyText
  import opened PlainText
  import Srt
  import SrtRoundTrip

  // ---------------------------------------------------------------- one translated line

  lemma {:induction false} SqueezeKept(lines: seq<string>)
    ensures SqueezeAll(Srt.Kept(lines)) == SqueezeAll(lines)
  {
    hide Squeeze;
    if lines != [] {
      SqueezeKept(lines[1..]);
      SqueezeTrim(lines[0]);
      if TrimSpace(lines[0]) == "" {
        SqueezeBlank("");
        assert [] + Srt.Kept(lines[1..]) == Srt.Kept(lines[1..]);
      } else {
        SqueezeFirst(TrimSpace(lines[0]), Srt.Kept(lines[1..]));
      }
    }
  }

  /** Making a cue one line changes nothing but white space. */
  lemma SqueezeNormalizedLine(text: string)
    ensures Squeeze(NormalizedLine(text)) == Squeeze(text)
  {
    hide Squeeze;
    var unix := UnixBreaks(text);
    SqueezeReplace(text, "\r\n", "\n");
    SqueezeReplace(ReplaceAll(text, "\r\n", "\n"), "\r", "\n");
    JoinLines(unix);
    SqueezeJoin(Lines(unix), "\n");
    SqueezeKept(Lines(unix));
    SqueezeJoin(Srt.Kept(Lines(unix)), " ");
    SqueezeTrim(Join(Srt.Kept(Lines(unix)), " "));
  }

  lemma NormalizedIsLine(text: string)
    ensures '\n' !in NormalizedLine(text) && Text.Trimmed(GoSpace, NormalizedLine(text))
    ensures NormalizedLine(text) == "" <==> Blank(GoSpace, text)
  {
    hide Srt.Kept, Squeeze;
    var lines := Lines(UnixBreaks(text));
    LinesHaveNoBreak(UnixBreaks(text));
    SrtRoundTrip.KeptFull(lines);
    JoinChars(Srt.Kept(lines), " ", '\n');
    var a, b := TrimSplit(GoSpace, Join(Srt.Kept(lines), " "));
    SqueezeNormalizedLine(text);
    SqueezeBlank(text);
    SqueezeBlank(NormalizedLine(text));
    assert NormalizedLine(text) != "" ==> NormalizedLine(text)[0] in NormalizedLine(text);
  }

  lemma NormalizedSame(text: string)
    requires text != "" && Text.Trimmed(GoSpace, text) && '\n' !in text && '\r' !in text
    ensures NormalizedLine(text) == text
  {
    ReplaceAbsent(text, "\r\n", "\n");
    ReplaceAbsent(text, "\r", "\n");
    LinesOfLine(text);
    TrimTrimmed(GoSpace, text);
    assert Srt.Kept([text]) == [text];
  }

  // ---------------------------------------------------------------- every line is kept

  /** Texts that start with a character that is no white space. */
  predicate AllSaid(texts: seq<string>) {
    forall t <- texts :: t != "" && !GoSpace(t[0])
  }

  lemma {:induction false} JoinStart(parts: seq<string>, sep: string)
    requires parts != [] && AllSaid(parts)
    ensures AllSaid([Join(parts, sep)])
  {
    assert parts[0] in parts;
    if |parts| > 1 { assert Join(parts, sep) == parts[0] + (sep + Join(parts[1..], sep)); }
  }

  lemma {:induction false} CuesSaid(current: seq<string>, lines: seq<string>)
    requires AllSaid(current)
    ensures AllSaid(CollectedCues(current, lines))
    decreases lines
  {
    hide Skipped, Join;
    if current != [] { JoinStart(current, "\n"); }
    if lines != [] {
      var trimmed := TrimSpace(lines[0]);
      TrimIsTrimmed(GoSpace, lines[0]);
      if trimmed == "" { CuesSaid([], lines[1..]); }
      else if Skipped(trimmed) { CuesSaid(current, lines[1..]); }
      else { CuesSaid(current + [trimmed], lines[1..]); }
    }
  }

  predicate GoodLine(l: LineLayout) {
    Text.Trimmed(GoSpace, l.text) && '\n' !in l.text && '\r' !in l.text && (l.translatable <==> l.text != "")
  }

  predicate GoodLayout(layout: seq<LineLayout>) {
    forall l <- layout :: GoodLine(l)
  }

  lemma LayoutGood(text: string)
    ensures GoodLayout(LayoutOf(text)) && |LayoutOf(text)| == |Lines(UnixBreaks(text))|
  {
    var unix := UnixBreaks(text);
    var lines := Lines(unix);
    LinesHaveNoBreak(unix);
    ReplacedAbsent(ReplaceAll(text, "\r\n", "\n"), "\r", "\n", '\r');
    LinesLack(unix, '\r');
    forall l | l in LayoutOf(text) ensures GoodLine(l) {
      var i :| 0 <= i < |lines| && LayoutOf(text)[i] == l;
      assert lines[i] in lines;
      var a, b := TrimSplit(GoSpace, lines[i]);
    }
  }

  lemma {:induction false} RejoinedKeeps(translations: seq<string>, layout: seq<LineLayout>)
    requires AllSaid(translations) && GoodLayout(layout)
    ensures var lines := RejoinedLines(translations, layout);
            && |lines| == |layout|
            && (forall i | 0 <= i < |lines| ::
                 '\n' !in lines[i] && Text.Trimmed(GoSpace, lines[i]) && (lines[i] == "" <==> !layout[i].translatable))
    decreases layout
  {
    hide NormalizedLine;
    if layout != [] {
      assert layout[0] in layout;
      if layout[0].translatable && translations != [] {
        assert translations[0] in translations;
        NormalizedIsLine(translations[0]);
        assert !Blank(GoSpace, translations[0]) by { assert translations[0][0] in translations[0]; }
        RejoinedKeeps(translations[1..], layout[1..]);
      } else {
        RejoinedKeeps(translations, layout[1..]);
      }
    }
  }

  /** Whatever subtitles the translator returns, there is one line of output for each line of input, and
      it is blank exactly when that line is. */
  lemma KeepsLines(text: string, srt: string)
    ensures var input, output := Lines(UnixBreaks(text)), Lines(Rejoined(TranslatedCues(srt), LayoutOf(text)));
            && |output| == |input|
            && (forall i | 0 <= i < |input| ::
                 Text.Trimmed(GoSpace, output[i]) && (output[i] == "" <==> Blank(GoSpace, input[i])))
  {
    hide Lines, RejoinedLines, TranslatedCues, Blank;
    var layout, cues := LayoutOf(text), TranslatedCues(srt);
    LayoutGood(text);
    assert AllSaid(cues) by { CuesOfSrt(srt); }
    RejoinedKeeps(cues, layout);
    var lines := RejoinedLines(cues, layout);
    LinesOfJoin(lines);
    forall i | 0 <= i < |layout| ensures layout[i].text == "" <==> Blank(GoSpace, Lines(UnixBreaks(text))[i]) {
      TrimBlank(GoSpace, Lines(UnixBreaks(text))[i]);
      assert layout[i] in layout;
    }
  }

  lemma CuesOfSrt(srt: string)
    ensures AllSaid(TranslatedCues(srt))
  {
    CuesSaid([], Lines(UnixBreaks(srt)));
  }

  // ---------------------------------------------------------------- a translator that returns its input

  /** The texts that come through as cues. */
  function Surviving(texts: seq<string>): seq<string> {
    if texts == [] then [] else (if Skipped(texts[0]) then [] else [texts[0]]) + Surviving(texts[1..])
  }

  lemma NumberSkipped(n: nat)
    requires n <= MAX_INT64
    ensures Skipped(Decimal(n)) && TrimSpace(Decimal(n)) == Decimal(n) && Decimal(n) != ""
  {
    hide Decimal, Contains;
    var d := Decimal(n);
    DecimalValue(n);
    AtoiDigits(d);
    assert d[0] in d && d[|d| - 1] in d;
    TrimTrimmed(GoSpace, d);
  }

  lemma TimingSkipped(cue: nat)
    ensures Skipped(TimingLine(cue)) && TrimSpace(TimingLine(cue)) == TimingLine(cue) && TimingLine(cue) != ""
  {
    hide SrtTimestamp, Atoi, Contains;
    var a, b := SrtTimestamp(cue * 2), SrtTimestamp(cue * 2 + 2);
    var line := TimingLine(cue);
    SrtRoundTrip.ContainsMiddle(a, " --> ", b);
    TimestampEnds(cue * 2);
    TimestampEnds(cue * 2 + 2);
    assert line[0] == a[0] && line[|line| - 1] == b[|b| - 1];
    TrimTrimmed(GoSpace, line);
  }

  lemma TimestampEnds(seconds: nat)
    ensures var t := SrtTimestamp(seconds); t != "" && Digit(t[0]) && Digit(t[|t| - 1]) && '\n' !in t && '\r' !in t
  {
    hide Padded;
    var h, m, s := seconds / 3600, seconds % 3600 / 60, seconds % 60;
    PaddedValue(h, 2);
    PaddedValue(m, 2);
    PaddedValue(s, 2);
    var t := SrtTimestamp(seconds);
    assert t[0] == Padded(h, 2)[0] && Padded(h, 2)[0] in Padded(h, 2);
    assert t[|t| - 1] == '0';
    assert forall c <- Padded(h, 2) + Padded(m, 2) + Padded(s, 2) :: Digit(c);
  }

  lemma TrimSame(s: string)
    requires Text.Trimmed(GoSpace, s)
    ensures TrimSpace(s) == s
  {
    TrimTrimmed(GoSpace, s);
  }

  lemma CueCollected(text: string, cue: nat, rest: seq<string>)
    requires cue + 1 <= MAX_INT64 && text != "" && Text.Trimmed(GoSpace, text)
    ensures CollectedCues([], CueLines(text, cue) + rest) == (if Skipped(text) then [] else [text]) + CollectedCues([], rest)
  {
    hide Skipped, TimingLine, Decimal, TrimSpace;
    var lines := CueLines(text, cue) + rest;
    NumberSkipped(cue + 1);
    TimingSkipped(cue);
    TrimSame(text);
    TrimSame("");
    assert lines[1..] == [TimingLine(cue), text, ""] + rest;
    assert lines[1..][1..] == [text, ""] + rest;
    assert lines[1..][1..][1..] == [""] + rest && ([""] + rest)[1..] == rest;
    CollectSkips([], lines);
    CollectSkips([], lines[1..]);
    if Skipped(text) {
      CollectSkips([], [text, ""] + rest);
      CollectBlank([], [""] + rest);
    } else {
      CollectTakes([], [text, ""] + rest);
      assert [] + [text] == [text] && Join([text], "\n") == text;
      CollectBlank([text], [""] + rest);
    }
  }

  lemma CollectSkips(current: seq<string>, lines: seq<string>)
    requires lines != [] && TrimSpace(lines[0]) != "" && Skipped(TrimSpace(lines[0]))
    ensures CollectedCues(current, lines) == CollectedCues(current, lines[1..])
  {
  }

  lemma CollectTakes(current: seq<string>, lines: seq<string>)
    requires lines != [] && TrimSpace(lines[0]) != "" && !Skipped(TrimSpace(lines[0]))
    ensures CollectedCues(current, lines) == CollectedCues(current + [TrimSpace(lines[0])], lines[1..])
  {
  }

  lemma CollectBlank(current: seq<string>, lines: seq<string>)
    requires lines != [] && TrimSpace(lines[0]) == ""
    ensures CollectedCues(current, lines) == Flushed(current) + CollectedCues([], lines[1..])
  {
  }

  lemma {:induction false} SyntheticCollected(layout: seq<LineLayout>, cue: nat)
    requires GoodLayout(layout) && cue + |layout| <= MAX_INT64
    ensures CollectedCues([], SyntheticLines(layout, cue) + [""]) == Surviving(Translatable(layout))
    decreases layout
  {
    hide CueLines, Skipped, CollectedCues;
    if layout == [] {
      assert SyntheticLines(layout, cue) + [""] == [""] && [""][1..] == [];
      CollectedNothing();
    } else {
      var l, rest := layout[0], layout[1..];
      assert l in layout;
      if l.translatable {
        SyntheticCollected(rest, cue + 1);
        CueCollected(l.text, cue, SyntheticLines(rest, cue + 1) + [""]);
        assert CueLines(l.text, cue) + (SyntheticLines(rest, cue + 1) + [""]) == SyntheticLines(layout, cue) + [""];
        assert Translatable(layout) == [l.text] + Translatable(rest);
        assert ([l.text] + Translatable(rest))[1..] == Translatable(rest);
      } else {
        SyntheticCollected(rest, cue);
        assert [] + Translatable(rest) == Translatable(rest);
      }
    }
  }

  lemma CollectedNothing()
    ensures CollectedCues([], [""]) == []
  {
    TrimTrimmed(GoSpace, "");
    CollectBlank([], [""]);
    assert [""][1..] == [];
  }

  lemma CueUnbroken(text: string, cue: nat)
    requires '\n' !in text && '\r' !in text
    ensures forall line <- CueLines(text, cue) :: '\n' !in line && '\r' !in line
  {
    hide Decimal, SrtTimestamp;
    TimestampEnds(cue * 2);
    TimestampEnds(cue * 2 + 2);
    assert '\n' !in Decimal(cue + 1) && '\r' !in Decimal(cue + 1);
  }

  lemma {:induction false} SyntheticUnbroken(layout: seq<LineLayout>, cue: nat)
    requires GoodLayout(layout)
    ensures forall line <- SyntheticLines(layout, cue) :: '\n' !in line && '\r' !in line
    decreases layout
  {
    hide CueLines;
    if layout != [] {
      assert layout[0] in layout;
      CueUnbroken(layout[0].text, cue);
      SyntheticUnbroken(layout[1..], if layout[0].translatable then cue + 1 else cue);
    }
  }

  lemma {:induction false} UnlinesLack(lines: seq<string>)
    requires forall line <- lines :: '\r' !in line
    ensures '\r' !in Unlines(lines)
  {
    if lines != [] {
      assert lines[0] in lines;
      UnlinesLack(lines[1..]);
    }
  }

  /** The cues read from lines that were just written. */
  lemma CuesOfLines(lines: seq<string>)
    requires forall line <- lines :: '\n' !in line && '\r' !in line
    ensures TranslatedCues(Unlines(lines)) == CollectedCues([], lines + [""])
  {
    hide CollectedCues;
    UnlinesLack(lines);
    ReplaceAbsent(Unlines(lines), "\r\n", "\n");
    ReplaceAbsent(Unlines(lines), "\r", "\n");
    LinesOfUnlines(lines);
  }

  lemma SyntheticCues(layout: seq<LineLayout>)
    requires GoodLayout(layout) && |layout| < MAX_INT64
    ensures TranslatedCues(SyntheticSrt(layout)) == Surviving(Translatable(layout))
  {
    hide CollectedCues, TranslatedCues, Unlines;
    if Translatable(layout) == [] {
      NoCues();
    } else {
      SyntheticUnbroken(layout, 0);
      CuesOfLines(SyntheticLines(layout, 0));
      SyntheticCollected(layout, 0);
    }
  }

  lemma NoCues()
    ensures TranslatedCues(Unlines(["1", TimingLine(0), "", ""])) == []
  {
    hide CollectedCues, TranslatedCues, Unlines, TimingLine, Skipped;
    var lines := ["1", TimingLine(0), "", ""];
    assert Decimal(1) == "1";
    assert lines == CueLines("", 0);
    CueUnbroken("", 0);
    CuesOfLines(lines);
    NumberSkipped(1);
    TimingSkipped(0);
    TrimTrimmed(GoSpace, "");
    var all := lines + [""];
    assert all[1..] == [TimingLine(0), "", "", ""] && all[1..][1..] == ["", "", ""] && all[1..][1..][1..] == ["", ""];
    assert ["", ""][1..] == [""];
    CollectSkips([], all);
    CollectSkips([], all[1..]);
    CollectBlank([], all[1..][1..]);
    CollectBlank([], ["", ""]);
    CollectedNothing();
  }

  // ---------------------------------------------------------------- when the output is the input

  /** No skipped line is followed by one that is not: the texts that come through are the first ones. */
  predicate SkippedLast(texts: seq<string>) {
    forall i, j | 0 <= i < j < |texts| :: Skipped(texts[i]) ==> Skipped(texts[j])
  }

  function TextsOf(layout: seq<LineLayout>): seq<string> {
    seq(|layout|, i requires 0 <= i < |layout| => layout[i].text)
  }

  lemma {:induction false} SurvivingNone(texts: seq<string>)
    ensures Surviving(texts) == [] <==> forall t <- texts :: Skipped(t)
  {
    hide Skipped;
    if texts != [] {
      SurvivingNone(texts[1..]);
      assert texts == [texts[0]] + texts[1..];
    }
  }

  lemma {:induction false} SurvivingFirst(texts: seq<string>)
    ensures Surviving(texts) != [] ==> !Skipped(Surviving(texts)[0])
  {
    hide Skipped;
    if texts != [] { SurvivingFirst(texts[1..]); }
  }

  lemma {:induction false} GoodTexts(layout: seq<LineLayout>)
    requires GoodLayout(layout)
    ensures forall t <- Translatable(layout) :: t != "" && Text.Trimmed(GoSpace, t) && '\n' !in t && '\r' !in t
  {
    if layout != [] {
      assert layout[0] in layout;
      GoodTexts(layout[1..]);
    }
  }

  lemma SkippedLastStep(text: string, rest: seq<string>)
    ensures SkippedLast([text] + rest) <==> SkippedLast(rest) && (Skipped(text) ==> forall t <- rest :: Skipped(t))
  {
    hide Skipped;
    var texts := [text] + rest;
    assert forall i | 0 <= i < |rest| :: texts[i + 1] == rest[i];
    if SkippedLast(texts) {
      forall t | t in rest && Skipped(text) ensures Skipped(t) {
        var j :| 0 <= j < |rest| && rest[j] == t;
        assert texts[j + 1] == t && texts[0] == text;
      }
      forall i, j | 0 <= i < j < |rest| && Skipped(rest[i]) ensures Skipped(rest[j]) {
        assert texts[i + 1] == rest[i] && texts[j + 1] == rest[j];
      }
    }
  }

  /** The first lines get the surviving texts, which are their own exactly when nothing that was skipped
      is followed by a text that was not. */
  lemma {:induction false} RejoinedSame(layout: seq<LineLayout>)
    requires GoodLayout(layout)
    ensures RejoinedLines(Surviving(Translatable(layout)), layout) == TextsOf(layout)
            <==> SkippedLast(Translatable(layout))
    decreases layout
  {
    hide Skipped, NormalizedLine, SkippedLast;
    if layout == [] {
      assert SkippedLast([]) by { NothingSkipped(); }
    } else {
      var l, rest := layout[0], layout[1..];
      assert l in layout;
      RejoinedSame(rest);
      TextsOfStep(layout);
      var later := Translatable(rest);
      if !l.translatable {
        assert [] + later == later;
        ConsSame("", RejoinedLines(Surviving(later), rest), TextsOf(rest));
      } else {
        var texts := [l.text] + later;
        assert Translatable(layout) == texts && texts[1..] == later;
        SkippedLastStep(l.text, later);
        SurvivingNone(later);
        SurvivingFirst(later);
        var survivors := Surviving(texts);
        if !Skipped(l.text) {
          assert survivors == [l.text] + Surviving(later) && survivors[1..] == Surviving(later);
          NormalizedSame(l.text);
          ConsSame(l.text, RejoinedLines(Surviving(later), rest), TextsOf(rest));
        } else {
          assert survivors == Surviving(later);
          assert layout == [l] + rest;
          SkippedFirst(l, rest, later, survivors);
          if survivors == [] { AllSkipped(later); }
        }
      }
    }
  }

  lemma ConsSame(first: string, a: seq<string>, b: seq<string>)
    ensures [first] + a == [first] + b <==> a == b
  {
    assert ([first] + a)[1..] == a && ([first] + b)[1..] == b;
  }

  lemma AllSkipped(texts: seq<string>)
    requires forall t <- texts :: Skipped(t)
    ensures SkippedLast(texts)
  {
    hide Skipped;
  }

  lemma NothingSkipped()
    ensures SkippedLast([])
  {
  }

  lemma TextsOfStep(layout: seq<LineLayout>)
    requires layout != []
    ensures TextsOf(layout) == [layout[0].text] + TextsOf(layout[1..])
  {
  }

  lemma {:induction false} SurvivingAreTexts(texts: seq<string>)
    ensures forall t <- Surviving(texts) :: t in texts
  {
    hide Skipped;
    if texts != [] { SurvivingAreTexts(texts[1..]); }
  }

  /** A skipped line gets the next surviving text, which differs from it, if there is one. */
  lemma SkippedFirst(l: LineLayout, rest: seq<LineLayout>, later: seq<string>, survivors: seq<string>)
    requires GoodLayout([l] + rest) && l.translatable && Skipped(l.text)
    requires later == Translatable(rest) && survivors == Surviving(later)
    ensures RejoinedLines(survivors, [l] + rest) == [l.text] + TextsOf(rest) <==> survivors == []
  {
    hide Skipped, NormalizedLine;
    var layout := [l] + rest;
    assert layout[1..] == rest;
    if survivors == [] {
      NoTranslations(rest);
    } else {
      SurvivingFirst(later);
      SurvivingAreTexts(later);
      assert GoodLayout(rest) by { assert forall x <- rest :: x in layout; }
      GoodTexts(rest);
      assert survivors[0] in survivors && survivors[0] in later;
      NormalizedSame(survivors[0]);
      assert RejoinedLines(survivors, layout)[0] == survivors[0] != l.text;
    }
  }

  lemma {:induction false} NoTranslations(layout: seq<LineLayout>)
    requires GoodLayout(layout)
    ensures RejoinedLines([], layout) == TextsOf(layout)
  {
    if layout != [] {
      assert layout[0] in layout;
      NoTranslations(layout[1..]);
      TextsOfStep(layout);
    }
  }

  /** The texts of the lines that are not blank. */
  function Spoken(text: string): seq<string> {
    Translatable(LayoutOf(text))
  }

  /** A translator that returns the subtitles it was given gives back the text with every line trimmed
      exactly when no line that is a number or has an arrow comes before a line that does not. */
  lemma IdentityTranslation(text: string)
    requires |Lines(UnixBreaks(text))| < MAX_INT64
    ensures var layout := LayoutOf(text);
            Rejoined(TranslatedCues(SyntheticSrt(layout)), layout) == Join(TrimEach(Lines(UnixBreaks(text))), "\n")
            <==> SkippedLast(Spoken(text))
  {
    hide Lines, RejoinedLines, TranslatedCues, SyntheticSrt, SkippedLast, Surviving, Join;
    var layout := LayoutOf(text);
    LayoutGood(text);
    SyntheticCues(layout);
    RejoinedSame(layout);
    assert TextsOf(layout) == TrimEach(Lines(UnixBreaks(text)));
    var cues := TranslatedCues(SyntheticSrt(layout));
    assert AllSaid(cues) by { CuesOfSrt(SyntheticSrt(layout)); }
    RejoinedKeeps(cues, layout);
    LinesOfJoin(RejoinedLines(cues, layout));
    forall t | t in TextsOf(layout) ensures '\n' !in t {
      var i :| 0 <= i < |layout| && layout[i].text == t;
      assert layout[i] in layout;
    }
    LinesOfJoin(TextsOf(layout));
  }

  lemma TwoLines()
    ensures Lines(UnixBreaks("12\nhello")) == ["12", "hello"]
  {
    var text := "12" + "\n" + "hello";
    assert text == "12\nhello";
    hide Lines;
    LinesCons("12", "hello");
    LinesOfLine("hello");
    hide ReplaceAll;
    ReplaceAbsent(text, "\r\n", "\n");
    ReplaceAbsent(text, "\r", "\n");
  }

  const TWELVE := LineLayout("12", true)
  const HELLO := LineLayout("hello", true)

  lemma TwoLineLayout()
    ensures LayoutOf("12\nhello") == [TWELVE, HELLO]
  {
    TwoLines();
    hide TrimSpace, Lines, UnixBreaks;
    TrimSame("12");
    TrimSame("hello");
    assert LineOf("12") == TWELVE && LineOf("hello") == HELLO;
  }

  lemma TwelveSkipped()
    ensures Skipped("12") && !Skipped("hello")
  {
    assert "12"[..1] == "1" && "1"[..0] == "";
    assert DigitsValue("1") == 1 && DigitsValue("12") == 12;
    AtoiDigits("12");
    assert (" --> ")[0] == ' ';
    SrtRoundTrip.ContainsLacks("hello", " --> ");
    assert 'h' in "hello";
  }

  lemma OneSurvives()
    ensures Surviving(Translatable([TWELVE, HELLO])) == ["hello"]
  {
    TwelveSkipped();
    hide Skipped;
    assert [TWELVE, HELLO][1..] == [HELLO] && [HELLO][1..] == [];
    assert Translatable([HELLO]) == ["hello"] && Translatable([TWELVE, HELLO]) == ["12", "hello"];
    assert ["12", "hello"][1..] == ["hello"] && ["hello"][1..] == [];
    assert Surviving(["hello"]) == ["hello"];
  }

  lemma TwiceHello()
    ensures Rejoined(["hello"], [TWELVE, HELLO]) == "hello\nhello"
  {
    hide NormalizedLine;
    assert [TWELVE, HELLO][1..] == [HELLO] && [HELLO][1..] == [] && ["hello"][1..] == [];
    NormalizedSame("hello");
    assert RejoinedLines([], [HELLO]) == ["hello"];
    assert RejoinedLines(["hello"], [TWELVE, HELLO]) == ["hello", "hello"];
    assert ["hello", "hello"][1..] == ["hello"];
    assert "hello" + "\n" + "hello" == "hello\nhello";
  }

  /** Under a translator that changes nothing the lines "12" and "hello" become "hello" twice. */
  lemma NumberLineIsReplaced()
    ensures var layout := LayoutOf("12\nhello");
            Rejoined(TranslatedCues(SyntheticSrt(layout)), layout) == "hello\nhello"
  {
    hide Lines, TranslatedCues, SyntheticSrt, Skipped, Rejoined, LayoutOf, Surviving, Translatable;
    TwoLineLayout();
    LayoutGood("12\nhello");
    SyntheticCues([TWELVE, HELLO]);
    OneSurvives();
    TwiceHello();
  }
}
