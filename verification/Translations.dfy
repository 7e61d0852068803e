/** What becomes of a translator's subtitles (internal/jobs/runner_translate.go): each cue text arrives
    whole, as one line, in the place of the line it translates. */
module Translations {
  import opened Text
  import opened Numbers
  import opened Chunking
  import opened Wrapping
  import opened TidyText
  import opened LineWidths
  import opened PlainText
  import opened PlainTextFacts
  import Srt
  import SrtRoundTrip

  // ---------------------------------------------------------------- one line

  lemma {:induction false} FieldsKept(lines: seq<string>)
    ensures AllFields(Srt.Kept(lines)) == AllFields(lines)
  {
    hide Fields, TrimSpace;
    if lines != [] {
      FieldsKept(lines[1..]);
      FieldsTrim(lines[0]);
      if TrimSpace(lines[0]) == "" {
        NoFieldsBlank("");
        NothingBlank();
        assert [] + Srt.Kept(lines[1..]) == Srt.Kept(lines[1..]);
      } else {
        AllFieldsConcat([TrimSpace(lines[0])], Srt.Kept(lines[1..]));
        OneText(TrimSpace(lines[0]));
      }
    }
  }

  lemma LineBreaksBlank()
    ensures Blank(GoSpace, "\r\n") && Blank(GoSpace, "\r") && Blank(GoSpace, "\n") && Blank(GoSpace, " ")
  {
  }

  lemma UnixFields(text: string)
    ensures Fields(UnixBreaks(text)) == Fields(text)
  {
    hide Fields, Blank, ReplaceAll;
    LineBreaksBlank();
    FieldsReplace(text, "\r\n", "\n");
    FieldsReplace(ReplaceAll(text, "\r\n", "\n"), "\r", "\n");
  }

  /** Making a text one line keeps its words: none is glued to the next. */
  lemma FieldsNormalizedLine(text: string)
    ensures Fields(NormalizedLine(text)) == Fields(text)
  {
    hide Fields, Blank, UnixBreaks, Srt.Kept, AllFields, Join, TrimSpace;
    var lines := Lines(UnixBreaks(text));
    LineBreaksBlank();
    UnixFields(text);
    JoinLines(UnixBreaks(text));
    FieldsJoin(lines, "\n");
    FieldsKept(lines);
    FieldsJoin(Srt.Kept(lines), " ");
    FieldsTrim(Join(Srt.Kept(lines), " "));
  }

  /** The lines of a cue as a translator writes them: none blank, none taken for a number or a timing line. */
  predicate SaidLines(lines: seq<string>) {
    lines != []
    && forall line <- lines ::
         line != "" && Text.Trimmed(GoSpace, line) && '\n' !in line && '\r' !in line && !Skipped(line)
  }

  /** The lines of a cue are put behind each other with one blank between. */
  lemma NormalizedOfLines(lines: seq<string>)
    requires SaidLines(lines)
    ensures NormalizedLine(Join(lines, "\n")) == Join(lines, " ")
  {
    hide Skipped;
    var text := Join(lines, "\n");
    assert lines[0] in lines && lines[|lines| - 1] in lines;
    JoinChars(lines, "\n", '\r');
    ReplaceAbsent(text, "\r\n", "\n");
    ReplaceAbsent(text, "\r", "\n");
    LinesOfJoin(lines);
    SrtRoundTrip.KeptFull(lines);
    JoinEnds(lines, " ");
    TrimSame(Join(lines, " "));
  }

  // ---------------------------------------------------------------- a translator's subtitles

  /** Subtitles with these cue texts, the first cue with index `cue`. */
  function PrintedCues(texts: seq<seq<string>>, cue: nat): seq<string>
    decreases texts
  {
    if texts == [] then [] else [Decimal(cue + 1), TimingLine(cue)] + texts[0] + [""] + PrintedCues(texts[1..], cue + 1)
  }

  function JoinedTexts(texts: seq<seq<string>>): seq<string> {
    if texts == [] then [] else [Join(texts[0], "\n")] + JoinedTexts(texts[1..])
  }

  predicate AllSaidLines(texts: seq<seq<string>>) {
    forall lines <- texts :: SaidLines(lines)
  }

  lemma {:induction false} LinesCollected(current: seq<string>, lines: seq<string>, rest: seq<string>)
    requires lines == [] || SaidLines(lines)
    ensures CollectedCues(current, lines + rest) == CollectedCues(current + lines, rest)
    decreases lines
  {
    hide Skipped, CollectedCues, TrimSpace;
    if lines == [] {
      assert lines + rest == rest && current + lines == current;
    } else {
      assert lines[0] in lines && forall x <- lines[1..] :: x in lines;
      TrimSame(lines[0]);
      assert (lines + rest)[1..] == lines[1..] + rest;
      CollectTakes(current, lines + rest);
      LinesCollected(current + [lines[0]], lines[1..], rest);
      assert current + [lines[0]] + lines[1..] == current + lines;
    }
  }

  lemma OneCueCollected(lines: seq<string>, cue: nat, rest: seq<string>)
    requires cue + 1 <= MAX_INT64 && SaidLines(lines)
    ensures CollectedCues([], [Decimal(cue + 1), TimingLine(cue)] + lines + [""] + rest)
         == [Join(lines, "\n")] + CollectedCues([], rest)
  {
    hide Skipped, TimingLine, Decimal, TrimSpace, CollectedCues;
    var all := [Decimal(cue + 1), TimingLine(cue)] + lines + [""] + rest;
    NumberSkipped(cue + 1);
    TimingSkipped(cue);
    TrimSame("");
    assert all[1..] == [TimingLine(cue)] + (lines + ([""] + rest));
    assert all[1..][1..] == lines + ([""] + rest);
    CollectSkips([], all);
    CollectSkips([], all[1..]);
    LinesCollected([], lines, [""] + rest);
    assert [] + lines == lines && ([""] + rest)[1..] == rest;
    CollectBlank(lines, [""] + rest);
  }

  lemma {:induction false} PrintedCollected(texts: seq<seq<string>>, cue: nat)
    requires AllSaidLines(texts) && cue + |texts| <= MAX_INT64
    ensures CollectedCues([], PrintedCues(texts, cue) + [""]) == JoinedTexts(texts)
    decreases texts
  {
    hide SaidLines, CollectedCues, TimingLine, Decimal, Join;
    if texts == [] {
      assert PrintedCues(texts, cue) + [""] == [""];
      CollectedNothing();
    } else {
      assert texts[0] in texts && forall x <- texts[1..] :: x in texts;
      PrintedCollected(texts[1..], cue + 1);
      OneCueCollected(texts[0], cue, PrintedCues(texts[1..], cue + 1) + [""]);
      assert PrintedCues(texts, cue) + [""]
          == [Decimal(cue + 1), TimingLine(cue)] + texts[0] + [""] + (PrintedCues(texts[1..], cue + 1) + [""]);
    }
  }

  lemma {:induction false} PrintedUnbroken(texts: seq<seq<string>>, cue: nat)
    requires AllSaidLines(texts)
    ensures forall line <- PrintedCues(texts, cue) :: '\n' !in line && '\r' !in line
    decreases texts
  {
    hide Skipped, TimingLine, Decimal;
    if texts != [] {
      assert texts[0] in texts && forall x <- texts[1..] :: x in texts;
      PrintedUnbroken(texts[1..], cue + 1);
      CueUnbroken("", cue);
      assert CueLines("", cue)[0] == Decimal(cue + 1) && CueLines("", cue)[1] == TimingLine(cue);
      assert Decimal(cue + 1) in CueLines("", cue) && TimingLine(cue) in CueLines("", cue);
    }
  }

  /** Every cue text of the translator's subtitles arrives whole and in order. */
  lemma TranslationsArrive(texts: seq<seq<string>>)
    requires AllSaidLines(texts) && |texts| <= MAX_INT64
    ensures TranslatedCues(Unlines(PrintedCues(texts, 0))) == JoinedTexts(texts)
  {
    hide CollectedCues, TranslatedCues, PrintedCues, JoinedTexts, SaidLines;
    PrintedUnbroken(texts, 0);
    CuesOfLines(PrintedCues(texts, 0));
    PrintedCollected(texts, 0);
  }

  // ---------------------------------------------------------------- in the place of the lines

  /** The line of the output in the place of line `i`: blank where that is, else its translation as long
      as there is one, else itself. */
  function LineAt(texts: seq<seq<string>>, layout: seq<LineLayout>, i: nat): string
    requires i < |layout|
  {
    var k := |Translatable(layout[..i])|;
    if !layout[i].translatable then "" else if k < |texts| then Join(texts[k], " ") else layout[i].text
  }

  lemma LineAtFirst(texts: seq<seq<string>>, layout: seq<LineLayout>)
    requires layout != []
    ensures LineAt(texts, layout, 0)
         == if !layout[0].translatable then "" else if texts != [] then Join(texts[0], " ") else layout[0].text
  {
    assert layout[..0] == [];
  }

  lemma LineAtLater(texts: seq<seq<string>>, layout: seq<LineLayout>, i: nat)
    requires 0 < i < |layout|
    ensures LineAt(texts, layout, i)
         == LineAt(if layout[0].translatable && texts != [] then texts[1..] else texts, layout[1..], i - 1)
  {
    hide Join;
    var rest := layout[1..];
    assert layout[..i][0] == layout[0] && layout[..i][1..] == rest[..i - 1];
    var first := if layout[0].translatable then [layout[0].text] else [];
    assert Translatable(layout[..i]) == first + Translatable(rest[..i - 1]);
    assert rest[i - 1] == layout[i];
  }

  lemma {:induction false} RejoinedAt(texts: seq<seq<string>>, layout: seq<LineLayout>, i: nat)
    requires AllSaidLines(texts) && i < |layout|
    ensures |RejoinedLines(JoinedTexts(texts), layout)| == |layout|
    ensures RejoinedLines(JoinedTexts(texts), layout)[i] == LineAt(texts, layout, i)
    decreases layout
  {
    hide SaidLines, NormalizedLine, LineAt, Join;
    var rest := layout[1..];
    var left := if layout[0].translatable && texts != [] then texts[1..] else texts;
    LineAtFirst(texts, layout);
    if texts != [] {
      assert texts[0] in texts && forall x <- texts[1..] :: x in texts;
      NormalizedOfLines(texts[0]);
      assert JoinedTexts(texts)[1..] == JoinedTexts(texts[1..]);
    }
    assert RejoinedLines(JoinedTexts(texts), layout) == [LineAt(texts, layout, 0)] + RejoinedLines(JoinedTexts(left), rest);
    if rest == [] {
      assert RejoinedLines(JoinedTexts(left), rest) == [];
    } else {
      RejoinedAt(left, rest, if i == 0 then 0 else i - 1);
      if i > 0 { LineAtLater(texts, layout, i); }
    }
  }

  /** From the text to the translator and back: line by line, the output has a blank line for a blank
      line, the translation for each line that has one, its lines with one blank between, and the line
      itself where the translator returned too few cues. */
  lemma TranslatedText(text: string, texts: seq<seq<string>>, i: nat)
    requires AllSaidLines(texts) && |texts| <= MAX_INT64 && i < |Lines(UnixBreaks(text))|
    ensures var layout := LayoutOf(text);
            var lines := RejoinedLines(TranslatedCues(Unlines(PrintedCues(texts, 0))), layout);
            && Rejoined(TranslatedCues(Unlines(PrintedCues(texts, 0))), layout) == Join(lines, "\n")
            && |lines| == |Lines(UnixBreaks(text))| && lines[i] == LineAt(texts, layout, i)
  {
    hide TranslatedCues, PrintedCues, JoinedTexts, SaidLines, RejoinedLines, LineAt, Join, Lines;
    TranslationsArrive(texts);
    RejoinedAt(texts, LayoutOf(text), i);
  }
}
