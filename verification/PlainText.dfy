/** Translating plain text through subtitles (internal/jobs/runner_translate.go): each line becomes a
    cue, and the translated cues become lines again. */
module PlainText {
  import opened Text
  import opened Numbers
  import opened Wrapping
  import Srt

  datatype LineLayout = LineLayout(text: string, translatable: bool)

  function LineOf(line: string): LineLayout {
    LineLayout(TrimSpace(line), TrimSpace(line) != "")
  }

  function LayoutOf(text: string): seq<LineLayout> {
    var lines := Lines(UnixBreaks(text));
    seq(|lines|, i requires 0 <= i < |lines| => LineOf(lines[i]))
  }

  method PlainTextLayout(text: string) returns (layout: seq<LineLayout>)
    ensures layout == LayoutOf(text)
  {
    var unix := ReplaceAll(text, "\r\n", "\n");
    unix := ReplaceAll(unix, "\r", "\n");
    var lines := Lines(unix);
    layout := [];
    for i := 0 to |lines|
      invariant |layout| == i && forall k | 0 <= k < i :: layout[k] == LineOf(lines[k])
    {
      var trimmed := TrimSpace(lines[i]);
      layout := layout + [LineLayout(trimmed, trimmed != "")];
    }
  }

  // ---------------------------------------------------------------- the synthetic subtitles

  function SrtTimestamp(seconds: nat): string {
    Srt.Clock(seconds / 3600, seconds % 3600 / 60, seconds % 60) + ",000"
  }

  function TimingLine(cue: nat): string {
    SrtTimestamp(cue * 2) + " --> " + SrtTimestamp(cue * 2 + 2)
  }

  function CueLines(text: string, cue: nat): seq<string> {
    [Decimal(cue + 1), TimingLine(cue), text, ""]
  }

  /** The lines of the cues of some lines, the first cue with index `cue`. */
  function SyntheticLines(layout: seq<LineLayout>, cue: nat): seq<string>
    decreases layout
  {
    if layout == [] then []
    else if !layout[0].translatable then SyntheticLines(layout[1..], cue)
    else CueLines(layout[0].text, cue) + SyntheticLines(layout[1..], cue + 1)
  }

  function Translatable(layout: seq<LineLayout>): seq<string> {
    if layout == [] then []
    else (if layout[0].translatable then [layout[0].text] else []) + Translatable(layout[1..])
  }

  function SyntheticSrt(layout: seq<LineLayout>): string {
    if Translatable(layout) == [] then Unlines(["1", TimingLine(0), "", ""])
    else Unlines(SyntheticLines(layout, 0))
  }

  lemma CueText(text: string, cue: nat)
    ensures Unlines(CueLines(text, cue)) == Decimal(cue + 1) + "\n" + TimingLine(cue) + "\n" + text + "\n\n"
  {
    hide Decimal, TimingLine;
    var a, b, c := [Decimal(cue + 1)], [TimingLine(cue)], [text];
    assert CueLines(text, cue) == a + (b + (c + [""]));
    OneLineText(Decimal(cue + 1));
    OneLineText(TimingLine(cue));
    OneLineText(text);
    OneLineText("");
    UnlinesConcat(a, b + (c + [""]));
    UnlinesConcat(b, c + [""]);
    UnlinesConcat(c, [""]);
    assert text + "\n" + ("" + "\n") == text + "\n\n";
  }

  lemma OneLineText(line: string)
    ensures Unlines([line]) == line + "\n"
  {
    assert [line][1..] == [] && Unlines([]) == "";
  }

  lemma SyntheticStep(out: string, layout: seq<LineLayout>, cue: nat)
    requires layout != [] && layout[0].translatable
    ensures out + Unlines(SyntheticLines(layout, cue))
         == out + (Decimal(cue + 1) + "\n" + TimingLine(cue) + "\n" + layout[0].text + "\n\n")
            + Unlines(SyntheticLines(layout[1..], cue + 1))
  {
    hide Decimal, TimingLine, CueLines, Unlines;
    UnlinesConcat(CueLines(layout[0].text, cue), SyntheticLines(layout[1..], cue + 1));
    CueText(layout[0].text, cue);
  }

  method PlainTextLayoutToSyntheticSrt(layout: seq<LineLayout>) returns (out: string)
    ensures out == SyntheticSrt(layout)
  {
    hide Decimal, SrtTimestamp, TimingLine, Unlines;
    out := "";
    var cueIndex := 0;
    assert layout[0..] == layout;
    for i := 0 to |layout|
      invariant cueIndex >= 0
      invariant out + Unlines(SyntheticLines(layout[i..], cueIndex)) == "" + Unlines(SyntheticLines(layout, 0))
      invariant Translatable(layout) == [] <==> cueIndex == 0 && Translatable(layout[i..]) == []
      invariant cueIndex == 0 ==> out == ""
    {
      assert layout[i..][1..] == layout[i + 1..];
      if !layout[i].translatable {
        continue;
      }
      var start := cueIndex * 2;
      var end := start + 2;
      SyntheticStep(out, layout[i..], cueIndex);
      TimingIs(cueIndex, start, end);
      out := out + (Decimal(cueIndex + 1) + "\n" + (SrtTimestamp(start) + " --> " + SrtTimestamp(end)) + "\n"
                    + layout[i].text + "\n\n");
      cueIndex := cueIndex + 1;
    }
    assert Unlines(SyntheticLines([], cueIndex)) == "" by { NothingSynthetic(cueIndex); }
    assert out + "" == out && "" + Unlines(SyntheticLines(layout, 0)) == Unlines(SyntheticLines(layout, 0));
    if cueIndex == 0 {
      EmptyCue();
      out := out + ("1\n" + SrtTimestamp(0) + " --> " + SrtTimestamp(2) + "\n\n\n");
    }
  }

  lemma TimingIs(cue: nat, start: nat, end: nat)
    requires start == cue * 2 && end == start + 2
    ensures SrtTimestamp(start) + " --> " + SrtTimestamp(end) == TimingLine(cue)
  {
  }

  lemma NothingSynthetic(cue: nat)
    ensures Unlines(SyntheticLines([], cue)) == ""
  {
  }

  lemma EmptyCue()
    ensures "" + ("1\n" + SrtTimestamp(0) + " --> " + SrtTimestamp(2) + "\n\n\n") == Unlines(["1", TimingLine(0), "", ""])
  {
    hide SrtTimestamp;
    var a, b := ["1"], [TimingLine(0)];
    assert ["1", TimingLine(0), "", ""] == a + (b + ([""] + [""]));
    OneLineText("1");
    OneLineText(TimingLine(0));
    OneLineText("");
    UnlinesConcat(a, b + ([""] + [""]));
    UnlinesConcat(b, [""] + [""]);
    UnlinesConcat([""], [""]);
    assert "1" + "\n" + (TimingLine(0) + "\n" + ("" + "\n" + ("" + "\n")))
        == "1\n" + SrtTimestamp(0) + " --> " + SrtTimestamp(2) + "\n\n\n";
  }

  // ---------------------------------------------------------------- the translated cues

  /** Lines that are taken for cue numbers or timing lines. */
  predicate Skipped(line: string) {
    Atoi(line).Some? || Contains(line, " --> ")
  }

  function Flushed(current: seq<string>): seq<string> {
    if current == [] then [] else [Join(current, "\n")]
  }

  /** The cue texts in the lines still to come, given the lines of the current cue. */
  function CollectedCues(current: seq<string>, lines: seq<string>): seq<string>
    decreases lines
  {
    if lines == [] then Flushed(current) else
    var trimmed := TrimSpace(lines[0]);
    if trimmed == "" then Flushed(current) + CollectedCues([], lines[1..])
    else if Skipped(trimmed) then CollectedCues(current, lines[1..])
    else CollectedCues(current + [trimmed], lines[1..])
  }

  function TranslatedCues(srt: string): seq<string> {
    CollectedCues([], Lines(UnixBreaks(srt)))
  }

  lemma CollectStep(blocks: seq<string>, current: seq<string>, lines: seq<string>)
    requires lines != []
    ensures var trimmed := TrimSpace(lines[0]);
            blocks + CollectedCues(current, lines)
              == if trimmed == "" then blocks + Flushed(current) + CollectedCues([], lines[1..])
                 else if Skipped(trimmed) then blocks + CollectedCues(current, lines[1..])
                 else blocks + CollectedCues(current + [trimmed], lines[1..])
  {
    hide TrimSpace, Skipped, Flushed;
    assert blocks + (Flushed(current) + CollectedCues([], lines[1..])) == blocks + Flushed(current) + CollectedCues([], lines[1..]);
  }

  lemma CollectEnd(current: seq<string>)
    ensures CollectedCues(current, []) == Flushed(current)
  {
  }

  method TranslatedSrtCueTexts(srt: string) returns (blocks: seq<string>)
    ensures blocks == TranslatedCues(srt)
  {
    hide Join, Contains, Atoi, TrimSpace, Lines, CollectedCues;
    var unix := ReplaceAll(srt, "\r\n", "\n");
    unix := ReplaceAll(unix, "\r", "\n");
    var lines := Lines(unix);
    blocks := [];
    var current := [];
    assert lines[0..] == lines && [] + CollectedCues([], lines) == CollectedCues([], lines);
    for i := 0 to |lines|
      invariant blocks + CollectedCues(current, lines[i..]) == TranslatedCues(srt)
    {
      assert lines[i..][1..] == lines[i + 1..];
      CollectStep(blocks, current, lines[i..]);
      var trimmed := TrimSpace(lines[i]);
      if trimmed == "" {
        if |current| > 0 {
          blocks := blocks + [Join(current, "\n")];
          current := [];
        } else {
          assert blocks + [] == blocks;
        }
        continue;
      }
      if Atoi(trimmed).Some? {
        continue;
      }
      if Contains(trimmed, " --> ") {
        continue;
      }
      current := current + [trimmed];
    }
    CollectEnd(current);
    if |current| > 0 {
      blocks := blocks + [Join(current, "\n")];
    }
  }

  // ---------------------------------------------------------------- the lines again

  function NormalizedLine(text: string): string {
    TrimSpace(Join(Srt.Kept(Lines(UnixBreaks(text))), " "))
  }

  method NormalizeTranslatedPlainTextLine(text: string) returns (line: string)
    ensures line == NormalizedLine(text)
  {
    hide Lines, Join, TrimSpace, Srt.Kept;
    var unix := ReplaceAll(text, "\r\n", "\n");
    unix := ReplaceAll(unix, "\r", "\n");
    var parts := Lines(unix);
    var normalized := [];
    assert parts[0..] == parts && [] + Srt.Kept(parts) == Srt.Kept(parts);
    for i := 0 to |parts|
      invariant normalized + Srt.Kept(parts[i..]) == Srt.Kept(parts)
    {
      assert parts[i..][1..] == parts[i + 1..];
      Srt.KeptStep(normalized, parts[i..]);
      var trimmed := TrimSpace(parts[i]);
      if trimmed == "" {
        continue;
      }
      normalized := normalized + [trimmed];
    }
    Srt.KeptNothing(normalized);
    line := TrimSpace(Join(normalized, " "));
  }

  /** One line for each line of the layout: a translation as long as there is one, else the line's own text. */
  function RejoinedLines(translations: seq<string>, layout: seq<LineLayout>): seq<string>
    decreases layout
  {
    if layout == [] then []
    else if !layout[0].translatable then [""] + RejoinedLines(translations, layout[1..])
    else if translations == [] then [layout[0].text] + RejoinedLines(translations, layout[1..])
    else [NormalizedLine(translations[0])] + RejoinedLines(translations[1..], layout[1..])
  }

  function Rejoined(translations: seq<string>, layout: seq<LineLayout>): string {
    if layout == [] then TrimSpace(Join(translations, "\n\n")) else Join(RejoinedLines(translations, layout), "\n")
  }

  lemma RejoinStep(lines: seq<string>, translations: seq<string>, layout: seq<LineLayout>)
    requires layout != []
    ensures lines + RejoinedLines(translations, layout)
         == if !layout[0].translatable then lines + [""] + RejoinedLines(translations, layout[1..])
            else if translations == [] then lines + [layout[0].text] + RejoinedLines(translations, layout[1..])
            else lines + [NormalizedLine(translations[0])] + RejoinedLines(translations[1..], layout[1..])
  {
    hide NormalizedLine;
  }

  lemma RejoinEnd(lines: seq<string>, translations: seq<string>)
    ensures lines + RejoinedLines(translations, []) == lines
  {
  }

  method TranslatedCueTextsToPlainText(translations: seq<string>, layout: seq<LineLayout>) returns (text: string)
    ensures text == Rejoined(translations, layout)
  {
    hide NormalizedLine, Join, RejoinedLines;
    if |layout| == 0 {
      return TrimSpace(Join(translations, "\n\n"));
    }
    var lines := [];
    var translationIndex := 0;
    ghost var all := RejoinedLines(translations, layout);
    assert layout[0..] == layout && translations[0..] == translations && [] + all == all;
    for i := 0 to |layout|
      invariant 0 <= translationIndex <= |translations|
      invariant lines + RejoinedLines(translations[translationIndex..], layout[i..]) == all
    {
      assert layout[i..][1..] == layout[i + 1..];
      RejoinStep(lines, translations[translationIndex..], layout[i..]);
      if !layout[i].translatable {
        lines := lines + [""];
        continue;
      }
      if translationIndex < |translations| {
        assert translations[translationIndex..][1..] == translations[translationIndex + 1..];
        var line := NormalizeTranslatedPlainTextLine(translations[translationIndex]);
        lines := lines + [line];
        translationIndex := translationIndex + 1;
        continue;
      }
      lines := lines + [layout[i].text];
    }
    RejoinEnd(lines, translations[translationIndex..]);
    text := Join(lines, "\n");
  }
}
