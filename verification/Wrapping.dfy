/** Normalising, chunking and wrapping cue text (internal/subtitle/refine.go, normalizeText in
    internal/subtitle/srt.go). */
module Wrapping {
  import opened Text
  import opened Chunking

  // ---------------------------------------------------------------- normalizeText

  function UnixBreaks(text: string): string {
    ReplaceAll(ReplaceAll(text, "\r\n", "\n"), "\r", "\n")
  }

  function TrimEach(lines: seq<string>): seq<string> {
    seq(|lines|, i requires 0 <= i < |lines| => TrimSpace(lines[i]))
  }

  function Normalized(text: string): string {
    Join(TrimEach(Lines(TrimSpace(UnixBreaks(text)))), "\n")
  }

  method NormalizeText(text: string) returns (r: string)
    ensures r == Normalized(text)
  {
    var unix := ReplaceAll(text, "\r\n", "\n");
    unix := ReplaceAll(unix, "\r", "\n");
    var lines := Lines(TrimSpace(unix));
    ghost var before := lines;
    for i := 0 to |lines|
      invariant |lines| == |before|
      invariant forall k | 0 <= k < |lines| :: lines[k] == if k < i then TrimSpace(before[k]) else before[k]
    {
      lines := lines[i := TrimSpace(lines[i])];
    }
    assert lines == TrimEach(before);
    r := Join(lines, "\n");
  }

  // ---------------------------------------------------------------- wrapSubtitleText

  /** unicode.IsControl */
  predicate IsControl(c: char) {
    var n := c as int;
    n < 0x20 || 0x7F <= n <= 0x9F
  }

  /** plainLen: the characters that are not control characters. */
  function PlainLen(s: string): nat {
    if s == "" then 0 else (if IsControl(s[0]) then 0 else 1) + PlainLen(s[1..])
  }

  function OneLine(text: string): string {
    ReplaceAll(Normalized(text), "\n", " ")
  }

  /** The loop of wrapSubtitleText, with its merge branch. */
  function Rejoin(lines: seq<string>, parts: seq<string>, maxChars: nat): seq<string>
    decreases parts
  {
    if parts == [] then lines
    else if lines == [] || PlainLen(lines[|lines| - 1]) + 1 + PlainLen(parts[0]) > maxChars then
      Rejoin(lines + [parts[0]], parts[1..], maxChars)
    else
      Rejoin(lines[..|lines| - 1] + [lines[|lines| - 1] + " " + parts[0]], parts[1..], maxChars)
  }

  function WrappedLines(text: string, maxChars: nat): seq<string>
    requires maxChars > 0
  {
    Rejoin([], Chunks(OneLine(text), maxChars), maxChars)
  }

  function Wrapped(text: string, maxChars: nat): string
    requires maxChars > 0
  {
    Join(WrappedLines(text, maxChars), "\n")
  }

  method WrapSubtitleText(text: string, maxChars: nat) returns (r: string)
    requires maxChars > 0
    ensures r == Wrapped(text, maxChars)
  {
    var plain := NormalizeText(text);
    var parts := SplitChunk(ReplaceAll(plain, "\n", " "), maxChars);
    var lines := [];
    assert parts[0..] == parts;
    for i := 0 to |parts|
      invariant Rejoin(lines, parts[i..], maxChars) == WrappedLines(text, maxChars)
    {
      assert parts[i..][1..] == parts[i + 1..];
      if |lines| == 0 || PlainLen(lines[|lines| - 1]) + 1 + PlainLen(parts[i]) > maxChars {
        lines := lines + [parts[i]];
      } else {
        lines := lines[..|lines| - 1] + [lines[|lines| - 1] + " " + parts[i]];
      }
    }
    r := Join(lines, "\n");
  }

  // ---------------------------------------------------------------- textChunks

  /** What splitChunk makes of all paragraphs that are not empty. */
  function PartsOf(paragraphs: seq<string>, maxChars: nat): seq<string>
    requires maxChars > 0
  {
    if paragraphs == [] then []
    else (if paragraphs[0] == "" then [] else Chunks(paragraphs[0], maxChars)) + PartsOf(paragraphs[1..], maxChars)
  }

  function Stack(current: string, part: string): string {
    if current != "" then current + "\n" + part else part
  }

  /** The cues textChunks makes of the parts still to come, given its current cue. */
  function Group(current: string, parts: seq<string>, maxChars: nat): seq<string>
    decreases parts
  {
    if parts == [] then (if current != "" then [current] else [])
    else if PlainLen(Stack(current, parts[0])) > maxChars * 2 && current != "" then
      [current] + Group(parts[0], parts[1..], maxChars)
    else Group(Stack(current, parts[0]), parts[1..], maxChars)
  }

  function CueTexts(text: string, maxChars: nat): seq<string>
    requires maxChars > 0
  {
    if PlainLen(Normalized(text)) <= maxChars * 2 then [Normalized(text)]
    else Group("", PartsOf(Lines(Normalized(text)), maxChars), maxChars)
  }

  lemma GroupStep(chunks: seq<string>, current: string, parts: seq<string>, maxChars: nat)
    requires parts != []
    ensures chunks + Group(current, parts, maxChars)
         == if PlainLen(Stack(current, parts[0])) > maxChars * 2 && current != ""
            then chunks + [current] + Group(parts[0], parts[1..], maxChars)
            else chunks + Group(Stack(current, parts[0]), parts[1..], maxChars)
  {
    hide PlainLen, Stack;
    assert chunks + ([current] + Group(parts[0], parts[1..], maxChars))
        == chunks + [current] + Group(parts[0], parts[1..], maxChars);
  }

  lemma GroupEnd(chunks: seq<string>, current: string, maxChars: nat)
    ensures chunks + Group(current, [], maxChars) == if current != "" then chunks + [current] else chunks
  {
  }

  /** The inner loop of textChunks: the parts of one paragraph. */
  method GroupParts(before: seq<string>, start: string, parts: seq<string>, ghost later: seq<string>, maxChars: nat)
    returns (chunks: seq<string>, current: string)
    ensures chunks + Group(current, later, maxChars) == before + Group(start, parts + later, maxChars)
  {
    hide PlainLen, Group;
    chunks, current := before, start;
    assert parts[0..] == parts;
    for j := 0 to |parts|
      invariant chunks + Group(current, parts[j..] + later, maxChars) == before + Group(start, parts + later, maxChars)
    {
      assert (parts[j..] + later)[1..] == parts[j + 1..] + later && (parts[j..] + later)[0] == parts[j];
      GroupStep(chunks, current, parts[j..] + later, maxChars);
      var candidate := parts[j];
      if current != "" {
        candidate := current + "\n" + parts[j];
      }
      if PlainLen(candidate) > maxChars * 2 && current != "" {
        chunks := chunks + [current];
        current := parts[j];
      } else {
        current := candidate;
      }
    }
    assert parts[|parts|..] + later == later;
  }

  method TextChunks(text: string, maxChars: nat) returns (chunks: seq<string>)
    requires maxChars > 0
    ensures chunks == CueTexts(text, maxChars)
  {
    hide PlainLen, Normalized, Chunks, Lines, Group;
    var normalized := NormalizeText(text);
    if PlainLen(normalized) <= maxChars * 2 {
      return [normalized];
    }
    var paragraphs := Lines(normalized);
    chunks := [];
    var current := "";
    ghost var all := Group("", PartsOf(paragraphs, maxChars), maxChars);
    assert paragraphs[0..] == paragraphs && [] + all == all;
    for i := 0 to |paragraphs|
      invariant chunks + Group(current, PartsOf(paragraphs[i..], maxChars), maxChars) == all
    {
      ghost var later := PartsOf(paragraphs[i + 1..], maxChars);
      assert paragraphs[i..][1..] == paragraphs[i + 1..];
      if paragraphs[i] == "" {
        assert [] + later == later;
        continue;
      }
      var parts := SplitChunk(paragraphs[i], maxChars);
      chunks, current := GroupParts(chunks, current, parts, later, maxChars);
    }
    assert paragraphs[|paragraphs|..] == [];
    GroupEnd(chunks, current, maxChars);
    if current != "" {
      chunks := chunks + [current];
    }
  }

  // ---------------------------------------------------------------- text is conserved

  lemma {:induction false} SqueezeTrimEach(lines: seq<string>)
    ensures SqueezeAll(TrimEach(lines)) == SqueezeAll(lines)
  {
    if lines != [] {
      SqueezeTrimEach(lines[1..]);
      SqueezeTrim(lines[0]);
      assert TrimEach(lines)[1..] == TrimEach(lines[1..]);
    }
  }

  lemma SqueezeNormalized(text: string)
    ensures Squeeze(Normalized(text)) == Squeeze(text)
  {
    var unix := UnixBreaks(text);
    SqueezeReplace(text, "\r\n", "\n");
    SqueezeReplace(ReplaceAll(text, "\r\n", "\n"), "\r", "\n");
    SqueezeTrim(unix);
    var lines := Lines(TrimSpace(unix));
    JoinLines(TrimSpace(unix));
    SqueezeJoin(lines, "\n");
    SqueezeTrimEach(lines);
    SqueezeJoin(TrimEach(lines), "\n");
  }

  lemma SqueezeOneLine(text: string)
    ensures Squeeze(OneLine(text)) == Squeeze(text)
  {
    SqueezeNormalized(text);
    SqueezeReplace(Normalized(text), "\n", " ");
  }

  lemma SqueezeGlue(a: string, sep: string, b: string)
    requires Blank(GoSpace, sep)
    ensures Squeeze(a + sep + b) == Squeeze(a) + Squeeze(b)
  {
    SqueezeConcat(a + sep, b);
    SqueezeConcat(a, sep);
    SqueezeBlank(sep);
  }

  lemma SqueezeFirst(first: string, rest: seq<string>)
    ensures SqueezeAll([first] + rest) == Squeeze(first) + SqueezeAll(rest)
  {
    assert ([first] + rest)[1..] == rest;
  }

  lemma SqueezeWiden(current: string, word: string)
    ensures Squeeze(Widen(current, word)) == Squeeze(current) + Squeeze(word)
  {
    hide Squeeze;
    SqueezeGlue(current, " ", word);
    SqueezeBlank("");
  }

  lemma {:induction false} SqueezePack(current: string, words: seq<string>, maxChars: nat)
    ensures SqueezeAll(Pack(current, words, maxChars)) == Squeeze(current) + SqueezeAll(words)
    decreases words
  {
    hide Squeeze, Pack, Widen;
    if words == [] {
      PackEnd(current, maxChars);
      SqueezeFirst(current, []);
      SqueezeBlank("");
    } else {
      var w, rest := words[0], words[1..];
      PackOne(current, words, maxChars);
      SqueezeWiden(current, w);
      if |Widen(current, w)| > maxChars && current != "" {
        SqueezePack(w, rest, maxChars);
        SqueezeFirst(current, Pack(w, rest, maxChars));
      } else {
        SqueezePack(Widen(current, w), rest, maxChars);
      }
      assert Squeeze(current) + (Squeeze(w) + SqueezeAll(rest)) == (Squeeze(current) + Squeeze(w)) + SqueezeAll(rest);
    }
  }

  lemma {:induction false} SqueezeSlices(s: string, maxChars: nat)
    requires maxChars > 0
    ensures SqueezeAll(Slices(s, maxChars)) == Squeeze(s)
    decreases |s|
  {
    if |s| > maxChars {
      SqueezeSlices(s[maxChars..], maxChars);
      SqueezeConcat(s[..maxChars], s[maxChars..]);
      assert s == s[..maxChars] + s[maxChars..];
      assert Slices(s, maxChars)[1..] == Slices(s[maxChars..], maxChars);
    } else if s != "" {
      assert [s][1..] == [];
    }
  }

  lemma SqueezeChunks(text: string, maxChars: nat)
    requires maxChars > 0
    ensures SqueezeAll(Chunks(text, maxChars)) == Squeeze(text)
  {
    SqueezeFields(text);
    SqueezePack("", Fields(text), maxChars);
    SqueezeSlices(text, maxChars);
  }

  lemma SqueezeOne(part: string)
    ensures SqueezeAll([part]) == Squeeze(part)
  {
    assert [part][1..] == [] && SqueezeAll([]) == "";
  }

  lemma SqueezeMerged(init: seq<string>, last: string, part: string)
    ensures SqueezeAll(init + [last + " " + part]) == SqueezeAll(init + [last]) + Squeeze(part)
  {
    hide Squeeze, SqueezeAll;
    SqueezeAllConcat(init, [last + " " + part]);
    SqueezeAllConcat(init, [last]);
    SqueezeGlue(last, " ", part);
    SqueezeOne(last + " " + part);
    SqueezeOne(last);
    assert SqueezeAll(init) + (Squeeze(last) + Squeeze(part)) == SqueezeAll(init) + Squeeze(last) + Squeeze(part);
  }

  lemma RejoinStep(lines: seq<string>, parts: seq<string>, maxChars: nat)
    requires parts != []
    ensures Rejoin(lines, parts, maxChars)
         == if lines == [] || PlainLen(lines[|lines| - 1]) + 1 + PlainLen(parts[0]) > maxChars
            then Rejoin(lines + [parts[0]], parts[1..], maxChars)
            else Rejoin(lines[..|lines| - 1] + [lines[|lines| - 1] + " " + parts[0]], parts[1..], maxChars)
  {
    hide PlainLen;
  }

  lemma {:induction false} SqueezeRejoin(lines: seq<string>, parts: seq<string>, maxChars: nat)
    ensures SqueezeAll(Rejoin(lines, parts, maxChars)) == SqueezeAll(lines) + SqueezeAll(parts)
    decreases parts
  {
    hide Squeeze, PlainLen;
    if parts != [] {
      var p, rest := parts[0], parts[1..];
      RejoinStep(lines, parts, maxChars);
      hide Rejoin;
      assert SqueezeAll(parts) == Squeeze(p) + SqueezeAll(rest);
      hide SqueezeAll;
      if lines == [] || PlainLen(lines[|lines| - 1]) + 1 + PlainLen(p) > maxChars {
        SqueezeRejoin(lines + [p], rest, maxChars);
        SqueezeAllConcat(lines, [p]);
        SqueezeOne(p);
      } else {
        var init, last := lines[..|lines| - 1], lines[|lines| - 1];
        SqueezeRejoin(init + [last + " " + p], rest, maxChars);
        SqueezeMerged(init, last, p);
        assert lines == init + [last];
      }
      assert SqueezeAll(lines) + (Squeeze(p) + SqueezeAll(rest)) == (SqueezeAll(lines) + Squeeze(p)) + SqueezeAll(rest);
    }
  }

  /** Wrapping changes nothing but white space. */
  lemma SqueezeWrapped(text: string, maxChars: nat)
    requires maxChars > 0
    ensures Squeeze(Wrapped(text, maxChars)) == Squeeze(text)
  {
    SqueezeOneLine(text);
    SqueezeChunks(OneLine(text), maxChars);
    SqueezeRejoin([], Chunks(OneLine(text), maxChars), maxChars);
    SqueezeJoin(WrappedLines(text, maxChars), "\n");
  }

  lemma {:induction false} SqueezeParts(paragraphs: seq<string>, maxChars: nat)
    requires maxChars > 0
    ensures SqueezeAll(PartsOf(paragraphs, maxChars)) == SqueezeAll(paragraphs)
  {
    if paragraphs != [] {
      SqueezeParts(paragraphs[1..], maxChars);
      SqueezeChunks(paragraphs[0], maxChars);
      var first := if paragraphs[0] == "" then [] else Chunks(paragraphs[0], maxChars);
      SqueezeAllConcat(first, PartsOf(paragraphs[1..], maxChars));
    }
  }

  lemma {:induction false} SqueezeGroup(current: string, parts: seq<string>, maxChars: nat)
    ensures SqueezeAll(Group(current, parts, maxChars)) == Squeeze(current) + SqueezeAll(parts)
    decreases parts
  {
    hide Squeeze, PlainLen;
    if parts == [] {
      SqueezeFirst(current, []);
      SqueezeBlank("");
    } else {
      var p, rest := parts[0], parts[1..];
      SqueezeGlue(current, "\n", p);
      SqueezeBlank("");
      if PlainLen(Stack(current, p)) > maxChars * 2 && current != "" {
        SqueezeGroup(p, rest, maxChars);
        SqueezeFirst(current, Group(p, rest, maxChars));
      } else {
        SqueezeGroup(Stack(current, p), rest, maxChars);
      }
      assert Squeeze(current) + (Squeeze(p) + SqueezeAll(rest)) == (Squeeze(current) + Squeeze(p)) + SqueezeAll(rest);
    }
  }

  /** Cutting a text into cues changes nothing but white space. */
  lemma SqueezeCueTexts(text: string, maxChars: nat)
    requires maxChars > 0
    ensures SqueezeAll(CueTexts(text, maxChars)) == Squeeze(text)
  {
    hide Squeeze, SqueezeAll, PlainLen, Normalized, Group, PartsOf, Lines;
    var normalized := Normalized(text);
    SqueezeNormalized(text);
    JoinLines(normalized);
    SqueezeJoin(Lines(normalized), "\n");
    SqueezeParts(Lines(normalized), maxChars);
    SqueezeGroup("", PartsOf(Lines(normalized), maxChars), maxChars);
    SqueezeOne(normalized);
    SqueezeBlank("");
  }
}
