/** How wide the lines and cues are that splitChunk, wrapSubtitleText and textChunks make
    (internal/subtitle/refine.go), and that they keep the words apart. */
module LineWidths {
  import opened Text
  import opened Chunking
  import opened Wrapping
  import opened TidyText

  // ---------------------------------------------------------------- text of one word

  /** Pieces that are the text when they are put together, none empty, none wider than allowed, every one
      but the last as wide as allowed, and so as few as there can be. */
  ghost predicate CutEvery(pieces: seq<string>, text: string, maxChars: nat)
    requires maxChars > 0
  {
    && Join(pieces, "") == text
    && (forall i | 0 <= i < |pieces| :: 1 <= |pieces[i]| <= maxChars)
    && (forall i | 0 <= i < |pieces| - 1 :: |pieces[i]| == maxChars)
    && |pieces| == (|text| + maxChars - 1) / maxChars
  }

  lemma OneMorePiece(n: nat, maxChars: nat)
    requires maxChars > 0
    ensures (n + maxChars + maxChars - 1) / maxChars == (n + maxChars - 1) / maxChars + 1
  {
    Quotient(n + maxChars - 1, maxChars);
  }

  lemma Quotient(n: nat, d: nat)
    requires d > 0
    ensures (n + d) / d == n / d + 1
  {
    assert n == d * (n / d) + n % d;
    QuotientIs(n + d, d, n / d + 1, n % d);
  }

  lemma QuotientIs(n: nat, d: nat, q: nat, r: nat)
    requires d > 0 && n == d * q + r && r < d
    ensures n / d == q
  {
    assert d * (n / d) + n % d == n;
    assert d * (n / d - q) == d * (n / d) - d * q;
    SmallMultiple(d, n / d - q);
  }

  lemma SmallMultiple(d: int, e: int)
    requires -d < d * e < d
    ensures e == 0
  {
    if e >= 1 { Larger(d, e); } else if e <= -1 { Larger(d, -e); }
  }

  lemma Larger(d: int, e: int)
    requires d > 0 && e >= 1
    ensures d * e >= d && d * -e == -(d * e)
  {
  }

  lemma FewCharacters(n: nat, maxChars: nat)
    requires 0 < n <= maxChars
    ensures (n + maxChars - 1) / maxChars == 1
  {
    QuotientIs(n + maxChars - 1, maxChars, 1, n - 1);
  }

  lemma NoCharacters(maxChars: nat)
    requires maxChars > 0
    ensures (0 + maxChars - 1) / maxChars == 0
  {
    QuotientIs(maxChars - 1, maxChars, 0, maxChars - 1);
  }

  lemma JoinFirst(first: string, rest: seq<string>)
    ensures Join([first] + rest, "") == first + Join(rest, "")
  {
    var parts := [first] + rest;
    assert parts[1..] == rest && parts[0] == first;
    if rest == [] { assert first + "" == first; } else { assert first + "" + Join(rest, "") == first + Join(rest, ""); }
  }

  lemma {:induction false} SlicesCut(s: string, maxChars: nat)
    requires maxChars > 0
    ensures CutEvery(Slices(s, maxChars), s, maxChars)
    decreases |s|
  {
    if |s| == 0 {
      NoCharacters(maxChars);
    } else if |s| <= maxChars {
      FewCharacters(|s|, maxChars);
    } else {
      var first, rest := s[..maxChars], s[maxChars..];
      var later := Slices(rest, maxChars);
      SlicesCut(rest, maxChars);
      JoinFirst(first, later);
      assert s == first + rest;
      OneMorePiece(|rest|, maxChars);
      var all := [first] + later;
      assert forall i | 1 <= i < |all| :: all[i] == later[i - 1];
      assert Join([], "") == "" && rest != "";
    }
  }

  /** A text of at most one word, as Chinese and Japanese text is, is cut every maxChars characters. */
  lemma ChunksOfOneWord(text: string, maxChars: nat)
    requires maxChars > 0 && |Fields(text)| <= 1
    ensures CutEvery(Chunks(text, maxChars), text, maxChars)
  {
    SlicesCut(text, maxChars);
  }

  /** Wrapping such a text, if it has no control characters, cuts its word every maxChars characters. */
  lemma WrappedOneWord(text: string, maxChars: nat)
    requires maxChars > 0 && Plain(text) && |Fields(text)| <= 1
    ensures CutEvery(WrappedLines(text, maxChars), if Fields(text) == [] then "" else Fields(text)[0], maxChars)
  {
    FieldsOneLine(text);
    MergeNeverTaken(text, maxChars);
    ChunksOfOneWord(OneLine(text), maxChars);
    OneLineTrimmed(text);
    NoFieldsBlank(text);
    if Fields(text) != [] { LoneField(OneLine(text)); }
  }

  lemma LoneField(s: string)
    requires Text.Trimmed(GoSpace, s) && |Fields(s)| == 1
    ensures Fields(s) == [s]
  {
    OneField(s);
    NoFieldsBlank(s);
    FieldsWord(s, "");
    assert s + "" == s;
  }

  // ---------------------------------------------------------------- counted characters

  /** plainLen counts the characters that are not control characters: one by one, and text by text. */
  lemma PlainLenCounts(a: string, b: string, c: char)
    ensures PlainLen("") == 0 && PlainLen([c]) == (if IsControl(c) then 0 else 1)
    ensures PlainLen(a + b) == PlainLen(a) + PlainLen(b)
  {
    PlainLenConcat(a, b);
    assert [c][1..] == "";
  }

  lemma {:induction false} PlainLenConcat(a: string, b: string)
    ensures PlainLen(a + b) == PlainLen(a) + PlainLen(b)
  {
    if a == "" { assert a + b == b; } else {
      assert (a + b)[1..] == a[1..] + b;
      PlainLenConcat(a[1..], b);
    }
  }

  lemma {:induction false} PlainLenAtMost(s: string)
    ensures PlainLen(s) <= |s|
  {
    if s != "" { PlainLenAtMost(s[1..]); }
  }

  lemma PlainLenGlue(a: string, sep: string, b: string)
    requires sep == " " || sep == "\n"
    ensures PlainLen(a + sep + b) == PlainLen(a) + (if sep == " " then 1 else 0) + PlainLen(b)
  {
    PlainLenConcat(a + sep, b);
    PlainLenConcat(a, sep);
    assert PlainLen(sep) == (if sep == " " then 1 else 0) by { assert sep[1..] == ""; }
  }

  // ---------------------------------------------------------------- lines

  lemma {:induction false} PackWidth(current: string, words: seq<string>, maxChars: nat)
    requires AllWords(words) && (current == "" || |current| <= maxChars || IsWord(current))
    ensures forall line <- Pack(current, words, maxChars) :: |line| <= maxChars || IsWord(line)
    decreases words
  {
    if words != [] {
      assert words[0] in words;
      if |Widen(current, words[0])| > maxChars && current != "" {
        PackWidth(words[0], words[1..], maxChars);
      } else {
        PackWidth(Widen(current, words[0]), words[1..], maxChars);
      }
    }
  }

  /** No line of splitChunk is wider than allowed, unless it is one of several words. */
  lemma ChunksWidth(text: string, maxChars: nat)
    requires maxChars > 0
    ensures forall line <- Chunks(text, maxChars) :: |line| <= maxChars || (|Fields(text)| > 1 && IsWord(line))
  {
    FieldsAreWords(text);
    if |Fields(text)| > 1 {
      PackWidth("", Fields(text), maxChars);
    } else {
      SlicesCut(text, maxChars);
    }
  }

  /** Not wider than allowed, or one word where those are let through. */
  predicate Narrow(line: string, width: nat, words: bool) {
    PlainLen(line) <= width || (words && IsWord(line))
  }

  predicate AllNarrow(lines: seq<string>, width: nat, words: bool) {
    forall line <- lines :: Narrow(line, width, words)
  }

  lemma {:induction false} RejoinWidth(lines: seq<string>, parts: seq<string>, maxChars: nat, words: bool)
    requires AllNarrow(lines, maxChars, words) && AllNarrow(parts, maxChars, words)
    ensures AllNarrow(Rejoin(lines, parts, maxChars), maxChars, words)
    decreases parts
  {
    hide PlainLen, IsWord;
    if parts != [] {
      assert parts[0] in parts;
      if lines == [] || PlainLen(lines[|lines| - 1]) + 1 + PlainLen(parts[0]) > maxChars {
        RejoinWidth(lines + [parts[0]], parts[1..], maxChars, words);
      } else {
        PlainLenGlue(lines[|lines| - 1], " ", parts[0]);
        RejoinWidth(lines[..|lines| - 1] + [lines[|lines| - 1] + " " + parts[0]], parts[1..], maxChars, words);
      }
    }
  }

  /** No wrapped line is wider than allowed, unless it is one of several words. */
  lemma WrappedWidth(text: string, maxChars: nat)
    requires maxChars > 0
    ensures forall line <- WrappedLines(text, maxChars) ::
              PlainLen(line) <= maxChars || (|Fields(text)| > 1 && IsWord(line))
  {
    hide PlainLen, IsWord;
    var parts, words := Chunks(OneLine(text), maxChars), |Fields(text)| > 1;
    FieldsOneLine(text);
    ChunksWidth(OneLine(text), maxChars);
    forall p | p in parts ensures Narrow(p, maxChars, words) { PlainLenAtMost(p); }
    RejoinWidth([], parts, maxChars, words);
  }

  // ---------------------------------------------------------------- the words stay apart

  /** The words of some texts, one text after the other. */
  function AllFields(texts: seq<string>): seq<string> {
    if texts == [] then [] else Fields(texts[0]) + AllFields(texts[1..])
  }

  lemma {:induction false} AllFieldsConcat(a: seq<string>, b: seq<string>)
    ensures AllFields(a + b) == AllFields(a) + AllFields(b)
  {
    hide Fields;
    if a == [] { assert a + b == b; } else {
      assert (a + b)[1..] == a[1..] + b;
      AllFieldsConcat(a[1..], b);
    }
  }

  lemma FieldsGlue(a: string, sep: string, b: string)
    requires sep != "" && Blank(GoSpace, sep)
    ensures Fields(a + sep + b) == Fields(a) + Fields(b)
  {
    hide Fields, GoSpace;
    BlankEnds(sep);
    FieldsConcat(a, sep);
    FieldsConcat(a + sep, b);
    NoFieldsBlank(sep);
    assert Fields(a) + [] == Fields(a);
  }

  /** Text joined with white space has the words of its parts. */
  lemma {:induction false} FieldsJoin(parts: seq<string>, sep: string)
    requires sep != "" && Blank(GoSpace, sep)
    ensures Fields(Join(parts, sep)) == AllFields(parts)
  {
    hide Fields, Blank;
    if parts == [] {
      NoFieldsBlank("");
      assert Blank(GoSpace, "") by { NothingBlank(); }
    } else if |parts| == 1 {
      assert parts[1..] == [] && AllFields([]) == [] && Fields(parts[0]) + [] == Fields(parts[0]);
    } else {
      FieldsJoin(parts[1..], sep);
      FieldsGlue(parts[0], sep, Join(parts[1..], sep));
    }
  }

  lemma NothingBlank()
    ensures Blank(GoSpace, "")
  {
  }

  lemma FieldsOfWord(w: string)
    requires IsWord(w)
    ensures Fields(w) == [w]
  {
    FieldsWord(w, "");
    assert w + "" == w;
  }

  lemma OneText(text: string)
    ensures AllFields([text]) == Fields(text)
  {
    hide Fields;
    assert [text][1..] == [] && AllFields([]) == [] && Fields(text) + [] == Fields(text);
  }

  lemma FieldsWiden(current: string, word: string)
    requires IsWord(word)
    ensures Fields(Widen(current, word)) == Fields(current) + [word]
  {
    FieldsOfWord(word);
    if current != "" { FieldsGlue(current, " ", word); } else { assert Fields("") == []; }
  }

  lemma {:induction false} PackFields(current: string, words: seq<string>, maxChars: nat)
    requires AllWords(words)
    ensures AllFields(Pack(current, words, maxChars)) == Fields(current) + words
    decreases words
  {
    hide Fields, Pack, Widen, IsWord;
    if words == [] {
      PackEnd(current, maxChars);
      OneText(current);
      assert current == "" ==> Fields(current) == [] by { NoFieldsBlank(current); }
    } else {
      var w, rest := words[0], words[1..];
      assert w in words && words == [w] + rest;
      PackOne(current, words, maxChars);
      FieldsWiden(current, w);
      if |Widen(current, w)| > maxChars && current != "" {
        PackFields(w, rest, maxChars);
        FieldsOfWord(w);
        AllFieldsConcat([current], Pack(w, rest, maxChars));
        OneText(current);
      } else {
        PackFields(Widen(current, w), rest, maxChars);
      }
    }
  }

  lemma {:induction false} RejoinFields(lines: seq<string>, parts: seq<string>, maxChars: nat)
    ensures AllFields(Rejoin(lines, parts, maxChars)) == AllFields(lines) + AllFields(parts)
    decreases parts
  {
    hide Fields, PlainLen, AllFields;
    if parts == [] {
      assert AllFields([]) == [] by { NothingListed(); }
    } else {
      var p, rest := parts[0], parts[1..];
      RejoinStep(lines, parts, maxChars);
      hide Rejoin;
      AllFieldsConcat([p], rest);
      assert parts == [p] + rest;
      OneText(p);
      if lines == [] || PlainLen(lines[|lines| - 1]) + 1 + PlainLen(p) > maxChars {
        RejoinFields(lines + [p], rest, maxChars);
        AllFieldsConcat(lines, [p]);
      } else {
        var init, last := lines[..|lines| - 1], lines[|lines| - 1];
        RejoinFields(init + [last + " " + p], rest, maxChars);
        MergedFields(init, last, p);
        assert lines == init + [last];
      }
    }
  }

  lemma NothingListed()
    ensures AllFields([]) == []
  {
  }

  lemma MergedFields(init: seq<string>, last: string, p: string)
    ensures AllFields(init + [last + " " + p]) == AllFields(init + [last]) + Fields(p)
  {
    hide Fields, AllFields;
    AllFieldsConcat(init, [last + " " + p]);
    AllFieldsConcat(init, [last]);
    OneText(last + " " + p);
    OneText(last);
    FieldsGlue(last, " ", p);
  }

  lemma ChunksFields(text: string, maxChars: nat)
    requires maxChars > 0 && |Fields(text)| > 1
    ensures AllFields(Chunks(text, maxChars)) == Fields(text)
  {
    hide Fields, Pack, Slices, AllFields;
    FieldsAreWords(text);
    PackFields("", Fields(text), maxChars);
    NoFieldsBlank("");
    NothingBlank();
  }

  lemma LineBreakBlank()
    ensures Blank(GoSpace, "\n")
  {
  }

  /** Wrapping a text of several words keeps them: none is cut, none is glued to the next. */
  lemma FieldsWrapped(text: string, maxChars: nat)
    requires maxChars > 0 && |Fields(text)| > 1
    ensures Fields(Wrapped(text, maxChars)) == Fields(text)
  {
    hide Fields, Chunks, OneLine, Rejoin, AllFields, Blank, Join;
    FieldsOneLine(text);
    ChunksFields(OneLine(text), maxChars);
    RejoinFields([], Chunks(OneLine(text), maxChars), maxChars);
    NothingListed();
    LineBreakBlank();
    FieldsJoin(WrappedLines(text, maxChars), "\n");
  }

  // ---------------------------------------------------------------- cues

  /** As long as two full lines, or one word. */
  lemma {:induction false} GroupWidth(current: string, parts: seq<string>, maxChars: nat)
    requires current == "" || Narrow(current, maxChars * 2, true)
    requires AllNarrow(parts, maxChars * 2, true)
    ensures AllNarrow(Group(current, parts, maxChars), maxChars * 2, true)
    decreases parts
  {
    hide PlainLen, IsWord;
    if parts != [] {
      assert parts[0] in parts;
      if PlainLen(Stack(current, parts[0])) > maxChars * 2 && current != "" {
        GroupWidth(parts[0], parts[1..], maxChars);
      } else {
        GroupWidth(Stack(current, parts[0]), parts[1..], maxChars);
      }
    }
  }

  /** No two cues that follow each other would fit into one. */
  ghost predicate TightCues(cues: seq<string>, maxChars: nat) {
    forall i | 0 <= i < |cues| - 1 :: PlainLen(cues[i]) + PlainLen(cues[i + 1]) > maxChars * 2
  }

  lemma {:induction false} GroupTight(current: string, parts: seq<string>, maxChars: nat)
    requires forall p <- parts :: p != ""
    ensures TightCues(Group(current, parts, maxChars), maxChars)
    ensures current != "" ==> Group(current, parts, maxChars) != []
                              && PlainLen(Group(current, parts, maxChars)[0]) >= PlainLen(current)
    decreases parts
  {
    hide PlainLen;
    if parts != [] {
      var p, rest := parts[0], parts[1..];
      assert p in parts && forall x <- rest :: x in parts;
      if current != "" { PlainLenGlue(current, "\n", p); }
      if PlainLen(Stack(current, p)) > maxChars * 2 && current != "" {
        GroupTight(p, rest, maxChars);
        var later := Group(p, rest, maxChars);
        assert forall i | 1 <= i <= |later| :: ([current] + later)[i] == later[i - 1];
      } else {
        GroupTight(Stack(current, p), rest, maxChars);
      }
    }
  }

  lemma {:induction false} PartsNarrow(paragraphs: seq<string>, maxChars: nat)
    requires maxChars > 0
    ensures AllNarrow(PartsOf(paragraphs, maxChars), maxChars, true)
    ensures forall p <- PartsOf(paragraphs, maxChars) :: p != ""
  {
    hide PlainLen, IsWord, Chunks;
    if paragraphs != [] {
      PartsNarrow(paragraphs[1..], maxChars);
      var parts := Chunks(paragraphs[0], maxChars);
      ChunksWidth(paragraphs[0], maxChars);
      ChunksSomething(paragraphs[0], maxChars);
      forall p | p in parts ensures Narrow(p, maxChars, true) { PlainLenAtMost(p); }
    }
  }

  lemma {:induction false} PackSomething(current: string, words: seq<string>, maxChars: nat)
    requires AllWords(words)
    ensures forall line <- Pack(current, words, maxChars) :: line != ""
    decreases words
  {
    if words != [] {
      assert words[0] in words;
      PackSomething(if |Widen(current, words[0])| > maxChars && current != "" then words[0] else Widen(current, words[0]),
                    words[1..], maxChars);
    }
  }

  lemma ChunksSomething(text: string, maxChars: nat)
    requires maxChars > 0
    ensures forall line <- Chunks(text, maxChars) :: line != ""
  {
    FieldsAreWords(text);
    PackSomething("", Fields(text), maxChars);
    SlicesCut(text, maxChars);
  }

  /** A text that fits on two lines is one cue.  Otherwise each cue fits on two lines or is one word, and
      no two cues that follow each other would fit together. */
  lemma CueTextsWidth(text: string, maxChars: nat)
    requires maxChars > 0
    ensures var cues := CueTexts(text, maxChars);
            && (PlainLen(Normalized(text)) <= maxChars * 2 ==> cues == [Normalized(text)])
            && (forall cue <- cues :: PlainLen(cue) <= maxChars * 2 || IsWord(cue))
            && TightCues(cues, maxChars)
  {
    hide PlainLen, IsWord, Normalized, Group, PartsOf;
    var parts := PartsOf(Lines(Normalized(text)), maxChars);
    PartsNarrow(Lines(Normalized(text)), maxChars);
    assert AllNarrow(parts, maxChars * 2, true);
    GroupWidth("", parts, maxChars);
    GroupTight("", parts, maxChars);
    assert forall cue <- Group("", parts, maxChars) :: Narrow(cue, maxChars * 2, true);
  }
}
