/** The shape of wrapped cue text: non-empty lines without white space at their ends, that
    normalising leaves alone, and as few of them as the words allow. */
module TidyText {
  import opened Text
  import opened Chunking
  import opened Wrapping

  /** A line that starts and ends with a character that is no white space, and whose only white space
      is the blank. */
  predicate TidyLine(line: string) {
    line != "" && Text.Trimmed(GoSpace, line) && forall c <- line :: GoSpace(c) ==> c == ' '
  }

  predicate TidyLines(lines: seq<string>) {
    forall line <- lines :: TidyLine(line)
  }

  /** Text all of whose lines are tidy; in particular it has no blank line. */
  predicate Tidy(text: string) {
    TidyLines(Lines(text))
  }

  lemma WordTidy(w: string)
    requires IsWord(w)
    ensures TidyLine(w)
  {
  }

  lemma GlueTidy(a: string, b: string)
    requires TidyLine(a) && TidyLine(b)
    ensures TidyLine(a + " " + b)
  {
    var s := a + " " + b;
    assert s[0] == a[0] && s[|s| - 1] == b[|b| - 1];
  }

  lemma {:induction false} PackTidy(current: string, words: seq<string>, maxChars: nat)
    requires (current == "" || TidyLine(current)) && AllWords(words)
    ensures TidyLines(Pack(current, words, maxChars))
    decreases words
  {
    if words != [] {
      assert words[0] in words;
      WordTidy(words[0]);
      if current != "" { GlueTidy(current, words[0]); }
      PackTidy(if |Widen(current, words[0])| > maxChars && current != "" then words[0] else Widen(current, words[0]),
               words[1..], maxChars);
    }
  }

  lemma {:induction false} SlicesTidy(s: string, maxChars: nat)
    requires maxChars > 0 && forall c <- s :: !GoSpace(c)
    ensures TidyLines(Slices(s, maxChars))
    decreases |s|
  {
    if |s| > maxChars {
      assert forall c <- s[..maxChars] :: c in s;
      assert forall c <- s[maxChars..] :: c in s;
      SlicesTidy(s[maxChars..], maxChars);
    }
  }

  lemma ChunksTidy(text: string, maxChars: nat)
    requires maxChars > 0 && Text.Trimmed(GoSpace, text)
    ensures TidyLines(Chunks(text, maxChars))
    ensures text != "" ==> Chunks(text, maxChars) != []
  {
    FieldsAreWords(text);
    if |Fields(text)| > 1 {
      PackTidy("", Fields(text), maxChars);
      SqueezeChunks(text, maxChars);
      SqueezeBlank(text);
      if text != "" { assert text[0] in text; }
    } else {
      OneField(text);
      SlicesTidy(text, maxChars);
    }
  }

  lemma {:induction false} RejoinTidy(lines: seq<string>, parts: seq<string>, maxChars: nat)
    requires TidyLines(lines) && TidyLines(parts)
    ensures TidyLines(Rejoin(lines, parts, maxChars))
    ensures parts != [] ==> Rejoin(lines, parts, maxChars) != []
    ensures lines != [] ==> Rejoin(lines, parts, maxChars) != []
    decreases parts
  {
    hide TidyLine, PlainLen;
    if parts != [] {
      assert parts[0] in parts;
      if lines == [] || PlainLen(lines[|lines| - 1]) + 1 + PlainLen(parts[0]) > maxChars {
        RejoinTidy(lines + [parts[0]], parts[1..], maxChars);
      } else {
        assert lines[|lines| - 1] in lines;
        GlueTidy(lines[|lines| - 1], parts[0]);
        RejoinTidy(lines[..|lines| - 1] + [lines[|lines| - 1] + " " + parts[0]], parts[1..], maxChars);
      }
    }
  }

  // ---------------------------------------------------------------- normalised text is trimmed

  lemma {:induction false} ReplacedAbsent(s: string, from: string, to: string, c: char)
    requires from == [c] && c !in to
    ensures c !in ReplaceAll(s, from, to)
    decreases |s|
  {
    if s != "" {
      if from <= s { ReplacedAbsent(s[1..], from, to, c); }
      else {
        assert s[0] != c;
        ReplacedAbsent(s[1..], from, to, c);
      }
    }
  }

  /** Join of trimmed pieces whose first and last are not empty, or of one piece, is trimmed. */
  lemma {:induction false} JoinEnds(parts: seq<string>, sep: string)
    requires parts != [] && parts[0] != "" && parts[|parts| - 1] != ""
    ensures var s := Join(parts, sep);
            s != "" && s[0] == parts[0][0] && s[|s| - 1] == parts[|parts| - 1][|parts[|parts| - 1]| - 1]
  {
    if |parts| > 1 {
      var rest := parts[1..];
      assert rest[|rest| - 1] == parts[|parts| - 1];
      JoinLastChar(rest, sep);
      var s, t := Join(parts, sep), Join(rest, sep);
      assert s == parts[0] + sep + t && s[|s| - 1] == t[|t| - 1];
    }
  }

  lemma {:induction false} JoinLastChar(parts: seq<string>, sep: string)
    requires parts != [] && parts[|parts| - 1] != ""
    ensures var s := Join(parts, sep);
            s != "" && s[|s| - 1] == parts[|parts| - 1][|parts[|parts| - 1]| - 1]
  {
    if |parts| > 1 {
      var rest := parts[1..];
      assert rest[|rest| - 1] == parts[|parts| - 1];
      JoinLastChar(rest, sep);
      var s, t := Join(parts, sep), Join(rest, sep);
      assert s == parts[0] + sep + t && s[|s| - 1] == t[|t| - 1];
    }
  }

  /** The first and the last line of a text that is trimmed and not empty are not blank. */
  lemma EndLines(s: string)
    requires s != "" && Text.Trimmed(GoSpace, s)
    ensures Lines(s)[0] != "" && Lines(s)[0][0] == s[0]
    ensures var last := Lines(s)[|Lines(s)| - 1]; last != "" && last[|last| - 1] == s[|s| - 1]
  {
    assert GoSpace('\n');
    assert s == [s[0]] + s[1..];
    LinesStep(s[0], s[1..]);
    LinesLast(s);
  }

  lemma {:induction false} LinesLast(s: string)
    requires s != "" && s[|s| - 1] != '\n'
    ensures var last := Lines(s)[|Lines(s)| - 1]; last != "" && last[|last| - 1] == s[|s| - 1]
  {
    assert s == [s[0]] + s[1..];
    LinesStep(s[0], s[1..]);
    if |s| > 1 {
      LinesLast(s[1..]);
    } else {
      LinesOfLine("");
    }
  }

  lemma TrimKeepsEnds(line: string, first: bool)
    requires line != "" && (if first then !GoSpace(line[0]) else !GoSpace(line[|line| - 1]))
    ensures var t := TrimSpace(line);
            t != "" && (if first then t[0] == line[0] else t[|t| - 1] == line[|line| - 1])
  {
    var a, b := TrimSplit(GoSpace, line);
    var t := TrimSpace(line);
    assert line == a + t + b;
    TrimBlank(GoSpace, line);
    assert line[0] in line && line[|line| - 1] in line;
    assert a != "" ==> line[0] in a;
    assert b != "" ==> line[|line| - 1] in b;
  }

  lemma NormalizedTrimmed(text: string)
    ensures Text.Trimmed(GoSpace, Normalized(text))
    ensures Normalized(text) == "" <==> Blank(GoSpace, text)
    ensures '\r' !in Normalized(text)
  {
    var s := TrimSpace(UnixBreaks(text));
    TrimIsTrimmed(GoSpace, UnixBreaks(text));
    SqueezeNormalized(text);
    SqueezeBlank(text);
    SqueezeBlank(Normalized(text));
    NoReturn(text);
    hide Squeeze, UnixBreaks;
    if s == "" {
      LinesOfLine("");
      TrimTrimmed(GoSpace, "");
      assert TrimEach([""]) == [""];
    } else {
      EndLines(s);
      var lines := Lines(s);
      TrimKeepsEnds(lines[0], true);
      TrimKeepsEnds(lines[|lines| - 1], false);
      JoinEnds(TrimEach(lines), "\n");
      assert Normalized(text)[0] in Normalized(text);
    }
  }

  lemma {:induction false} JoinChars(parts: seq<string>, sep: string, c: char)
    requires c !in sep && forall p <- parts :: c !in p
    ensures c !in Join(parts, sep)
  {
    if parts != [] {
      assert parts[0] in parts;
      JoinChars(parts[1..], sep, c);
    }
  }

  lemma {:induction false} LinesLack(s: string, c: char)
    requires c !in s
    ensures forall line <- Lines(s) :: c !in line
  {
    if s != "" {
      assert s == [s[0]] + s[1..];
      LinesStep(s[0], s[1..]);
      LinesLack(s[1..], c);
    }
  }

  lemma NoReturn(text: string)
    ensures '\r' !in Normalized(text)
  {
    var unix := UnixBreaks(text);
    ReplacedAbsent(ReplaceAll(text, "\r\n", "\n"), "\r", "\n", '\r');
    var a, b := TrimSplit(GoSpace, unix);
    assert '\r' !in TrimSpace(unix);
    var lines := Lines(TrimSpace(unix));
    LinesLack(TrimSpace(unix), '\r');
    forall p | p in TrimEach(lines) ensures '\r' !in p {
      var i :| 0 <= i < |lines| && p == TrimSpace(lines[i]);
      var x, y := TrimSplit(GoSpace, lines[i]);
      assert lines[i] in lines;
    }
    JoinChars(TrimEach(lines), "\n", '\r');
  }

  lemma {:induction false} ReplaceBreaks(s: string)
    ensures |ReplaceAll(s, "\n", " ")| == |s|
    ensures forall i | 0 <= i < |s| :: ReplaceAll(s, "\n", " ")[i] == if s[i] == '\n' then ' ' else s[i]
  {
    if s != "" {
      assert ("\n")[0] == '\n' && ("\n" <= s <==> s[0] == '\n');
      ReplaceBreaks(s[1..]);
    }
  }

  lemma OneLineTrimmed(text: string)
    ensures Text.Trimmed(GoSpace, OneLine(text))
    ensures OneLine(text) == "" <==> Blank(GoSpace, text)
  {
    NormalizedTrimmed(text);
    ReplaceBreaks(Normalized(text));
    assert GoSpace('\n');
  }

  /** Wrapping any text that is not blank gives tidy text. */
  lemma WrappedTidy(text: string, maxChars: nat)
    requires maxChars > 0 && !Blank(GoSpace, text)
    ensures WrappedLines(text, maxChars) != [] && TidyLines(WrappedLines(text, maxChars))
    ensures Lines(Wrapped(text, maxChars)) == WrappedLines(text, maxChars)
    ensures Tidy(Wrapped(text, maxChars))
  {
    OneLineTrimmed(text);
    ChunksTidy(OneLine(text), maxChars);
    RejoinTidy([], Chunks(OneLine(text), maxChars), maxChars);
    var lines := WrappedLines(text, maxChars);
    forall line | line in lines ensures '\n' !in line { assert TidyLine(line); }
    LinesOfJoin(lines);
  }

  /** Normalising leaves tidy text alone. */
  lemma NormalizedTidy(text: string)
    requires Tidy(text)
    ensures Normalized(text) == text && text != "" && '\r' !in text
  {
    var lines := Lines(text);
    JoinLines(text);
    assert lines[0] in lines && lines[|lines| - 1] in lines;
    JoinEnds(lines, "\n");
    forall line | line in lines ensures '\r' !in line { assert TidyLine(line); }
    JoinChars(lines, "\n", '\r');
    ReplaceAbsent(text, "\r\n", "\n");
    ReplaceAbsent(text, "\r", "\n");
    TrimTrimmed(GoSpace, text);
    forall i | 0 <= i < |lines| ensures TrimEach(lines)[i] == lines[i] {
      assert lines[i] in lines;
      TrimTrimmed(GoSpace, lines[i]);
    }
    assert TrimEach(lines) == lines;
  }

  // ---------------------------------------------------------------- the merge branch

  /** No two lines that follow each other would fit on one. */
  ghost predicate Tight(lines: seq<string>, maxChars: nat) {
    forall i | 0 <= i < |lines| - 1 :: |lines[i]| + 1 + |lines[i + 1]| > maxChars
  }

  lemma {:induction false} PackTight(current: string, words: seq<string>, maxChars: nat)
    requires AllWords(words)
    ensures Tight(Pack(current, words, maxChars), maxChars)
    ensures current != "" ==> Pack(current, words, maxChars) != [] && |Pack(current, words, maxChars)[0]| >= |current|
    decreases words
  {
    if words != [] {
      var w, rest := words[0], words[1..];
      assert w in words;
      if |Widen(current, w)| > maxChars && current != "" {
        PackTight(w, rest, maxChars);
        var later := Pack(w, rest, maxChars);
        assert forall i | 1 <= i <= |later| :: ([current] + later)[i] == later[i - 1];
      } else {
        PackTight(Widen(current, w), rest, maxChars);
      }
    }
  }

  lemma {:induction false} SlicesTight(s: string, maxChars: nat)
    requires maxChars > 0
    ensures Tight(Slices(s, maxChars), maxChars)
    decreases |s|
  {
    if |s| > maxChars {
      SlicesTight(s[maxChars..], maxChars);
      var later := Slices(s[maxChars..], maxChars);
      assert forall i | 1 <= i <= |later| :: ([s[..maxChars]] + later)[i] == later[i - 1];
    }
  }

  lemma {:induction false} PlainLenFull(s: string)
    requires forall c <- s :: !IsControl(c)
    ensures PlainLen(s) == |s|
  {
    if s != "" {
      assert s[0] in s;
      PlainLenFull(s[1..]);
    }
  }

  lemma {:induction false} RejoinNothing(lines: seq<string>, parts: seq<string>, maxChars: nat)
    requires Tight(lines + parts, maxChars)
    requires forall p <- lines + parts :: PlainLen(p) == |p|
    ensures Rejoin(lines, parts, maxChars) == lines + parts
    decreases parts
  {
    hide PlainLen;
    if parts == [] {
      assert lines + parts == lines;
    } else {
      var all := lines + parts;
      assert all == (lines + [parts[0]]) + parts[1..];
      if lines != [] {
        var k := |lines| - 1;
        assert all[k] == lines[k] && all[k + 1] == parts[0] && all[k] in all && all[k + 1] in all;
      }
      RejoinNothing(lines + [parts[0]], parts[1..], maxChars);
    }
  }

  lemma {:induction false} SqueezeMembers(s: string)
    ensures forall c :: c in Squeeze(s) <==> c in s && !GoSpace(c)
  {
    if s != "" { SqueezeMembers(s[1..]); }
  }

  lemma {:induction false} SqueezeAllMember(parts: seq<string>, p: string, c: char)
    requires p in parts && c in p && !GoSpace(c)
    ensures c in SqueezeAll(parts)
  {
    SqueezeMembers(parts[0]);
    if p != parts[0] || c !in Squeeze(parts[0]) { SqueezeAllMember(parts[1..], p, c); }
  }

  /** No control characters but white space. */
  predicate Plain(text: string) {
    forall c <- text :: IsControl(c) ==> GoSpace(c)
  }

  /** For text without control characters the merge branch of wrapSubtitleText is never taken: its
      lines are those of splitChunk. */
  lemma MergeNeverTaken(text: string, maxChars: nat)
    requires maxChars > 0 && Plain(text)
    ensures WrappedLines(text, maxChars) == Chunks(OneLine(text), maxChars)
  {
    var line := OneLine(text);
    var parts := Chunks(line, maxChars);
    OneLineTrimmed(text);
    ChunksTidy(line, maxChars);
    FieldsAreWords(line);
    PackTight("", Fields(line), maxChars);
    SlicesTight(line, maxChars);
    SqueezeOneLine(text);
    SqueezeChunks(line, maxChars);
    SqueezeMembers(text);
    forall p | p in parts ensures PlainLen(p) == |p| {
      assert TidyLine(p);
      forall c | c in p ensures !IsControl(c) {
        if !GoSpace(c) { SqueezeAllMember(parts, p, c); }
      }
      PlainLenFull(p);
    }
    assert [] + parts == parts;
    RejoinNothing([], parts, maxChars);
  }

  // ---------------------------------------------------------------- the words survive

  lemma {:induction false} WordEndConcat(a: string, b: string)
    requires IsWord(a) && (b == "" || GoSpace(b[0]))
    ensures WordEnd(a + b) == |a|
  {
    assert a[0] in a;
    assert (a + b)[1..] == a[1..] + b;
    if |a| > 1 { WordEndConcat(a[1..], b); } else { assert a[1..] + b == b; }
  }

  lemma WordEndMaximal(s: string)
    ensures WordEnd(s) == |s| || GoSpace(s[WordEnd(s)])
  {
  }

  lemma FieldsWord(w: string, rest: string)
    requires IsWord(w) && (rest == "" || GoSpace(rest[0]))
    ensures Fields(w + rest) == [w] + Fields(rest)
  {
    WordEndConcat(w, rest);
    assert w[0] in w && (w + rest)[..|w|] == w && (w + rest)[|w|..] == rest;
  }

  lemma FieldsSkip(c: char, rest: string)
    requires GoSpace(c)
    ensures Fields([c] + rest) == Fields(rest)
  {
    assert ([c] + rest)[1..] == rest;
  }

  /** Words do not reach over white space. */
  lemma {:induction false} FieldsConcat(a: string, b: string)
    requires a == "" || b == "" || GoSpace(a[|a| - 1]) || GoSpace(b[0])
    ensures Fields(a + b) == Fields(a) + Fields(b)
    decreases |a|
  {
    hide Fields, GoSpace;
    if a == "" {
      assert a + b == b;
      NoFieldsBlank("");
    } else if b == "" {
      assert a + b == a;
      NoFieldsBlank("");
    } else if GoSpace(a[0]) {
      var rest := a[1..];
      assert a == [a[0]] + rest && a + b == [a[0]] + (rest + b);
      FieldsSkip(a[0], rest);
      FieldsSkip(a[0], rest + b);
      FieldsConcat(rest, b);
    } else {
      var k := WordEnd(a);
      WordEndMaximal(a);
      var w, rest := a[..k], a[k..];
      assert a == w + rest && a + b == w + (rest + b);
      FieldsWord(w, rest);
      FieldsWord(w, rest + b);
      FieldsConcat(rest, b);
      assert [w] + (Fields(rest) + Fields(b)) == ([w] + Fields(rest)) + Fields(b);
    }
  }

  lemma FieldsTrim(s: string)
    ensures Fields(TrimSpace(s)) == Fields(s)
  {
    var a, b := TrimSplit(GoSpace, s);
    if a != "" { assert a[|a| - 1] in a; }
    if b != "" { assert b[0] in b; }
    FieldsConcat(a, TrimSpace(s));
    FieldsConcat(a + TrimSpace(s), b);
    NoFieldsBlank(a);
    NoFieldsBlank(b);
  }

  lemma {:induction false} FieldsReplace(s: string, from: string, to: string)
    requires from != "" && to != "" && Blank(GoSpace, from) && Blank(GoSpace, to)
    ensures Fields(ReplaceAll(s, from, to)) == Fields(s)
    ensures s != "" ==> ReplaceAll(s, from, to) != "" && (GoSpace(s[0]) <==> GoSpace(ReplaceAll(s, from, to)[0]))
    decreases |s|
  {
    hide Fields, ReplaceAll, Blank;
    ReplaceStep(s, from, to);
    if s == "" {
    } else if from <= s {
      var rest := s[|from|..];
      FieldsReplace(rest, from, to);
      assert s == from + rest;
      BlankEnds(from);
      BlankEnds(to);
      FieldsConcat(from, rest);
      FieldsConcat(to, ReplaceAll(rest, from, to));
      NoFieldsBlank(from);
      NoFieldsBlank(to);
    } else {
      var rest := s[1..];
      FieldsReplace(rest, from, to);
      ReplaceStep(rest, from, to);
      FieldsCons(s[0], rest, ReplaceAll(rest, from, to));
      assert s == [s[0]] + rest;
    }
  }

  lemma BlankEnds(s: string)
    requires s != "" && Blank(GoSpace, s)
    ensures GoSpace(s[0]) && GoSpace(s[|s| - 1])
  {
    assert s[0] in s && s[|s| - 1] in s;
  }

  /** Whether a character joins the first word depends only on whether white space follows it. */
  lemma FieldsCons(c: char, a: string, b: string)
    requires Fields(a) == Fields(b) && (a == "" <==> b == "") && (a != "" ==> (GoSpace(a[0]) <==> GoSpace(b[0])))
    ensures Fields([c] + a) == Fields([c] + b)
  {
    assert ([c] + a)[1..] == a && ([c] + b)[1..] == b;
    if !GoSpace(c) {
      FirstWord(c, a);
      FirstWord(c, b);
    }
  }

  lemma FirstWord(c: char, s: string)
    requires !GoSpace(c)
    ensures Fields([c] + s) == if s == "" || GoSpace(s[0]) then [[c]] + Fields(s)
                               else [[c] + Fields(s)[0]] + Fields(s)[1..]
  {
    assert ([c] + s)[1..] == s;
    var k := WordEnd(s);
    assert WordEnd([c] + s) == 1 + k;
    assert ([c] + s)[..1 + k] == [c] + s[..k] && ([c] + s)[1 + k..] == s[k..];
  }

  lemma {:induction false} FieldsTrimEach(lines: seq<string>)
    ensures Fields(Join(TrimEach(lines), "\n")) == Fields(Join(lines, "\n"))
  {
    if |lines| == 1 {
      FieldsTrim(lines[0]);
      assert TrimEach(lines) == [TrimSpace(lines[0])];
    } else if |lines| > 1 {
      var rest := lines[1..];
      assert TrimEach(lines)[1..] == TrimEach(rest);
      FieldsTrimEach(rest);
      FieldsTrim(lines[0]);
      FieldsBreak(lines[0], Join(rest, "\n"));
      FieldsBreak(TrimSpace(lines[0]), Join(TrimEach(rest), "\n"));
    }
  }

  lemma FieldsBreak(a: string, b: string)
    ensures Fields(a + "\n" + b) == Fields(a) + Fields(b)
  {
    hide Fields;
    assert GoSpace('\n');
    FieldsConcat(a, "\n");
    FieldsConcat(a + "\n", b);
    NoFieldsBlank("\n");
    assert Fields(a) + [] == Fields(a);
  }

  lemma FieldsOneLine(text: string)
    ensures Fields(OneLine(text)) == Fields(text)
  {
    var unix := UnixBreaks(text);
    FieldsReplace(text, "\r\n", "\n");
    FieldsReplace(ReplaceAll(text, "\r\n", "\n"), "\r", "\n");
    FieldsTrim(unix);
    JoinLines(TrimSpace(unix));
    FieldsTrimEach(Lines(TrimSpace(unix)));
    FieldsReplace(Normalized(text), "\n", " ");
  }

  /** Wrapping a text of several words breaks it into the fewest lines there can be: the lines come
      from a layout of its words, and no layout of its words has fewer lines. */
  lemma WrapsIntoFewestLines(text: string, maxChars: nat)
    requires maxChars > 0 && Plain(text) && |Fields(text)| > 1
    ensures exists groups :: IsLayout(groups, Fields(text), maxChars) && Lines(Wrapped(text, maxChars)) == Rendered(groups)
    ensures forall groups | IsLayout(groups, Fields(text), maxChars) :: |Lines(Wrapped(text, maxChars))| <= |groups|
  {
    NoFieldsBlank(text);
    FieldsOneLine(text);
    MergeNeverTaken(text, maxChars);
    WrappedTidy(text, maxChars);
    FewestLines(OneLine(text), maxChars);
  }
}
