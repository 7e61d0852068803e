/** Line breaking of subtitle text (internal/subtitle/refine.go and normalizeText in srt.go). */
module Chunking {
  import opened Text

  // ---------------------------------------------------------------- words

  function WordEnd(s: string): (n: nat)
    ensures n <= |s| && (s != "" && !GoSpace(s[0]) ==> n > 0)
    ensures forall k | 0 <= k < n :: !GoSpace(s[k])
  {
    if s == "" || GoSpace(s[0]) then 0 else 1 + WordEnd(s[1..])
  }

  /** strings.Fields */
  function Fields(s: string): seq<string>
    decreases |s|
  {
    if s == "" then []
    else if GoSpace(s[0]) then Fields(s[1..])
    else [s[..WordEnd(s)]] + Fields(s[WordEnd(s)..])
  }

  predicate IsWord(w: string) {
    w != "" && forall c <- w :: !GoSpace(c)
  }

  predicate AllWords(words: seq<string>) {
    forall w <- words :: IsWord(w)
  }

  lemma {:induction false} FieldsAreWords(s: string)
    ensures AllWords(Fields(s))
    decreases |s|
  {
    if s != "" {
      if GoSpace(s[0]) { FieldsAreWords(s[1..]); } else { FieldsAreWords(s[WordEnd(s)..]); }
    }
  }

  lemma {:induction false} NoFieldsBlank(s: string)
    ensures Fields(s) == [] <==> Blank(GoSpace, s)
    decreases |s|
  {
    if s != "" {
      assert s[0] in s;
      if GoSpace(s[0]) {
        NoFieldsBlank(s[1..]);
        assert s == [s[0]] + s[1..];
      }
    }
  }

  /** A trimmed text of at most one word is that word, or nothing. */
  lemma OneField(s: string)
    requires Text.Trimmed(GoSpace, s) && |Fields(s)| <= 1
    ensures s == "" || IsWord(s)
  {
    if s != "" {
      var k := WordEnd(s);
      NoFieldsBlank(s[k..]);
    }
  }

  // ---------------------------------------------------------------- what remains without white space

  function Squeeze(s: string): string {
    if s == "" then "" else (if GoSpace(s[0]) then "" else [s[0]]) + Squeeze(s[1..])
  }

  function SqueezeAll(parts: seq<string>): string {
    if parts == [] then "" else Squeeze(parts[0]) + SqueezeAll(parts[1..])
  }

  lemma {:induction false} SqueezeConcat(a: string, b: string)
    ensures Squeeze(a + b) == Squeeze(a) + Squeeze(b)
  {
    if a == "" { assert a + b == b; } else {
      assert (a + b)[1..] == a[1..] + b;
      SqueezeConcat(a[1..], b);
    }
  }

  lemma {:induction false} SqueezeBlank(s: string)
    ensures Squeeze(s) == "" <==> Blank(GoSpace, s)
  {
    if s != "" {
      SqueezeBlank(s[1..]);
      assert s[0] in s && s == [s[0]] + s[1..];
    }
  }

  lemma {:induction false} SqueezeAllConcat(a: seq<string>, b: seq<string>)
    ensures SqueezeAll(a + b) == SqueezeAll(a) + SqueezeAll(b)
  {
    if a == [] { assert a + b == b; } else {
      assert (a + b)[1..] == a[1..] + b;
      SqueezeAllConcat(a[1..], b);
    }
  }

  lemma SqueezeTrim(s: string)
    ensures Squeeze(TrimSpace(s)) == Squeeze(s)
  {
    var a, b := TrimSplit(GoSpace, s);
    SqueezeConcat(a + TrimSpace(s), b);
    SqueezeConcat(a, TrimSpace(s));
    SqueezeBlank(a);
    SqueezeBlank(b);
  }

  lemma {:induction false} SqueezeJoin(parts: seq<string>, sep: string)
    requires Blank(GoSpace, sep)
    ensures Squeeze(Join(parts, sep)) == SqueezeAll(parts)
  {
    if |parts| == 1 {
      assert SqueezeAll(parts[1..]) == "";
    } else if |parts| > 1 {
      SqueezeJoin(parts[1..], sep);
      SqueezeConcat(parts[0] + sep, Join(parts[1..], sep));
      SqueezeConcat(parts[0], sep);
      SqueezeBlank(sep);
    }
  }

  lemma {:induction false} SqueezeReplace(s: string, from: string, to: string)
    requires from != "" && Blank(GoSpace, from) && Blank(GoSpace, to)
    ensures Squeeze(ReplaceAll(s, from, to)) == Squeeze(s)
    decreases |s|
  {
    hide Squeeze, Blank, ReplaceAll;
    ReplaceStep(s, from, to);
    if s == "" {
    } else if from <= s {
      var rest := s[|from|..];
      SqueezeReplace(rest, from, to);
      SqueezeConcat(to, ReplaceAll(rest, from, to));
      SqueezeConcat(from, rest);
      assert s == from + rest;
      SqueezeBlank(from);
      SqueezeBlank(to);
    } else {
      var first, rest := [s[0]], s[1..];
      SqueezeReplace(rest, from, to);
      SqueezeConcat(first, ReplaceAll(rest, from, to));
      SqueezeConcat(first, rest);
      assert s == first + rest;
    }
  }

  lemma ReplaceStep(s: string, from: string, to: string)
    requires from != ""
    ensures ReplaceAll(s, from, to) == if s == "" then ""
            else if from <= s then to + ReplaceAll(s[|from|..], from, to) else [s[0]] + ReplaceAll(s[1..], from, to)
  {
  }

  lemma {:induction false} SqueezeFields(s: string)
    ensures SqueezeAll(Fields(s)) == Squeeze(s)
    decreases |s|
  {
    if s != "" {
      if GoSpace(s[0]) { SqueezeFields(s[1..]); } else {
        var k := WordEnd(s);
        SqueezeFields(s[k..]);
        SqueezeConcat(s[..k], s[k..]);
        assert s == s[..k] + s[k..];
        assert Fields(s)[1..] == Fields(s[k..]);
      }
    }
  }

  // ---------------------------------------------------------------- splitChunk

  function Widen(current: string, word: string): string {
    if current != "" then current + " " + word else word
  }

  /** The lines splitChunk makes of the words still to come, given its current line. */
  function Pack(current: string, words: seq<string>, maxChars: nat): seq<string>
    decreases words
  {
    if words == [] then (if current != "" then [current] else [])
    else if |Widen(current, words[0])| > maxChars && current != "" then
      [current] + Pack(words[0], words[1..], maxChars)
    else Pack(Widen(current, words[0]), words[1..], maxChars)
  }

  /** A single word cut into pieces of maxChars. */
  function Slices(s: string, maxChars: nat): seq<string>
    requires maxChars > 0
    decreases |s|
  {
    if |s| == 0 then [] else if |s| <= maxChars then [s] else [s[..maxChars]] + Slices(s[maxChars..], maxChars)
  }

  function Chunks(text: string, maxChars: nat): seq<string>
    requires maxChars > 0
  {
    if |Fields(text)| > 1 then Pack("", Fields(text), maxChars) else Slices(text, maxChars)
  }

  lemma PackStep(chunks: seq<string>, current: string, words: seq<string>, maxChars: nat)
    requires words != []
    ensures chunks + Pack(current, words, maxChars)
         == if |Widen(current, words[0])| > maxChars && current != ""
            then chunks + [current] + Pack(words[0], words[1..], maxChars)
            else chunks + Pack(Widen(current, words[0]), words[1..], maxChars)
  {
    hide Widen;
    assert chunks + ([current] + Pack(words[0], words[1..], maxChars))
        == chunks + [current] + Pack(words[0], words[1..], maxChars);
  }

  /** The loop of splitChunk over the words of a text. */
  method PackWords(words: seq<string>, maxChars: nat) returns (chunks: seq<string>)
    ensures chunks == Pack("", words, maxChars)
  {
    hide Pack;
    chunks := [];
    var current := "";
    assert words[0..] == words && [] + Pack("", words, maxChars) == Pack("", words, maxChars);
    for i := 0 to |words|
      invariant chunks + Pack(current, words[i..], maxChars) == Pack("", words, maxChars)
    {
      assert words[i..][1..] == words[i + 1..];
      PackStep(chunks, current, words[i..], maxChars);
      var candidate := words[i];
      if current != "" {
        candidate := current + " " + words[i];
      }
      if |candidate| > maxChars && current != "" {
        chunks := chunks + [current];
        current := words[i];
      } else {
        current := candidate;
      }
    }
    PackEnd(current, maxChars);
    if current != "" {
      chunks := chunks + [current];
    }
  }

  lemma PackEnd(current: string, maxChars: nat)
    ensures Pack(current, [], maxChars) == if current != "" then [current] else []
  {
  }

  /** The loop of splitChunk over a text of at most one word. */
  method SliceText(text: string, maxChars: nat) returns (chunks: seq<string>)
    requires maxChars > 0
    ensures chunks == Slices(text, maxChars)
  {
    chunks := [];
    var start := 0;
    assert text[0..] == text;
    while start < |text|
      invariant 0 <= start
      invariant chunks + (if start < |text| then Slices(text[start..], maxChars) else []) == Slices(text, maxChars)
    {
      var end := start + maxChars;
      if end > |text| {
        end := |text|;
      }
      if |text[start..]| > maxChars {
        assert text[start..][maxChars..] == text[start + maxChars..];
      }
      assert text[start..end] == if |text[start..]| <= maxChars then text[start..] else text[start..][..maxChars];
      chunks := chunks + [text[start..end]];
      start := start + maxChars;
    }
  }

  method SplitChunk(text: string, maxChars: nat) returns (chunks: seq<string>)
    requires maxChars > 0
    ensures chunks == Chunks(text, maxChars)
  {
    var words := Fields(text);
    if |words| > 1 {
      chunks := PackWords(words, maxChars);
      return;
    }
    chunks := SliceText(text, maxChars);
  }

  // ---------------------------------------------------------------- the fewest lines

  /** A way to break words into lines: every line is one word or fits. */
  predicate Fits(group: seq<string>, maxChars: nat) {
    |group| == 1 || (group != [] && |Join(group, " ")| <= maxChars)
  }

  function Flatten(groups: seq<seq<string>>): seq<string> {
    if groups == [] then [] else groups[0] + Flatten(groups[1..])
  }

  ghost predicate IsLayout(groups: seq<seq<string>>, words: seq<string>, maxChars: nat) {
    Flatten(groups) == words && forall g <- groups :: Fits(g, maxChars)
  }

  function Rendered(groups: seq<seq<string>>): seq<string> {
    if groups == [] then [] else [Join(groups[0], " ")] + Rendered(groups[1..])
  }

  /** How many lines Pack makes, when the current line has `n` characters. */
  function Count(n: nat, words: seq<string>, maxChars: nat): nat
    decreases words
  {
    if words == [] then 1
    else if n + 1 + |words[0]| > maxChars then 1 + Count(|words[0]|, words[1..], maxChars)
    else Count(n + 1 + |words[0]|, words[1..], maxChars)
  }

  lemma {:induction false} PackCount(current: string, words: seq<string>, maxChars: nat)
    requires current != "" && AllWords(words)
    ensures |Pack(current, words, maxChars)| == Count(|current|, words, maxChars)
    decreases words
  {
    if words != [] {
      assert words[0] in words;
      PackCount(if |Widen(current, words[0])| > maxChars then words[0] else Widen(current, words[0]), words[1..], maxChars);
    }
  }

  /** A longer current line costs at most one line more, and never saves one. */
  lemma {:induction false} CountMonotone(n: nat, m: nat, words: seq<string>, maxChars: nat)
    requires n <= m
    ensures Count(n, words, maxChars) <= Count(m, words, maxChars) <= Count(n, words, maxChars) + 1
    decreases words
  {
    if words != [] {
      var w, rest := |words[0]|, words[1..];
      if m + 1 + w <= maxChars {
        CountMonotone(n + 1 + w, m + 1 + w, rest, maxChars);
      } else if n + 1 + w <= maxChars {
        CountMonotone(w, n + 1 + w, rest, maxChars);
      }
    }
  }

  lemma CountSkip(n: nat, words: seq<string>, maxChars: nat)
    requires words != []
    ensures Count(n, words, maxChars) <= 1 + Count(|words[0]|, words[1..], maxChars)
  {
    CountMonotone(|words[0]|, n + 1 + |words[0]|, words[1..], maxChars);
  }

  lemma {:induction false} JoinLast(words: seq<string>, sep: string)
    requires |words| > 1
    ensures Join(words, sep) == Join(words[..|words| - 1], sep) + sep + words[|words| - 1]
  {
    var last := |words| - 1;
    if last > 1 {
      JoinLast(words[1..], sep);
      assert words[1..][..last - 1] == words[..last][1..];
      var mid := Join(words[..last][1..], sep);
      assert words[0] + sep + (mid + sep + words[last]) == (words[0] + sep + mid) + sep + words[last];
    } else {
      assert words[1..] == [words[1]] && words[..1] == [words[0]];
    }
  }

  /** Words that fit on one line together never make Pack break the line. */
  lemma {:induction false} CountAbsorbs(words: seq<string>, k: nat, maxChars: nat)
    requires 0 < k <= |words| && (k == 1 || |Join(words[..k], " ")| <= maxChars)
    ensures Count(|words[0]|, words[1..], maxChars) == Count(|Join(words[..k], " ")|, words[k..], maxChars)
  {
    if k == 1 {
      assert words[..1] == [words[0]];
    } else {
      JoinLast(words[..k], " ");
      assert words[..k][..k - 1] == words[..k - 1];
      CountAbsorbs(words, k - 1, maxChars);
      assert words[k - 1..][0] == words[k - 1] && words[k - 1..][1..] == words[k..];
    }
  }

  /** No layout has fewer lines. */
  lemma {:induction false} CountLowerBound(groups: seq<seq<string>>, words: seq<string>, maxChars: nat)
    requires words != [] && IsLayout(groups, words, maxChars)
    ensures Count(|words[0]|, words[1..], maxChars) <= |groups|
    decreases groups
  {
    assert groups != [];
    var g, rest := groups[0], groups[1..];
    assert g in groups && Fits(g, maxChars);
    var k := |g|;
    assert words[..k] == g && words[k..] == Flatten(rest);
    CountAbsorbs(words, k, maxChars);
    if words[k..] != [] {
      assert forall x <- rest :: x in groups;
      CountLowerBound(rest, words[k..], maxChars);
      CountSkip(|Join(g, " ")|, words[k..], maxChars);
    }
  }

  /** Pack's lines are themselves a layout. */
  lemma {:induction false} PackLayout(group: seq<string>, words: seq<string>, maxChars: nat)
    returns (groups: seq<seq<string>>)
    requires group != [] && AllWords(group) && AllWords(words) && Fits(group, maxChars)
    ensures IsLayout(groups, group + words, maxChars)
    ensures Rendered(groups) == Pack(Join(group, " "), words, maxChars)
    decreases words
  {
    hide Join, Pack, Fits, Flatten, Rendered;
    JoinNonEmpty(group);
    if words == [] {
      groups := [group];
      PackEnd(Join(group, " "), maxChars);
      assert group + words == group;
      GroupsFirst(group, []);
    } else {
      assert words[0] in words;
      var w, rest := words[0], words[1..];
      JoinLast(group + [w], " ");
      assert (group + [w])[..|group|] == group;
      PackOne(Join(group, " "), words, maxChars);
      if |Widen(Join(group, " "), w)| > maxChars {
        assert Fits([w], maxChars) && Join([w], " ") == w by { LoneWord(w, maxChars); }
        var later := PackLayout([w], rest, maxChars);
        groups := [group] + later;
        assert [w] + rest == words;
        GroupsFirst(group, later);
      } else {
        assert Fits(group + [w], maxChars) by { FitsBy(group + [w], maxChars); }
        groups := PackLayout(group + [w], rest, maxChars);
        assert group + [w] + rest == group + words;
      }
    }
  }

  lemma GroupsFirst(group: seq<string>, later: seq<seq<string>>)
    ensures Flatten([group] + later) == group + Flatten(later) && Flatten([group]) == group
    ensures Rendered([group] + later) == [Join(group, " ")] + Rendered(later) && Rendered([group]) == [Join(group, " ")]
  {
    hide Join;
    assert ([group] + later)[1..] == later && [group][1..] == [] && group + [] == group;
    assert Flatten([]) == [] && Rendered([]) == [];
  }

  lemma PackOne(current: string, words: seq<string>, maxChars: nat)
    requires words != []
    ensures Pack(current, words, maxChars)
         == if |Widen(current, words[0])| > maxChars && current != "" then [current] + Pack(words[0], words[1..], maxChars)
            else Pack(Widen(current, words[0]), words[1..], maxChars)
  {
  }

  lemma LoneWord(w: string, maxChars: nat)
    ensures Fits([w], maxChars) && Join([w], " ") == w
  {
    var group := [w];
    assert |group| == 1 && group[0] == w;
  }

  lemma FitsBy(group: seq<string>, maxChars: nat)
    requires group != [] && |Join(group, " ")| <= maxChars
    ensures Fits(group, maxChars)
  {
  }

  lemma {:induction false} JoinNonEmpty(words: seq<string>)
    requires words != [] && AllWords(words)
    ensures Join(words, " ") != ""
  {
    assert words[0] in words;
  }

  /** For text of several words splitChunk uses the fewest lines there can be: its lines come from a
      layout of the words, in which every line fits or is one overlong word, and no layout is shorter. */
  lemma FewestLines(text: string, maxChars: nat)
    requires maxChars > 0 && |Fields(text)| > 1
    ensures exists groups :: IsLayout(groups, Fields(text), maxChars) && Chunks(text, maxChars) == Rendered(groups)
    ensures forall groups | IsLayout(groups, Fields(text), maxChars) :: |Chunks(text, maxChars)| <= |groups|
  {
    var words := Fields(text);
    FieldsAreWords(text);
    var w, rest := words[0], words[1..];
    assert w in words;
    assert words == [w] + rest && Widen("", w) == w && Join([w], " ") == w;
    var groups := PackLayout([w], rest, maxChars);
    PackCount(w, rest, maxChars);
    forall other | IsLayout(other, words, maxChars) ensures |Chunks(text, maxChars)| <= |other| {
      CountLowerBound(other, words, maxChars);
    }
  }
}
