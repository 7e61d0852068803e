/** What one written line of the configuration file is read back as. */
module ConfigLines {
  import opened Wrappers
  import opened Text
  import opened ConfigFile

  // ---------------------------------------------------------------- quoting

  lemma EscapedCons(c: char, s: string)
    ensures Escaped([c] + s) == (if c == '"' then "\\\"" else [c]) + Escaped(s)
  {
    assert ([c] + s)[1..] == s && ("\"")[0] == '"';
    assert "\"" <= [c] + s <==> c == '"';
  }

  lemma {:induction false} EscapedConcat(a: string, b: string)
    ensures Escaped(a + b) == Escaped(a) + Escaped(b)
  {
    hide Escaped;
    if a == "" {
      assert a + b == b && Escaped("") == "" by { EscapedNothing(); }
    } else {
      assert a == [a[0]] + a[1..] && a + b == [a[0]] + (a[1..] + b);
      EscapedCons(a[0], a[1..] + b);
      EscapedCons(a[0], a[1..]);
      EscapedConcat(a[1..], b);
    }
  }

  lemma EscapedNothing()
    ensures Escaped("") == "" && Escaped("\"") == "\\\""
  {
    EscapedCons('"', "");
    assert ['"'] + "" == "\"" && "\\\"" + "" == "\\\"";
  }

  /** Unescaping undoes escaping, also ahead of text that does not start with a quotation mark. */
  lemma {:induction false} UnescapedAhead(a: string, s: string)
    requires s == "" || s[0] != '"'
    ensures Unescaped(Escaped(a) + s) == a + Unescaped(s)
  {
    if a == "" {
      assert Escaped(a) + s == s;
    } else {
      var rest := a[1..];
      var later := Escaped(rest) + s;
      assert a == [a[0]] + rest;
      EscapedCons(a[0], rest);
      UnescapedAhead(rest, s);
      if a[0] == '"' {
        assert Escaped(a) + s == "\\\"" + later && ("\\\"" + later)[2..] == later;
        assert a + Unescaped(s) == "\"" + (rest + Unescaped(s));
      } else {
        assert Escaped(a) + s == [a[0]] + later && ([a[0]] + later)[1..] == later;
        EscapedStart(rest, s);
        assert ("\\\"")[1] == '"' && !("\\\"" <= [a[0]] + later);
        assert a + Unescaped(s) == [a[0]] + (rest + Unescaped(s));
      }
    }
  }

  lemma EscapedStart(a: string, s: string)
    requires s == "" || s[0] != '"'
    ensures var t := Escaped(a) + s; t == "" || t[0] != '"'
  {
    if a == "" {
      assert Escaped(a) + s == s;
    } else {
      assert a == [a[0]] + a[1..];
      EscapedCons(a[0], a[1..]);
    }
  }

  /** Unescaping undoes escaping for every string. */
  lemma EscapeRoundTrip(v: string)
    ensures Unescaped(Escaped(v)) == v
  {
    UnescapedAhead(v, "");
    assert Escaped(v) + "" == Escaped(v) && v + "" == v;
  }

  lemma {:induction false} EscapedEnds(v: string)
    requires v != ""
    ensures Escaped(v) != "" && Escaped(v)[|Escaped(v)| - 1] == v[|v| - 1]
    ensures |Escaped(v)| >= |v| && (Escaped(v)[0] == v[0] || (v[0] == '"' && Escaped(v)[0] == '\\'))
  {
    assert v == [v[0]] + v[1..];
    EscapedCons(v[0], v[1..]);
    if v[1..] != "" { EscapedEnds(v[1..]); } else { EscapedNothing(); }
  }

  // ---------------------------------------------------------------- comments

  /** The text that is read back when `v` is written between quotation marks: a '#' that an odd number
      of quotation marks precedes starts a comment, and the rest is lost. */
  function Outcome(v: string): Option<string> {
    var i := CommentAt(v, true);
    var kept := TrimRight(GoSpace, v[..i]);
    if i == |v| then Some(v)
    else if kept != "" && kept[|kept| - 1] == '"' then Some(kept[..|kept| - 1] + "\\")
    else None
  }

  function QuoteMarks(s: string): nat {
    if s == "" then 0 else (if s[0] == '"' then 1 else 0) + QuoteMarks(s[1..])
  }

  /** Every '#' has an even number of quotation marks ahead of it. */
  predicate NoComment(v: string) {
    forall i | 0 <= i < |v| && v[i] == '#' :: QuoteMarks(v[..i]) % 2 == 0
  }

  lemma {:induction false} CommentIff(v: string, inQuote: bool)
    ensures CommentAt(v, inQuote) == |v|
            <==> forall i | 0 <= i < |v| && v[i] == '#' :: (QuoteMarks(v[..i]) % 2 == 0 <==> inQuote)
  {
    if v != "" {
      var rest := v[1..];
      var q := if v[0] == '"' then !inQuote else inQuote;
      CommentIff(rest, q);
      assert QuoteMarks(v[..0]) == 0;
      forall i | 0 < i <= |v| ensures QuoteMarks(v[..i]) == (if v[0] == '"' then 1 else 0) + QuoteMarks(rest[..i - 1]) {
        assert v[..i][1..] == rest[..i - 1];
      }
      assert forall i | 0 <= i < |rest| :: rest[i] == v[i + 1];
      if CommentAt(v, inQuote) == |v| {
        forall i | 0 <= i < |v| && v[i] == '#' ensures QuoteMarks(v[..i]) % 2 == 0 <==> inQuote {
          if i > 0 { assert rest[i - 1] == '#'; }
        }
      }
      if forall i | 0 <= i < |v| && v[i] == '#' :: (QuoteMarks(v[..i]) % 2 == 0 <==> inQuote) {
        forall i | 0 <= i < |rest| && rest[i] == '#' ensures QuoteMarks(rest[..i]) % 2 == 0 <==> q {
          assert v[i + 1] == '#' && QuoteMarks(v[..i + 1]) == (if v[0] == '"' then 1 else 0) + QuoteMarks(rest[..i]);
        }
      }
    }
  }

  /** A text comes back as it was exactly when no '#' in it starts a comment. */
  lemma OutcomeIff(v: string)
    ensures Outcome(v) == Some(v) <==> NoComment(v)
  {
    CommentIff(v, true);
    var i := CommentAt(v, true);
    var b := TrimRightSplit(GoSpace, v[..i]);
  }

  lemma {:induction false} CommentEscaped(v: string, inQuote: bool)
    ensures var i := CommentAt(v, inQuote);
            CommentAt(Escaped(v) + "\"", inQuote) == if i < |v| then |Escaped(v[..i])| else |Escaped(v) + "\""|
  {
    if v == "" {
      assert Escaped(v) + "\"" == "\"";
    } else {
      var c, rest := v[0], v[1..];
      var s := Escaped(v) + "\"";
      assert v == [c] + rest;
      EscapedCons(c, rest);
      var i := CommentAt(v, inQuote);
      if c == '"' {
        CommentEscaped(rest, !inQuote);
        assert s[0] == '\\' && s[1] == '"' && s[1..][1..] == Escaped(rest) + "\"";
      } else {
        CommentEscaped(rest, if c == '"' then !inQuote else inQuote);
        assert s[0] == c && s[1..] == Escaped(rest) + "\"";
      }
      if 0 < i < |v| {
        assert v[..i] == [c] + rest[..i - 1];
        EscapedCons(c, rest[..i - 1]);
      }
      if i == 0 { assert v[..0] == ""; }
    }
  }

  predicate BareChar(c: char) {
    'a' <= c <= 'z' || Digit(c) || c == '_'
  }

  /** Key names, and values written without quotation marks. */
  predicate Bare(s: string) {
    s != "" && forall c <- s :: BareChar(c)
  }

  lemma {:induction false} CommentBehind(a: string, s: string)
    requires '"' !in a && '#' !in a
    ensures CommentAt(a + s, false) == |a| + CommentAt(s, false)
  {
    if a == "" {
      assert a + s == s;
    } else {
      assert a[0] in a && (a + s)[1..] == a[1..] + s;
      CommentBehind(a[1..], s);
    }
  }

  /** A line behind its name. */
  function Line(name: string, value: string): string {
    name + " = " + value
  }

  lemma LineTrimmed(name: string, value: string)
    requires Bare(name) && value != "" && !GoSpace(value[|value| - 1])
    ensures Text.Trimmed(GoSpace, Line(name, value)) && TrimSpace(Line(name, value)) == Line(name, value)
  {
    var line := Line(name, value);
    assert line[0] == name[0] && name[0] in name;
    TrimTrimmed(GoSpace, line);
  }

  lemma LineComment(name: string, value: string)
    requires Bare(name)
    ensures CommentAt(Line(name, value), false) == |name| + 3 + CommentAt(value, false)
  {
    CommentBehind(name + " = ", value);
  }

  lemma {:induction false} IndexBehind(a: string, c: char, s: string)
    requires c !in a
    ensures IndexOf(a + [c] + s, c) == |a|
  {
    var t := a + [c] + s;
    if a != "" {
      assert a[0] in a && t[1..] == a[1..] + [c] + s;
      IndexBehind(a[1..], c, s);
    }
  }

  lemma BlankBehind(s: string)
    requires Text.Trimmed(GoSpace, s)
    ensures TrimSpace(s + " ") == s
  {
    TrimPadded(GoSpace, "", s, " ");
    assert "" + s + " " == s + " ";
  }

  lemma BlankAhead(s: string)
    requires Text.Trimmed(GoSpace, s)
    ensures TrimSpace(" " + s) == s
  {
    TrimPadded(GoSpace, " ", s, "");
    assert " " + s + "" == " " + s;
  }

  /** A line `name = value` sets the key, unless the value cannot be parsed. */
  lemma ReadLine(cfg: Config, section: string, name: string, value: string)
    requires Bare(name) && value != "" && Text.Trimmed(GoSpace, value)
    ensures ReadKey(cfg, section, Line(name, value)) == match ParsedValue(value)
            case Err(e) => Err(e)
            case Ok(v) => (match Applied(cfg, section, name, v) case Err(e) => Err(e) case Ok(next) => Ok((section, next)))
  {
    hide ParsedValue, Applied, IndexOf, TrimSpace;
    var line := Line(name, value);
    assert line == (name + " ") + ['='] + (" " + value);
    assert '=' !in name + " ";
    IndexBehind(name + " ", '=', " " + value);
    assert line[..|name| + 1] == name + " " && line[|name| + 2..] == " " + value;
    assert name[0] in name && name[|name| - 1] in name;
    BlankBehind(name);
    BlankAhead(value);
  }

  lemma NotHeader(name: string, value: string)
    requires Bare(name)
    ensures Line(name, value)[0] != '['
  {
    assert name[0] in name && Line(name, value)[0] == name[0];
  }

  /** Outcomes of lines. */
  function ItemValue(item: Item): Option<string> {
    if item.quoted then Outcome(item.text) else Some(item.text)
  }

  predicate Written(item: Item) {
    Bare(item.name) && (!item.quoted ==> Bare(item.text))
  }

  function ReadAs(cfg: Config, section: string, name: string, value: Option<string>): Option<Config> {
    if value == None then None
    else match Applied(cfg, section, name, value.value) case Err(_) => None case Ok(next) => Some(next)
  }

  lemma ReadBare(cfg: Config, section: string, item: Item)
    requires Written(item) && !item.quoted
    ensures ReadsAs(cfg, section, item)
  {
    hide Applied, CommentAt;
    var text := item.text;
    assert text[0] in text && text[|text| - 1] in text;
    LineTrimmed(item.name, text);
    LineComment(item.name, text);
    CommentBehind(text, "");
    assert text + "" == text && CommentAt("", false) == 0 by { NothingComments(); }
    NotHeader(item.name, text);
    assert ' ' !in text && '\t' !in text;
    ReadLine(cfg, section, item.name, text);
  }

  lemma NothingComments()
    ensures CommentAt("", false) == 0
  {
  }

  /** Reading the line gives the same as setting the key to the outcome. */
  ghost predicate ReadsAs(cfg: Config, section: string, item: Item) {
    match ReadAs(cfg, section, item.name, ItemValue(item))
    case Some(next) => Read(cfg, section, ItemLine(item)) == Ok((section, next))
    case None => Read(cfg, section, ItemLine(item)).Err?
  }

  lemma ReadWhole(cfg: Config, section: string, item: Item)
    requires Written(item) && item.quoted && CommentAt(item.text, true) == |item.text|
    ensures ReadsAs(cfg, section, item)
  {
    hide Applied, CommentAt, Escaped, Unescaped, Read, ReadKey, TrimSpace;
    var value := Quoted(item.text);
    assert value[|value| - 1] == '"' && value[0] == '"';
    LineTrimmed(item.name, value);
    LineComment(item.name, value);
    QuotedComment(item.text);
    NotHeader(item.name, value);
    ReadPlainLine(cfg, section, Line(item.name, value));
    assert value[1..|value| - 1] == Escaped(item.text);
    EscapeRoundTrip(item.text);
    ReadLine(cfg, section, item.name, value);
  }

  lemma ReadCut(cfg: Config, section: string, item: Item)
    requires Written(item) && item.quoted && CommentAt(item.text, true) < |item.text|
    ensures ReadsAs(cfg, section, item)
  {
    hide Applied, CommentAt, Escaped, Unescaped, Read, ReadKey, TrimRight, ParsedValue, TrimSpace, Stripped;
    var name, v := item.name, item.text;
    var kept := TrimRight(GoSpace, v[..CommentAt(v, true)]);
    var value := Quoted(v);
    assert value[|value| - 1] == '"';
    LineTrimmed(name, value);
    CutLine(name, v);
    NotHeader(name, "\"" + Escaped(kept));
    ReadCutLine(cfg, section, Line(name, value), Line(name, "\"" + Escaped(kept)));
    CutValue(kept);
    var b := TrimRightSplit(GoSpace, v[..CommentAt(v, true)]);
    CutEnd(kept);
    ReadLine(cfg, section, name, "\"" + Escaped(kept));
  }

  lemma QuotedComment(v: string)
    ensures var i := CommentAt(v, true);
            CommentAt(Quoted(v), false) == if i < |v| then 1 + |Escaped(v[..i])| else |Quoted(v)|
  {
    hide Escaped;
    CommentEscaped(v, true);
    assert Quoted(v)[1..] == Escaped(v) + "\"";
  }

  lemma ReadPlainLine(cfg: Config, section: string, line: string)
    requires line != "" && TrimSpace(line) == line && CommentAt(line, false) == |line| && line[0] != '['
    ensures Read(cfg, section, line) == ReadKey(cfg, section, line)
  {
    hide TrimSpace, CommentAt, ReadKey;
  }

  lemma ReadCutLine(cfg: Config, section: string, line: string, cut: string)
    requires TrimSpace(line) == line && Stripped(line) == cut && cut != "" && cut[0] != '['
    ensures Read(cfg, section, line) == ReadKey(cfg, section, cut)
  {
    hide TrimSpace, Stripped, ReadKey;
  }

  lemma CutPrefix(name: string, v: string)
    requires Bare(name) && CommentAt(v, true) < |v|
    ensures var line, i := Line(name, Quoted(v)), CommentAt(v, true);
            CommentAt(line, false) < |line| && line[..CommentAt(line, false)] == Line(name, "\"" + Escaped(v[..i]))
  {
    hide CommentAt, Escaped;
    var i := CommentAt(v, true);
    var line := Line(name, Quoted(v));
    LineComment(name, Quoted(v));
    QuotedComment(v);
    EscapedConcat(v[..i], v[i..]);
    assert v == v[..i] + v[i..];
    var start := Line(name, "\"" + Escaped(v[..i]));
    assert line == start + (Escaped(v[i..]) + "\"");
    assert CommentAt(line, false) == |start|;
  }

  lemma CutTrimmed(name: string, p: string)
    requires Bare(name)
    ensures TrimSpace(Line(name, "\"" + Escaped(p))) == Line(name, "\"" + Escaped(TrimRight(GoSpace, p)))
  {
    hide Escaped, TrimSpace, Trim, TrimRight, TrimLeft;
    var kept := TrimRight(GoSpace, p);
    var b := TrimRightSplit(GoSpace, p);
    EscapedConcat(kept, b);
    EscapedBlank(b);
    var line := Line(name, "\"" + Escaped(kept));
    CutEnd(kept);
    LineTrimmed(name, "\"" + Escaped(kept));
    assert "" + line + b == Line(name, "\"" + Escaped(p));
    PaddedLine(line, b);
  }

  lemma PaddedLine(line: string, b: string)
    requires Text.Trimmed(GoSpace, line) && Blank(GoSpace, b)
    ensures TrimSpace("" + line + b) == line
  {
    TrimPadded(GoSpace, "", line, b);
  }

  /** What is left of a line that a comment cuts. */
  lemma CutLine(name: string, v: string)
    requires Bare(name) && CommentAt(v, true) < |v|
    ensures var kept := TrimRight(GoSpace, v[..CommentAt(v, true)]);
            Stripped(Line(name, Quoted(v))) == Line(name, "\"" + Escaped(kept))
  {
    hide CommentAt, Escaped, TrimSpace, TrimRight, Line;
    CutPrefix(name, v);
    CutTrimmed(name, v[..CommentAt(v, true)]);
  }

  lemma CutEnd(kept: string)
    requires kept == "" || !GoSpace(kept[|kept| - 1])
    ensures Text.Trimmed(GoSpace, "\"" + Escaped(kept))
    ensures var s := "\"" + Escaped(kept); !GoSpace(s[|s| - 1])
  {
    if kept != "" { EscapedEnds(kept); } else { EscapedNothing(); }
  }

  lemma {:induction false} EscapedBlank(b: string)
    requires Blank(GoSpace, b)
    ensures Escaped(b) == b
  {
    assert '"' !in b && ("\"")[0] == '"';
    ReplaceAbsent(b, "\"", "\\\"");
  }

  /** The value of a line that a comment cut. */
  lemma CutValue(kept: string)
    ensures ParsedValue("\"" + Escaped(kept)) ==
            if kept != "" && kept[|kept| - 1] == '"' then Ok(kept[..|kept| - 1] + "\\") else Err(Unterminated)
  {
    hide Unescaped;
    var value := "\"" + Escaped(kept);
    if kept == "" {
      EscapedNothing();
    } else {
      EscapedEnds(kept);
      var last := |kept| - 1;
      if kept[last] == '"' {
        assert kept == kept[..last] + "\"";
        EscapedConcat(kept[..last], "\"");
        EscapedNothing();
        assert value[1..|value| - 1] == Escaped(kept[..last]) + "\\";
        UnescapedAhead(kept[..last], "\\");
        assert Unescaped("\\") == "\\" by { LoneBackslash(); }
      }
    }
  }

  lemma LoneBackslash()
    ensures Unescaped("\\") == "\\"
  {
    assert |"\\\""| == 2 && !("\\\"" <= "\\") && ("\\")[1..] == "";
  }

  lemma ReadItem(cfg: Config, section: string, item: Item)
    requires Written(item)
    ensures ReadsAs(cfg, section, item)
  {
    hide ReadsAs;
    if !item.quoted { ReadBare(cfg, section, item); }
    else if CommentAt(item.text, true) == |item.text| { ReadWhole(cfg, section, item); }
    else { ReadCut(cfg, section, item); }
  }
}
