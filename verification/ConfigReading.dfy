/** What ParseFile makes of files written by hand (internal/config/config.go): section names, blanks,
    comments and the lines it refuses. */
module ConfigReading {
  import opened Wrappers
  import opened Text
  import opened Numbers
  import opened ConfigFile
  import opened ConfigLines

  /** Each section has several names; a key in a section of another name has no effect. */
  lemma SectionNames(cfg: Config, section: string, name: string, value: string)
    ensures section in {"api-openai-transcription", "openai"} ==>
              Applied(cfg, section, name, value) == Applied(cfg, "providers.api-openai-transcription", name, value)
    ensures section == "api-openai-chat" ==>
              Applied(cfg, section, name, value) == Applied(cfg, "providers.api-openai-chat", name, value)
    ensures section in {"desktop", "daemon.ui"} ==> Applied(cfg, section, name, value) == Applied(cfg, "ui", name, value)
    ensures section !in {"providers.api-openai-transcription", "api-openai-transcription", "openai",
                         "providers.api-openai-chat", "api-openai-chat", "ui", "desktop", "daemon.ui"} ==>
              Applied(cfg, section, name, value) == Ok(cfg)
  {
    hide AppliedUi, AppliedProvider;
  }

  /** A key itself is never read from the file: it is refused in every provider section. */
  lemma KeyRefused(cfg: Config, section: string, value: string)
    requires section in {"providers.api-openai-transcription", "api-openai-transcription", "openai",
                         "providers.api-openai-chat", "api-openai-chat"}
    ensures Applied(cfg, section, "api_key", value) == Err(RawApiKey)
  {
  }

  lemma ReadTrimmed(cfg: Config, section: string, raw: string)
    ensures Read(cfg, section, raw) == Read(cfg, section, TrimSpace(raw))
  {
    hide ReadKey, Stripped;
    TrimIsTrimmed(GoSpace, raw);
    TrimTrimmed(GoSpace, TrimSpace(raw));
  }

  /** White space around a line, its name and its value means nothing. */
  lemma BlanksIgnored(cfg: Config, section: string, a: string, name: string, b: string, c: string, value: string, d: string)
    requires Blank(GoSpace, a) && Blank(GoSpace, b) && Blank(GoSpace, c) && Blank(GoSpace, d) && Bare(name) && Bare(value)
    ensures Read(cfg, section, a + (name + b + "=" + c + value) + d) == Read(cfg, section, name + "=" + value)
  {
    hide Read, ReadKey, Applied, Blank, Bare, Trim;
    var line := name + b + "=" + c + value;
    KeyOfLine(cfg, section, name, b, c, value);
    assert Blank(GoSpace, "") by { NoBlanks(); }
    KeyOfLine(cfg, section, name, "", "", value);
    assert name + "" + "=" + "" + value == name + "=" + value;
    TrimPadded(GoSpace, a, line, d);
    TrimTrimmed(GoSpace, line);
    TrimTrimmed(GoSpace, name + "=" + value);
    ReadTrimmed(cfg, section, a + line + d);
    WholeLine(cfg, section, line);
    WholeLine(cfg, section, name + "=" + value);
  }

  lemma NoBlanks()
    ensures Blank(GoSpace, "")
  {
  }

  /** A line of a key, without quotation marks and comments, is read as its name and its value. */
  lemma KeyOfLine(cfg: Config, section: string, name: string, b: string, c: string, value: string)
    requires Blank(GoSpace, b) && Blank(GoSpace, c) && Bare(name) && Bare(value)
    ensures var line := name + b + "=" + c + value;
            && '"' !in line && '#' !in line && line[0] != '[' && Text.Trimmed(GoSpace, line)
            && ReadKey(cfg, section, line) == match Applied(cfg, section, name, value)
                                             case Err(e) => Err(e)
                                             case Ok(next) => Ok((section, next))
  {
    hide Applied, IndexOf;
    var line := name + b + "=" + c + value;
    assert line == (name + b) + ['='] + (c + value);
    assert '=' !in name + b;
    IndexBehind(name + b, '=', c + value);
    assert line[..|name + b|] == name + b && line[|name + b| + 1..] == c + value;
    assert name[0] in name && name[|name| - 1] in name && value[0] in value && value[|value| - 1] in value;
    TrimPadded(GoSpace, "", name, b);
    TrimPadded(GoSpace, c, value, "");
    assert "" + name + b == name + b && c + value + "" == c + value;
    assert ' ' !in value && '\t' !in value;
  }

  lemma WholeLine(cfg: Config, section: string, line: string)
    requires line != "" && '"' !in line && '#' !in line && line[0] != '['
    ensures CommentAt(line, false) == |line|
    ensures TrimSpace(line) == line ==> Read(cfg, section, line) == ReadKey(cfg, section, line)
  {
    hide ReadKey, TrimSpace;
    CommentBehind(line, "");
    assert line + "" == line;
    NothingComments();
  }

  /** What follows a '#' on a line without quotation marks means nothing. */
  lemma CommentIgnored(cfg: Config, section: string, line: string, comment: string)
    requires '"' !in line && '#' !in line
    ensures Read(cfg, section, line + "#" + comment) == Read(cfg, section, line)
  {
    hide ReadKey, TrimLeft, TrimRight, CommentAt;
    CommentStripped(line, comment);
    PlainStripped(line);
  }

  lemma PlainStripped(line: string)
    requires '"' !in line && '#' !in line
    ensures Stripped(TrimSpace(line)) == TrimSpace(line)
  {
    var a, b := TrimSplit(GoSpace, line);
    var t := TrimSpace(line);
    assert '"' !in t && '#' !in t;
    CommentBehind(t, "");
    assert t + "" == t;
    NothingComments();
  }

  lemma CommentStripped(line: string, comment: string)
    requires '"' !in line && '#' !in line
    ensures Stripped(TrimSpace(line + "#" + comment)) == TrimSpace(line)
  {
    hide Trim, CommentAt;
    var all := line + "#" + comment;
    var kept := TrimmedComment(line, comment);
    CommentBehind(kept, TrimSpace(all)[|kept|..]);
    assert CommentAt(TrimSpace(all)[|kept|..], false) == 0 by { HashFirst(TrimSpace(all)[|kept|..]); }
    assert TrimSpace(all) == kept + TrimSpace(all)[|kept|..];
  }

  lemma HashFirst(s: string)
    requires s != "" && s[0] == '#'
    ensures CommentAt(s, false) == 0
  {
  }

  lemma NoBlankInTail(t: string, b: string)
    requires Blank(GoSpace, b)
    ensures forall k | |t| <= k < |t + b| :: GoSpace((t + b)[k])
  {
    assert forall k | |t| <= k < |t + b| :: (t + b)[k] == b[k - |t|] && b[k - |t|] in b;
  }

  lemma TrimLeftComment(line: string, comment: string)
    ensures var kept := TrimLeft(GoSpace, line);
            TrimLeft(GoSpace, line + "#" + comment) == kept + "#" + comment && TrimSpace(kept) == TrimSpace(line)
    ensures forall c <- TrimLeft(GoSpace, line) :: c in line
  {
    var a := TrimLeftSplit(GoSpace, line);
    var kept := TrimLeft(GoSpace, line);
    var tail := kept + "#" + comment;
    assert line + "#" + comment == a + tail;
    TrimLeftPadded(GoSpace, a, tail);
    assert tail[0] == (if kept == "" then '#' else kept[0]);
  }

  /** What trimming leaves of a line with a comment: the line without blanks ahead, and the comment. */
  lemma TrimmedComment(line: string, comment: string) returns (kept: string)
    requires '"' !in line && '#' !in line
    ensures var t := TrimSpace(line + "#" + comment); |kept| < |t| && t[..|kept|] == kept && t[|kept|] == '#'
    ensures '"' !in kept && '#' !in kept && TrimSpace(kept) == TrimSpace(line)
  {
    TrimLeftComment(line, comment);
    kept := TrimLeft(GoSpace, line);
    hide TrimLeft;
    var tail := kept + "#" + comment;
    var b := TrimRightSplit(GoSpace, tail);
    var t := TrimRight(GoSpace, tail);
    hide TrimRight;
    NoBlankInTail(t, b);
    assert tail == t + b && tail[|kept|] == '#' && !GoSpace('#');
    assert t == tail[..|t|];
    assert t[..|kept|] == kept;
  }
}
