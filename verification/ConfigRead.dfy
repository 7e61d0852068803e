/** What the whole of a written configuration file is read back as. */
module ConfigRead {
  import opened Wrappers
  import opened Text
  import opened Numbers
  import opened ConfigFile
  import opened ConfigLines

  // ---------------------------------------------------------------- items and sections

  function AppliedItems(cfg: Config, section: string, items: seq<Item>): Option<Config>
    decreases items
  {
    if items == [] then Some(cfg)
    else match ReadAs(cfg, section, items[0].name, ItemValue(items[0]))
      case None => None
      case Some(next) => AppliedItems(next, section, items[1..])
  }

  predicate AllWritten(items: seq<Item>) {
    forall item <- items :: Written(item)
  }

  lemma {:induction false} ItemsConcat(cfg: Config, section: string, a: seq<Item>, b: seq<Item>)
    ensures AppliedItems(cfg, section, a + b) == match AppliedItems(cfg, section, a)
            case None => None
            case Some(next) => AppliedItems(next, section, b)
    decreases a
  {
    hide ReadAs, ItemValue;
    if a == [] {
      assert a + b == b;
    } else {
      assert (a + b)[1..] == a[1..] + b;
      var r := ReadAs(cfg, section, a[0].name, ItemValue(a[0]));
      if r.Some? { ItemsConcat(r.value, section, a[1..], b); }
    }
  }

  lemma {:induction false} ItemsRead(cfg: Config, section: string, items: seq<Item>, rest: seq<string>, n: nat)
    requires AllWritten(items)
    ensures match AppliedItems(cfg, section, items)
            case Some(next) => ReadAll(cfg, section, ItemLines(items) + rest, n) == ReadAll(next, section, rest, n + |items|)
            case None => ReadAll(cfg, section, ItemLines(items) + rest, n).Err?
    decreases items
  {
    hide ReadAs, ItemValue, ItemLine, Read, Written, ReadAll;
    var lines := ItemLines(items) + rest;
    if items == [] {
      assert lines == rest;
    } else {
      var item := items[0];
      assert item in items;
      ReadItem(cfg, section, item);
      ReadFirst(cfg, section, lines, n);
      assert lines[0] == ItemLine(item) && lines[1..] == ItemLines(items[1..]) + rest;
      var r := ReadAs(cfg, section, item.name, ItemValue(item));
      if r.Some? { ItemsRead(r.value, section, items[1..], rest, n + 1); }
    }
  }

  predicate HeaderName(s: string) {
    s != "" && forall c <- s :: BareChar(c) || c == '.' || c == '-'
  }

  predicate Proper(section: Section) {
    HeaderName(section.name) && section.header == "[" + section.name + "]" && AllWritten(section.items)
  }

  lemma ReadHeader(cfg: Config, section: string, name: string)
    requires HeaderName(name)
    ensures Read(cfg, section, "[" + name + "]") == Ok((name, cfg))
  {
    hide CommentAt, ReadKey;
    var line := "[" + name + "]";
    assert '"' !in line && '#' !in line;
    CommentBehind(line, "");
    assert line + "" == line;
    NothingComments();
    TrimTrimmed(GoSpace, line);
    assert name[0] in name && name[|name| - 1] in name;
    TrimTrimmed(GoSpace, name);
    assert line[1..|line| - 1] == name;
  }

  lemma ReadBlank(cfg: Config, section: string)
    ensures Read(cfg, section, "") == Ok((section, cfg))
  {
    NothingComments();
    TrimTrimmed(GoSpace, "");
  }

  function AppliedSections(cfg: Config, sections: seq<Section>): Option<Config>
    decreases sections
  {
    if sections == [] then Some(cfg)
    else match AppliedItems(cfg, sections[0].name, sections[0].items)
      case None => None
      case Some(next) => AppliedSections(next, sections[1..])
  }

  lemma {:induction false} SectionsConcat(cfg: Config, a: seq<Section>, b: seq<Section>)
    ensures AppliedSections(cfg, a + b) == match AppliedSections(cfg, a)
            case None => None
            case Some(next) => AppliedSections(next, b)
    decreases a
  {
    hide AppliedItems;
    if a == [] {
      assert a + b == b;
    } else {
      assert (a + b)[1..] == a[1..] + b;
      var r := AppliedItems(cfg, a[0].name, a[0].items);
      if r.Some? { SectionsConcat(r.value, a[1..], b); }
    }
  }

  /** The section that the lines behind some sections belong to. */
  function LastSection(section: string, sections: seq<Section>): string {
    if sections == [] then section else sections[|sections| - 1].name
  }

  lemma {:induction false} SectionsReadThen(cfg: Config, section: string, sections: seq<Section>, rest: seq<string>, n: nat)
    requires forall s <- sections :: Proper(s)
    ensures var lines := SectionLines(sections);
            match AppliedSections(cfg, sections)
            case Some(next) =>
              ReadAll(cfg, section, lines + rest, n) == ReadAll(next, LastSection(section, sections), rest, n + |lines|)
            case None => ReadAll(cfg, section, lines + rest, n).Err?
    decreases sections
  {
    hide Read, AppliedItems, ReadAll;
    var lines := SectionLines(sections) + rest;
    if sections == [] {
      assert lines == rest;
    } else {
      ReadFirst(cfg, section, lines, n);
      var s := sections[0];
      assert s in sections;
      var later := SectionLines(sections[1..]) + rest;
      assert lines[0] == s.header && lines[1..] == ItemLines(s.items) + ([""] + later);
      ReadHeader(cfg, section, s.name);
      ItemsRead(cfg, s.name, s.items, [""] + later, n + 1);
      var r := AppliedItems(cfg, s.name, s.items);
      if r.Some? {
        ReadFirst(r.value, s.name, [""] + later, n + 1 + |s.items|);
        assert ([""] + later)[1..] == later;
        ReadBlank(r.value, s.name);
        SectionsReadThen(r.value, s.name, sections[1..], rest, n + 1 + |s.items| + 1);
        assert |SectionLines(sections)| == 1 + |s.items| + 1 + |SectionLines(sections[1..])|;
      }
    }
  }

  lemma SectionsRead(cfg: Config, section: string, sections: seq<Section>, n: nat)
    requires forall s <- sections :: Proper(s)
    ensures match AppliedSections(cfg, sections)
            case Some(next) => ReadAll(cfg, section, SectionLines(sections) + [""], n) == Ok(next)
            case None => ReadAll(cfg, section, SectionLines(sections) + [""], n).Err?
  {
    hide Read, AppliedSections, SectionLines, ReadAll;
    SectionsReadThen(cfg, section, sections, [""], n);
    var r := AppliedSections(cfg, sections);
    if r.Some? { ReadBlankLines(r.value, LastSection(section, sections), [""], n + |SectionLines(sections)|); }
  }

  lemma {:induction false} ReadBlankLines(cfg: Config, section: string, lines: seq<string>, n: nat)
    requires forall line <- lines :: line == ""
    ensures ReadAll(cfg, section, lines, n) == Ok(cfg)
    decreases lines
  {
    hide Read;
    if lines != [] {
      assert lines[0] in lines;
      ReadBlank(cfg, section);
      assert forall line <- lines[1..] :: line in lines;
      ReadBlankLines(cfg, section, lines[1..], n + 1);
    }
  }

  predicate NoBreaks(items: seq<Item>) {
    forall item <- items :: '\n' !in item.text
  }

  lemma {:induction false} SectionBreaks(sections: seq<Section>)
    requires forall s <- sections :: Proper(s) && NoBreaks(s.items)
    ensures forall line <- SectionLines(sections) :: '\n' !in line
  {
    if sections != [] {
      var s := sections[0];
      assert s in sections;
      SectionBreaks(sections[1..]);
      forall line | line in ItemLines(s.items) ensures '\n' !in line {
        var i :| 0 <= i < |s.items| && ItemLines(s.items)[i] == line;
        assert s.items[i] in s.items;
        ItemBreak(s.items[i]);
      }
      assert '\n' !in s.header;
    }
  }

  lemma ItemBreak(item: Item)
    requires Written(item) && '\n' !in item.text
    ensures '\n' !in ItemLine(item)
  {
    hide Escaped;
    EscapedLacks(item.text);
  }

  lemma {:induction false} EscapedLacks(v: string)
    requires '\n' !in v
    ensures '\n' !in Escaped(v)
  {
    hide Escaped;
    if v == "" {
      EscapedNothing();
    } else {
      assert v == [v[0]] + v[1..] && v[0] in v;
      EscapedCons(v[0], v[1..]);
      EscapedLacks(v[1..]);
    }
  }

  /** Without line breaks in the values, the file is read as its sections, item by item. */
  lemma SavedRead(cfg: Config)
    requires forall s <- SavedSections(cfg) :: Proper(s) && NoBreaks(s.items)
    ensures Parsed(Saved(cfg)).Ok? <==> AppliedSections(NO_CONFIG, SavedSections(cfg)).Some?
    ensures Parsed(Saved(cfg)).Ok? ==> AppliedSections(NO_CONFIG, SavedSections(cfg)) == Some(Parsed(Saved(cfg)).value)
  {
    hide SavedSections, Proper, NoBreaks, ReadAll;
    SectionBreaks(SavedSections(cfg));
    LinesOfUnlines(SectionLines(SavedSections(cfg)));
    SectionsRead(NO_CONFIG, "", SavedSections(cfg), 1);
  }

  // ---------------------------------------------------------------- the UI settings

  lemma FlagNames(k: Key)
    requires IsFlag(k) && !k.IncludeSubfolders?
    ensures Bare(KeyName(k)) && KeyName(k) != "schema_version"
  {
  }

  lemma ScanNames(k: Key)
    requires k.IncludeSubfolders? || k.MaxFiles?
    ensures Bare(KeyName(k)) && KeyName(k) != "schema_version"
  {
  }

  predicate IsDefault(k: Key) {
    k.DefaultAsrProvider? || k.DefaultTranslationProvider? || k.DefaultAsrModel? || k.DefaultTranslationModel?
  }

  lemma DefaultNames(k: Key)
    requires IsDefault(k)
    ensures Bare(KeyName(k)) && KeyName(k) != "schema_version"
  {
  }

  lemma TextNames(k: Key)
    requires IsText(k) && !IsDefault(k)
    ensures Bare(KeyName(k)) && KeyName(k) != "schema_version"
  {
  }

  lemma NamesBare(k: Key)
    ensures Bare(KeyName(k)) && KeyName(k) != "schema_version"
  {
    hide KeyName, Bare;
    if k.IncludeSubfolders? || k.MaxFiles? { ScanNames(k); }
    else if IsFlag(k) { FlagNames(k); }
    else if IsDefault(k) { DefaultNames(k); }
    else { TextNames(k); }
  }

  lemma NamesDiffer(a: Key, b: Key)
    ensures KeyName(a) == KeyName(b) ==> a == b
  {
  }

  lemma {:induction false} NamedKey(k: Key, keys: seq<Key>)
    requires k in keys
    ensures KeyNamed(KeyName(k), keys) == Some(k)
  {
    hide KeyName;
    if keys[0] != k { NamedKey(k, keys[1..]); }
    NamesDiffer(keys[0], k);
  }

  function FlagOf(flags: map<Key, bool>, k: Key): Option<bool> {
    if k in flags then Some(flags[k]) else None
  }

  /** `after` is `before` with every written field of `ui` among `keys` set to what is read back. */
  ghost predicate UiReadAs(before: Ui, ui: Ui, keys: seq<Key>, after: Ui) {
    && (forall k: Key | IsText(k) ::
         if k in keys && TextOf(ui.texts, k) != "" then Outcome(TextOf(ui.texts, k)) == Some(TextOf(after.texts, k))
         else TextOf(after.texts, k) == TextOf(before.texts, k))
    && (forall k: Key | IsFlag(k) ::
         FlagOf(after.flags, k) == FlagOf(if k in keys && k in ui.flags then ui.flags else before.flags, k))
    && after.maxFiles == (if MaxFiles in keys && ui.maxFiles > 0 then ui.maxFiles else before.maxFiles)
  }

  lemma SetText(cfg: Config, k: Key, value: string)
    requires IsText(k)
    ensures Applied(cfg, "ui", KeyName(k), value) == Ok(cfg.(ui := cfg.ui.(texts := cfg.ui.texts[k := value])))
  {
    hide KeyName, KeyNamed;
    NamesBare(k);
    NamedKey(k, UI_KEYS);
    assert ProviderSection("ui") == None;
  }

  lemma SetFlag(cfg: Config, k: Key, value: bool)
    requires IsFlag(k)
    ensures Applied(cfg, "ui", KeyName(k), BoolText(value)) == Ok(cfg.(ui := cfg.ui.(flags := cfg.ui.flags[k := value])))
  {
    hide KeyName, KeyNamed, ParsedBool;
    NamesBare(k);
    NamedKey(k, UI_KEYS);
    BoolRoundTrip(value);
    assert ProviderSection("ui") == None;
  }

  lemma BoolRoundTrip(value: bool)
    ensures ParsedBool(BoolText(value)) == Some(value) && Bare(BoolText(value))
  {
    assert ToLower(BoolText(value)) == BoolText(value);
  }

  lemma SetMaxFiles(cfg: Config, value: nat)
    requires value <= MAX_INT64
    ensures Applied(cfg, "ui", KeyName(MaxFiles), Decimal(value)) == Ok(cfg.(ui := cfg.ui.(maxFiles := value)))
  {
    hide KeyName, KeyNamed, Decimal, Atoi;
    NamesBare(MaxFiles);
    NamedKey(MaxFiles, UI_KEYS);
    DecimalValue(value);
    AtoiDigits(Decimal(value));
    assert ProviderSection("ui") == None;
  }

  lemma OneApplied(cfg: Config, section: string, item: Item)
    ensures AppliedItems(cfg, section, [item]) == ReadAs(cfg, section, item.name, ItemValue(item))
  {
    assert [item][1..] == [];
  }

  lemma MaxFilesRead(cfg: Config, ui: Ui, k: Key)
    requires ui.maxFiles <= MAX_INT64 && k.MaxFiles?
    ensures var r := AppliedItems(cfg, "ui", UiItem(ui, k));
            && (r.Some? <==> (IsText(k) && TextOf(ui.texts, k) != "" ==> Outcome(TextOf(ui.texts, k)).Some?))
            && (r.Some? ==> UiReadAs(cfg.ui, ui, [k], r.value.ui) && r.value == cfg.(ui := r.value.ui))
  {
    hide Applied, Outcome, KeyName, Decimal;
    if ui.maxFiles > 0 {
      OneApplied(cfg, "ui", Item(KeyName(k), Decimal(ui.maxFiles), false));
      SetMaxFiles(cfg, ui.maxFiles);
    }
  }

  lemma FlagRead(cfg: Config, ui: Ui, k: Key)
    requires ui.maxFiles <= MAX_INT64 && IsFlag(k)
    ensures var r := AppliedItems(cfg, "ui", UiItem(ui, k));
            && (r.Some? <==> (IsText(k) && TextOf(ui.texts, k) != "" ==> Outcome(TextOf(ui.texts, k)).Some?))
            && (r.Some? ==> UiReadAs(cfg.ui, ui, [k], r.value.ui) && r.value == cfg.(ui := r.value.ui))
  {
    hide Applied, Outcome, KeyName, Decimal;
    if k in ui.flags {
      OneApplied(cfg, "ui", Item(KeyName(k), BoolText(ui.flags[k]), false));
      SetFlag(cfg, k, ui.flags[k]);
    }
  }

  lemma TextRead(cfg: Config, ui: Ui, k: Key)
    requires ui.maxFiles <= MAX_INT64 && IsText(k)
    ensures var r := AppliedItems(cfg, "ui", UiItem(ui, k));
            && (r.Some? <==> (IsText(k) && TextOf(ui.texts, k) != "" ==> Outcome(TextOf(ui.texts, k)).Some?))
            && (r.Some? ==> UiReadAs(cfg.ui, ui, [k], r.value.ui) && r.value == cfg.(ui := r.value.ui))
  {
    hide Applied, Outcome, KeyName, Decimal;
    if TextOf(ui.texts, k) != "" {
      OneApplied(cfg, "ui", Item(KeyName(k), ui.texts[k], true));
      var v := Outcome(ui.texts[k]);
      if v.Some? { SetText(cfg, k, v.value); }
    }
  }

  lemma UiItemRead(cfg: Config, ui: Ui, k: Key)
    requires ui.maxFiles <= MAX_INT64
    ensures var r := AppliedItems(cfg, "ui", UiItem(ui, k));
            && (r.Some? <==> (IsText(k) && TextOf(ui.texts, k) != "" ==> Outcome(TextOf(ui.texts, k)).Some?))
            && (r.Some? ==> UiReadAs(cfg.ui, ui, [k], r.value.ui) && r.value == cfg.(ui := r.value.ui))
  {
    hide AppliedItems, UiItem, UiReadAs, Outcome;
    if k.MaxFiles? { MaxFilesRead(cfg, ui, k); } else if IsFlag(k) { FlagRead(cfg, ui, k); } else { TextRead(cfg, ui, k); }
  }

  predicate Distinct(keys: seq<Key>) {
    forall i, j | 0 <= i < j < |keys| :: keys[i] != keys[j]
  }

  /** Every text that is written can be parsed. */
  ghost predicate AllRead(ui: Ui, keys: seq<Key>) {
    forall k <- keys :: IsText(k) && TextOf(ui.texts, k) != "" ==> Outcome(TextOf(ui.texts, k)).Some?
  }

  lemma UiReadThen(a: Ui, ui: Ui, k: Key, b: Ui, keys: seq<Key>, c: Ui)
    requires UiReadAs(a, ui, [k], b) && UiReadAs(b, ui, keys, c) && k !in keys
    ensures UiReadAs(a, ui, [k] + keys, c)
  {
    hide Outcome;
  }

  lemma {:induction false} UiRead(cfg: Config, ui: Ui, keys: seq<Key>)
    requires ui.maxFiles <= MAX_INT64 && Distinct(keys)
    ensures var r := AppliedItems(cfg, "ui", UiItems(ui, keys));
            && (r.Some? <==> AllRead(ui, keys))
            && (r.Some? ==> UiReadAs(cfg.ui, ui, keys, r.value.ui) && r.value == cfg.(ui := r.value.ui))
    decreases keys
  {
    hide AppliedItems, UiItem, UiReadAs, Outcome;
    if keys == [] {
      NothingApplied(cfg, "ui");
      assert UiReadAs(cfg.ui, ui, [], cfg.ui) by { NoKeysRead(cfg.ui, ui); }
    } else {
      var k, rest := keys[0], keys[1..];
      assert keys == [k] + rest;
      ItemsConcat(cfg, "ui", UiItem(ui, k), UiItems(ui, rest));
      UiItemRead(cfg, ui, k);
      var r := AppliedItems(cfg, "ui", UiItem(ui, k));
      assert AllRead(ui, keys) <==> r.Some? && AllRead(ui, rest);
      if r.Some? {
        UiRead(r.value, ui, rest);
        var last := AppliedItems(r.value, "ui", UiItems(ui, rest));
        if last.Some? { UiReadThen(cfg.ui, ui, k, r.value.ui, rest, last.value.ui); }
      }
    }
  }

  lemma NothingApplied(cfg: Config, section: string)
    ensures AppliedItems(cfg, section, []) == Some(cfg)
  {
  }

  lemma NoKeysRead(before: Ui, ui: Ui)
    ensures UiReadAs(before, ui, [], before)
  {
  }

  // ---------------------------------------------------------------- the providers

  ghost predicate ProviderReadAs(before: Provider, p: Provider, keys: seq<ProviderKey>, after: Provider) {
    forall k: ProviderKey ::
      if k in keys && TextOf(p.texts, k) != "" then Outcome(TextOf(p.texts, k)) == Some(TextOf(after.texts, k))
      else TextOf(after.texts, k) == TextOf(before.texts, k)
  }

  ghost predicate AllProviderRead(p: Provider, keys: seq<ProviderKey>) {
    forall k <- keys :: TextOf(p.texts, k) != "" ==> Outcome(TextOf(p.texts, k)).Some?
  }

  function SetProvider(cfg: Config, id: string, p: Provider): Config {
    cfg.(providers := cfg.providers[id := p], openAI := if id == TRANSCRIPTION then p else cfg.openAI)
  }

  predicate Known(id: string) {
    id == TRANSCRIPTION || id == CHAT
  }

  lemma SetProviderText(cfg: Config, id: string, k: ProviderKey, value: string)
    requires Known(id)
    ensures var p := ProviderOf(cfg, id);
            Applied(cfg, "providers." + id, ProviderKeyName(k), value)
              == Ok(SetProvider(cfg, id, p.(texts := p.texts[k := value])))
  {
    ProviderNames(k);
    KnownSection(id);
  }

  lemma KnownSection(id: string)
    requires Known(id)
    ensures ProviderSection("providers." + id) == Some(id)
  {
    hide ProviderSection;
    TranscriptionSection();
    ChatSection();
  }

  lemma TranscriptionSection()
    ensures ProviderSection("providers." + TRANSCRIPTION) == Some(TRANSCRIPTION)
  {
    assert "providers." + TRANSCRIPTION == "providers.api-openai-transcription";
  }

  lemma ChatSection()
    ensures ProviderSection("providers." + CHAT) == Some(CHAT)
  {
    assert "providers." + CHAT == "providers.api-openai-chat";
  }

  lemma ProviderNames(k: ProviderKey)
    ensures Bare(ProviderKeyName(k)) && Bare("words")
  {
  }

  lemma SetWords(cfg: Config, id: string, value: bool)
    requires Known(id)
    ensures Applied(cfg, "providers." + id, "words", BoolText(value))
              == Ok(SetProvider(cfg, id, ProviderOf(cfg, id).(words := Some(value))))
  {
    hide ParsedBool;
    KnownSection(id);
    BoolRoundTrip(value);
  }

  lemma ProviderTextRead(cfg: Config, id: string, p: Provider, k: ProviderKey)
    requires Known(id)
    ensures var r, text := AppliedItems(cfg, "providers." + id, ProviderText(p, k)), TextOf(p.texts, k);
            && (text == "" ==> r == Some(cfg))
            && (text != "" ==>
                 match Outcome(text)
                 case None => r == None
                 case Some(v) =>
                   var q := ProviderOf(cfg, id); r == Some(SetProvider(cfg, id, q.(texts := q.texts[k := v]))))
  {
    hide Applied, Outcome;
    var text := TextOf(p.texts, k);
    if text != "" {
      OneApplied(cfg, "providers." + id, Item(ProviderKeyName(k), text, true));
      if Outcome(text).Some? { SetProviderText(cfg, id, k, Outcome(text).value); }
    }
  }

  /** Only the provider with the id changed, and for the transcription provider its copy with it. */
  predicate OnlyProvider(before: Config, id: string, after: Config) {
    after == before || (id in after.providers && after == SetProvider(before, id, after.providers[id]))
  }

  lemma OnlyProviderThen(a: Config, id: string, b: Config, c: Config)
    requires OnlyProvider(a, id, b) && OnlyProvider(b, id, c)
    ensures OnlyProvider(a, id, c)
  {
    if b != a && c != b {
      assert a.providers[id := b.providers[id]][id := c.providers[id]] == a.providers[id := c.providers[id]];
    }
  }

  lemma ProviderTextReadAs(cfg: Config, id: string, p: Provider, k: ProviderKey)
    requires Known(id)
    ensures var r := AppliedItems(cfg, "providers." + id, ProviderText(p, k));
            && (r.Some? <==> (TextOf(p.texts, k) != "" ==> Outcome(TextOf(p.texts, k)).Some?))
            && (r.Some? ==>
                 && OnlyProvider(cfg, id, r.value)
                 && ProviderReadAs(ProviderOf(cfg, id), p, [k], ProviderOf(r.value, id))
                 && ProviderOf(r.value, id).words == ProviderOf(cfg, id).words)
  {
    hide AppliedItems, Outcome;
    ProviderTextRead(cfg, id, p, k);
  }

  lemma ProviderReadThen(a: Provider, p: Provider, k: ProviderKey, b: Provider, keys: seq<ProviderKey>, c: Provider)
    requires ProviderReadAs(a, p, [k], b) && ProviderReadAs(b, p, keys, c) && k !in keys
    ensures ProviderReadAs(a, p, [k] + keys, c)
  {
    hide Outcome;
  }

  lemma NoProviderKeysRead(before: Provider, p: Provider)
    ensures ProviderReadAs(before, p, [], before)
  {
  }

  lemma {:induction false} ProviderTextsRead(cfg: Config, id: string, p: Provider, keys: seq<ProviderKey>)
    requires Known(id) && forall i, j | 0 <= i < j < |keys| :: keys[i] != keys[j]
    ensures var r := AppliedItems(cfg, "providers." + id, ProviderTexts(p, keys));
            && (r.Some? <==> AllProviderRead(p, keys))
            && (r.Some? ==>
                 && OnlyProvider(cfg, id, r.value)
                 && ProviderReadAs(ProviderOf(cfg, id), p, keys, ProviderOf(r.value, id))
                 && ProviderOf(r.value, id).words == ProviderOf(cfg, id).words)
    decreases keys
  {
    hide AppliedItems, ProviderText, ProviderReadAs, Outcome, OnlyProvider, ProviderOf;
    var section := "providers." + id;
    if keys == [] {
      NothingApplied(cfg, section);
      NoProviderKeysRead(ProviderOf(cfg, id), p);
      assert OnlyProvider(cfg, id, cfg) by { SameConfigOnly(cfg, id); }
    } else {
      var k, rest := keys[0], keys[1..];
      assert keys == [k] + rest;
      ItemsConcat(cfg, section, ProviderText(p, k), ProviderTexts(p, rest));
      ProviderTextReadAs(cfg, id, p, k);
      var r := AppliedItems(cfg, section, ProviderText(p, k));
      assert AllProviderRead(p, keys) <==> r.Some? && AllProviderRead(p, rest);
      if r.Some? {
        ProviderTextsRead(r.value, id, p, rest);
        var last := AppliedItems(r.value, section, ProviderTexts(p, rest));
        if last.Some? {
          OnlyProviderThen(cfg, id, r.value, last.value);
          ProviderReadThen(ProviderOf(cfg, id), p, k, ProviderOf(r.value, id), rest, ProviderOf(last.value, id));
        }
      }
    }
  }

  lemma SameConfigOnly(cfg: Config, id: string)
    ensures OnlyProvider(cfg, id, cfg)
  {
  }

  lemma WordsRead(cfg: Config, id: string, value: bool)
    requires Known(id)
    ensures AppliedItems(cfg, "providers." + id, [Item("words", BoolText(value), false)])
              == Some(SetProvider(cfg, id, ProviderOf(cfg, id).(words := Some(value))))
  {
    hide Applied;
    OneApplied(cfg, "providers." + id, Item("words", BoolText(value), false));
    SetWords(cfg, id, value);
  }

  /** What is read back of a provider's section, if it has one. */
  ghost predicate ProviderRead(before: Config, id: string, p: Provider, after: Config) {
    && OnlyProvider(before, id, after)
    && ProviderReadAs(ProviderOf(before, id), p, PROVIDER_KEYS, ProviderOf(after, id))
    && ProviderOf(after, id).words == (if p.words.Some? then p.words else ProviderOf(before, id).words)
  }

  lemma ProviderItemsRead(cfg: Config, id: string, p: Provider)
    requires Known(id)
    ensures var r := AppliedItems(cfg, "providers." + id, ProviderItems(p));
            (r.Some? <==> AllProviderRead(p, PROVIDER_KEYS)) && (r.Some? ==> ProviderRead(cfg, id, p, r.value))
  {
    hide AppliedItems, ProviderTexts, Outcome, ProviderReadAs;
    var section, texts := "providers." + id, ProviderTexts(p, PROVIDER_KEYS);
    ProviderTextsRead(cfg, id, p, PROVIDER_KEYS);
    var r := AppliedItems(cfg, section, texts);
    if p.words == None {
      assert texts + [] == texts;
    } else {
      ItemsConcat(cfg, section, texts, [Item("words", BoolText(p.words.value), false)]);
      if r.Some? {
        WordsRead(r.value, id, p.words.value);
        var last := SetProvider(r.value, id, ProviderOf(r.value, id).(words := p.words));
        OnlyProviderThen(cfg, id, r.value, last);
        SameTextsRead(ProviderOf(cfg, id), p, ProviderOf(r.value, id), ProviderOf(last, id));
      }
    }
  }

  lemma SameTextsRead(a: Provider, p: Provider, b: Provider, c: Provider)
    requires ProviderReadAs(a, p, PROVIDER_KEYS, b) && b.texts == c.texts
    ensures ProviderReadAs(a, p, PROVIDER_KEYS, c)
  {
    hide Outcome;
  }

  lemma ProviderSectionsRead(cfg: Config, id: string, p: Provider)
    requires Known(id)
    ensures var r := AppliedSections(cfg, ProviderSections(id, p));
            (r.Some? <==> AllProviderRead(p, PROVIDER_KEYS)) && (r.Some? ==> ProviderRead(cfg, id, p, r.value))
  {
    hide AppliedItems, ProviderItems, Outcome, ProviderReadAs;
    ProviderItemsRead(cfg, id, p);
    var s := Section("[providers." + id + "]", "providers." + id, ProviderItems(p));
    if ProviderItems(p) == [] {
      NothingApplied(cfg, "providers." + id);
    } else {
      assert [s][1..] == [];
    }
  }

  // ---------------------------------------------------------------- the whole file

  function SavedProvider(cfg: Config, id: string): Provider {
    if id in cfg.providers then cfg.providers[id] else if id == TRANSCRIPTION then cfg.openAI else NO_PROVIDER
  }

  /** The order of Save's sections. */
  lemma SavedParts(cfg: Config)
    ensures SavedSections(cfg)
         == [Section("[ui]", "ui", [Item("schema_version", "1", false)] + UiItems(cfg.ui, UI_KEYS))]
            + ProviderSections(TRANSCRIPTION, SavedProvider(cfg, TRANSCRIPTION))
            + ProviderSections(CHAT, SavedProvider(cfg, CHAT))
  {
    hide UiItems;
    if CHAT !in cfg.providers {
      BlankProvider(NO_PROVIDER);
      assert ProviderSections(CHAT, NO_PROVIDER) == [];
    }
  }

  lemma UiSectionRead(cfg: Config)
    requires cfg.ui.maxFiles <= MAX_INT64
    ensures var r := AppliedSections(NO_CONFIG,
                       [Section("[ui]", "ui", [Item("schema_version", "1", false)] + UiItems(cfg.ui, UI_KEYS))]);
            && (r.Some? <==> AllRead(cfg.ui, UI_KEYS))
            && (r.Some? ==> UiReadAs(NO_UI, cfg.ui, UI_KEYS, r.value.ui) && r.value == NO_CONFIG.(ui := r.value.ui))
  {
    hide AppliedItems, UiItems, AllRead, UiReadAs;
    var version := [Item("schema_version", "1", false)];
    var ui := Section("[ui]", "ui", version + UiItems(cfg.ui, UI_KEYS));
    assert [ui][1..] == [];
    ItemsConcat(NO_CONFIG, "ui", version, UiItems(cfg.ui, UI_KEYS));
    OneApplied(NO_CONFIG, "ui", version[0]);
    assert ProviderSection("ui") == None;
    UiRead(NO_CONFIG, cfg.ui, UI_KEYS);
  }

  /** Everything written is read back as its outcome, or the file is refused. */
  lemma SectionsReadBack(cfg: Config)
    requires cfg.ui.maxFiles <= MAX_INT64
    ensures var r := AppliedSections(NO_CONFIG, SavedSections(cfg));
            var t, c := SavedProvider(cfg, TRANSCRIPTION), SavedProvider(cfg, CHAT);
            && (r.Some? <==> AllRead(cfg.ui, UI_KEYS) && AllProviderRead(t, PROVIDER_KEYS) && AllProviderRead(c, PROVIDER_KEYS))
            && (r.Some? ==>
                 && UiReadAs(NO_UI, cfg.ui, UI_KEYS, r.value.ui)
                 && ProviderReadAs(NO_PROVIDER, t, PROVIDER_KEYS, ProviderOf(r.value, TRANSCRIPTION))
                 && ProviderReadAs(NO_PROVIDER, c, PROVIDER_KEYS, ProviderOf(r.value, CHAT))
                 && ProviderOf(r.value, TRANSCRIPTION).words == t.words
                 && ProviderOf(r.value, CHAT).words == c.words
                 && r.value.openAI == ProviderOf(r.value, TRANSCRIPTION))
  {
    hide AppliedSections, SavedSections, UiItems, ProviderSections, AllRead, UiReadAs, AllProviderRead,
         ProviderReadAs, Outcome;
    var ui := [Section("[ui]", "ui", [Item("schema_version", "1", false)] + UiItems(cfg.ui, UI_KEYS))];
    var t, c := SavedProvider(cfg, TRANSCRIPTION), SavedProvider(cfg, CHAT);
    SavedParts(cfg);
    UiSectionRead(cfg);
    SectionsConcat(NO_CONFIG, ui + ProviderSections(TRANSCRIPTION, t), ProviderSections(CHAT, c));
    SectionsConcat(NO_CONFIG, ui, ProviderSections(TRANSCRIPTION, t));
    var first := AppliedSections(NO_CONFIG, ui);
    if first.Some? {
      ProviderSectionsRead(first.value, TRANSCRIPTION, t);
      var second := AppliedSections(first.value, ProviderSections(TRANSCRIPTION, t));
      if second.Some? {
        ProviderSectionsRead(second.value, CHAT, c);
      }
    }
  }
}
