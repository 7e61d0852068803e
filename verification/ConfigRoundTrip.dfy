/** When a saved configuration is read back unchanged. */
module ConfigRoundTrip {
  import opened Wrappers
  import opened Text
  import opened Numbers
  import opened ConfigFile
  import opened ConfigLines
  import opened ConfigRead

  // ---------------------------------------------------------------- no value read has a line break

  predicate UiUnbroken(ui: Ui) {
    forall k <- ui.texts :: '\n' !in ui.texts[k]
  }

  predicate ProviderUnbroken(p: Provider) {
    forall k <- p.texts :: '\n' !in p.texts[k]
  }

  predicate Unbroken(cfg: Config) {
    UiUnbroken(cfg.ui) && ProviderUnbroken(cfg.openAI) && forall id <- cfg.providers :: ProviderUnbroken(cfg.providers[id])
  }

  lemma AppliedUnbroken(cfg: Config, section: string, name: string, value: string)
    requires Unbroken(cfg) && '\n' !in value
    ensures Applied(cfg, section, name, value).Ok? ==> Unbroken(Applied(cfg, section, name, value).value)
  {
    hide KeyNamed, ParsedBool, ParsedInt;
    var id := ProviderSection(section);
    if id.Some? {
      ProviderUnbrokenBy(ProviderOf(cfg, id.value), name, value);
    } else if UiSection(section) {
      UiUnbrokenBy(cfg.ui, name, value);
    }
  }

  lemma ProviderUnbrokenBy(p: Provider, name: string, value: string)
    requires ProviderUnbroken(p) && '\n' !in value
    ensures AppliedProvider(p, name, value).Ok? ==> ProviderUnbroken(AppliedProvider(p, name, value).value)
  {
    hide ParsedBool;
  }

  lemma UiUnbrokenBy(ui: Ui, name: string, value: string)
    requires UiUnbroken(ui) && '\n' !in value
    ensures AppliedUi(ui, name, value).Ok? ==> UiUnbroken(AppliedUi(ui, name, value).value)
  {
    hide KeyNamed, ParsedBool, ParsedInt;
  }

  lemma {:induction false} ReplaceLacks(s: string, from: string, to: string, c: char)
    requires from != "" && c !in s && c !in to
    ensures c !in ReplaceAll(s, from, to)
  {
    if s != "" {
      assert s[0] in s;
      if from <= s {
        assert forall x <- s[|from|..] :: x in s;
        ReplaceLacks(s[|from|..], from, to, c);
      } else {
        ReplaceLacks(s[1..], from, to, c);
      }
    }
  }

  lemma TrimLacks(s: string, c: char)
    requires c !in s
    ensures c !in TrimSpace(s)
  {
    var a, b := TrimSplit(GoSpace, s);
  }

  lemma ValueUnbroken(value: string)
    requires '\n' !in value
    ensures ParsedValue(value).Ok? ==> '\n' !in ParsedValue(value).value
  {
    if value != "" && value[0] == '"' && |value| > 1 {
      ReplaceLacks(value[1..|value| - 1], "\\\"", "\"", '\n');
    }
  }

  lemma StrippedUnbroken(line: string)
    requires '\n' !in line
    ensures '\n' !in Stripped(line)
  {
    hide TrimSpace;
    TrimLacks(line[..CommentAt(line, false)], '\n');
  }

  lemma ReadUnbroken(cfg: Config, section: string, raw: string)
    requires Unbroken(cfg) && '\n' !in raw
    ensures Read(cfg, section, raw).Ok? ==> Unbroken(Read(cfg, section, raw).value.1)
  {
    hide Unbroken, Applied, ParsedValue, Stripped, TrimSpace, IndexOf;
    TrimLacks(raw, '\n');
    StrippedUnbroken(TrimSpace(raw));
    var line := Stripped(TrimSpace(raw));
    var i := IndexOf(line, '=');
    if i < |line| {
      TrimLacks(line[i + 1..], '\n');
      var value := ParsedValue(TrimSpace(line[i + 1..]));
      ValueUnbroken(TrimSpace(line[i + 1..]));
      if value.Ok? { AppliedUnbroken(cfg, section, TrimSpace(line[..i]), value.value); }
    }
  }

  lemma {:induction false} ReadAllUnbroken(cfg: Config, section: string, lines: seq<string>, n: nat)
    requires Unbroken(cfg) && forall line <- lines :: '\n' !in line
    ensures ReadAll(cfg, section, lines, n).Ok? ==> Unbroken(ReadAll(cfg, section, lines, n).value)
    decreases lines
  {
    hide Read, Unbroken;
    if lines != [] {
      assert lines[0] in lines;
      ReadUnbroken(cfg, section, lines[0]);
      var r := Read(cfg, section, lines[0]);
      if r.Ok? { ReadAllUnbroken(r.value.1, r.value.0, lines[1..], n + 1); }
    }
  }

  lemma ParsedUnbroken(text: string)
    ensures Parsed(text).Ok? ==> Unbroken(Parsed(text).value)
  {
    LinesHaveNoBreak(text);
    ReadAllUnbroken(NO_CONFIG, "", Lines(text), 1);
  }

  // ---------------------------------------------------------------- errors

  /** The error of some lines is that of the first that cannot be read, and carries its number. */
  lemma {:induction false} ErrorAt(cfg: Config, section: string, lines: seq<string>, n: nat)
    requires ReadAll(cfg, section, lines, n).Err?
    ensures exists i | 0 <= i < |lines| ::
              && ReadAll(cfg, section, lines, n).error.line == n + i
              && ReadAll(cfg, section, lines[..i], n).Ok?
              && ReadAll(cfg, section, lines[..i + 1], n) == ReadAll(cfg, section, lines, n)
    decreases lines
  {
    hide Read;
    var r := Read(cfg, section, lines[0]);
    if r.Err? {
      assert lines[..0] == [] && lines[..0 + 1] == [lines[0]];
      assert ReadAll(cfg, section, lines, n).error.line == n + 0;
    } else {
      var (next, c) := r.value;
      ErrorAt(c, next, lines[1..], n + 1);
      var i :| 0 <= i < |lines[1..]| && ReadAll(c, next, lines[1..], n + 1).error.line == n + 1 + i
               && ReadAll(c, next, lines[1..][..i], n + 1).Ok?
               && ReadAll(c, next, lines[1..][..i + 1], n + 1) == ReadAll(c, next, lines[1..], n + 1);
      FirstRead(cfg, section, lines, i, n);
      FirstRead(cfg, section, lines, i + 1, n);
      assert ReadAll(cfg, section, lines, n).error.line == n + (i + 1);
    }
  }

  lemma FirstRead(cfg: Config, section: string, lines: seq<string>, i: nat, n: nat)
    requires i < |lines| && Read(cfg, section, lines[0]).Ok?
    ensures var (next, c) := Read(cfg, section, lines[0]).value;
            ReadAll(cfg, section, lines[..i + 1], n) == ReadAll(c, next, lines[1..][..i], n + 1)
  {
    hide Read;
    assert lines[..i + 1][0] == lines[0] && lines[..i + 1][1..] == lines[1..][..i];
  }

  /** A file that is refused is refused for its first line that cannot be read, whose number is given. */
  lemma RefusedAt(text: string)
    requires Parsed(text).Err?
    ensures exists i | 0 <= i < |Lines(text)| ::
              && Parsed(text).error.line == i + 1
              && ReadAll(NO_CONFIG, "", Lines(text)[..i], 1).Ok?
              && ReadAll(NO_CONFIG, "", Lines(text)[..i + 1], 1) == Parsed(text)
  {
    hide ReadAll, Lines;
    ErrorAt(NO_CONFIG, "", Lines(text), 1);
    var i :| 0 <= i < |Lines(text)| && Parsed(text).error.line == 1 + i && ReadAll(NO_CONFIG, "", Lines(text)[..i], 1).Ok?
             && ReadAll(NO_CONFIG, "", Lines(text)[..i + 1], 1) == Parsed(text);
    assert Parsed(text).error.line == i + 1;
  }

  // ---------------------------------------------------------------- the round trip of the file

  /** Text that comes back as it was written. */
  predicate Clean(v: string) {
    '\n' !in v && NoComment(v)
  }

  ghost predicate CleanUi(ui: Ui) {
    forall k: Key | IsText(k) :: Clean(TextOf(ui.texts, k))
  }

  ghost predicate CleanProvider(p: Provider) {
    forall k: ProviderKey :: Clean(TextOf(p.texts, k))
  }

  ghost predicate SameUi(a: Ui, b: Ui) {
    && (forall k: Key | IsText(k) :: TextOf(a.texts, k) == TextOf(b.texts, k))
    && (forall k: Key | IsFlag(k) :: FlagOf(a.flags, k) == FlagOf(b.flags, k))
    && a.maxFiles == b.maxFiles
  }

  ghost predicate SameProvider(a: Provider, b: Provider) {
    (forall k: ProviderKey :: TextOf(a.texts, k) == TextOf(b.texts, k)) && a.words == b.words
  }

  /** The same settings, as far as Save writes them. */
  ghost predicate SameSettings(a: Config, b: Config) {
    && SameUi(a.ui, b.ui)
    && SameProvider(a.openAI, SavedProvider(b, TRANSCRIPTION))
    && SameProvider(ProviderOf(a, TRANSCRIPTION), SavedProvider(b, TRANSCRIPTION))
    && SameProvider(ProviderOf(a, CHAT), SavedProvider(b, CHAT))
  }

  ghost predicate UnbrokenTexts(cfg: Config) {
    && (forall k: Key | IsText(k) :: '\n' !in TextOf(cfg.ui.texts, k))
    && (forall k: ProviderKey :: '\n' !in TextOf(SavedProvider(cfg, TRANSCRIPTION).texts, k))
    && (forall k: ProviderKey :: '\n' !in TextOf(SavedProvider(cfg, CHAT).texts, k))
  }

  lemma UiItemProper(ui: Ui, k: Key)
    requires IsText(k) ==> '\n' !in TextOf(ui.texts, k)
    ensures AllWritten(UiItem(ui, k)) && NoBreaks(UiItem(ui, k))
  {
    hide KeyName, Decimal, Bare;
    NamesBare(k);
    if ui.maxFiles > 0 { DecimalBare(ui.maxFiles); }
    BoolRoundTrip(true);
    BoolRoundTrip(false);
    assert '\n' !in "true" && '\n' !in "false";
  }

  lemma DecimalBare(n: nat)
    ensures Bare(Decimal(n)) && '\n' !in Decimal(n)
  {
    hide Decimal;
  }

  lemma {:induction false} UiItemsProper(ui: Ui, keys: seq<Key>)
    requires forall k: Key | IsText(k) :: '\n' !in TextOf(ui.texts, k)
    ensures AllWritten(UiItems(ui, keys)) && NoBreaks(UiItems(ui, keys))
  {
    hide UiItem, Written;
    if keys != [] {
      UiItemProper(ui, keys[0]);
      UiItemsProper(ui, keys[1..]);
    }
  }

  lemma {:induction false} ProviderTextsProper(p: Provider, keys: seq<ProviderKey>)
    requires forall k: ProviderKey :: '\n' !in TextOf(p.texts, k)
    ensures AllWritten(ProviderTexts(p, keys)) && NoBreaks(ProviderTexts(p, keys))
  {
    hide Bare;
    if keys != [] {
      ProviderNames(keys[0]);
      ProviderTextsProper(p, keys[1..]);
    }
  }

  lemma ProviderProper(id: string, p: Provider)
    requires Known(id) && forall k: ProviderKey :: '\n' !in TextOf(p.texts, k)
    ensures forall s <- ProviderSections(id, p) :: Proper(s) && NoBreaks(s.items)
  {
    hide ProviderTexts, Bare;
    ProviderTextsProper(p, PROVIDER_KEYS);
    ProviderNames(Model);
    BoolRoundTrip(true);
    BoolRoundTrip(false);
    assert '\n' !in "true" && '\n' !in "false";
    ProviderHeader(id);
  }

  lemma ProviderHeader(id: string)
    requires Known(id)
    ensures HeaderName("providers." + id) && "[providers." + id + "]" == "[" + ("providers." + id) + "]"
  {
  }

  lemma SavedProper(cfg: Config)
    requires UnbrokenTexts(cfg)
    ensures forall s <- SavedSections(cfg) :: Proper(s) && NoBreaks(s.items)
  {
    hide UiItems, ProviderSections, SavedSections, Written, SavedProvider;
    SavedParts(cfg);
    UiItemsProper(cfg.ui, UI_KEYS);
    VersionProper();
    ProviderProper(TRANSCRIPTION, SavedProvider(cfg, TRANSCRIPTION));
    ProviderProper(CHAT, SavedProvider(cfg, CHAT));
    assert HeaderName("ui");
  }

  lemma VersionProper()
    ensures Written(Item("schema_version", "1", false)) && '\n' !in "1"
  {
  }

  lemma EveryKey(k: Key)
    ensures k in UI_KEYS
  {
    var i := match k
      case Language => 0 case TargetLanguage => 1 case OutputDirectory => 2 case OutputConflict => 3
      case OutputFormat => 4 case OutputType => 5 case BurnInVideo => 6 case Device => 7
      case DefaultAsrProvider => 8 case DefaultTranslationProvider => 9 case DefaultAsrModel => 10
      case DefaultTranslationModel => 11 case WordTimestamps => 12 case KeepTemp => 13
      case IncludeSubfolders => 14 case MaxFiles => 15;
    assert UI_KEYS[i] == k;
  }

  lemma EveryProviderKey(k: ProviderKey)
    ensures k in PROVIDER_KEYS
  {
    var i := match k case Model => 0 case ApiKeyEnv => 1 case BaseUrl => 2 case UploadFormat => 3;
    assert PROVIDER_KEYS[i] == k;
  }

  lemma NothingLost()
    ensures Outcome("") == Some("")
  {
    OutcomeIff("");
  }

  lemma CleanUiRead(ui: Ui, after: Ui)
    requires forall k: Key | IsText(k) :: NoComment(TextOf(ui.texts, k))
    ensures AllRead(ui, UI_KEYS)
    ensures UiReadAs(NO_UI, ui, UI_KEYS, after) && ui.maxFiles >= 0 ==> SameUi(after, ui)
  {
    hide Outcome, NoComment;
    forall k: Key ensures k in UI_KEYS && (IsText(k) ==> Outcome(TextOf(ui.texts, k)) == Some(TextOf(ui.texts, k))) {
      EveryKey(k);
      if IsText(k) { OutcomeIff(TextOf(ui.texts, k)); }
    }
  }

  lemma CleanProviderRead(p: Provider, after: Provider)
    requires forall k: ProviderKey :: NoComment(TextOf(p.texts, k))
    ensures AllProviderRead(p, PROVIDER_KEYS)
    ensures ProviderReadAs(NO_PROVIDER, p, PROVIDER_KEYS, after) && after.words == p.words ==> SameProvider(after, p)
  {
    hide Outcome, NoComment;
    forall k: ProviderKey ensures k in PROVIDER_KEYS && Outcome(TextOf(p.texts, k)) == Some(TextOf(p.texts, k)) {
      EveryProviderKey(k);
      OutcomeIff(TextOf(p.texts, k));
    }
  }

  lemma SameUiClean(ui: Ui, after: Ui)
    requires UiReadAs(NO_UI, ui, UI_KEYS, after)
    requires forall k: Key | IsText(k) :: TextOf(after.texts, k) == TextOf(ui.texts, k)
    ensures forall k: Key | IsText(k) :: NoComment(TextOf(ui.texts, k))
  {
    hide Outcome, NoComment;
    NothingLost();
    forall k: Key | IsText(k) ensures NoComment(TextOf(ui.texts, k)) {
      EveryKey(k);
      OutcomeIff(TextOf(ui.texts, k));
    }
  }

  lemma SameProviderClean(p: Provider, after: Provider)
    requires ProviderReadAs(NO_PROVIDER, p, PROVIDER_KEYS, after) && SameProvider(after, p)
    ensures forall k: ProviderKey :: NoComment(TextOf(p.texts, k))
  {
    hide Outcome, NoComment;
    NothingLost();
    forall k: ProviderKey ensures NoComment(TextOf(p.texts, k)) {
      EveryProviderKey(k);
      OutcomeIff(TextOf(p.texts, k));
    }
  }

  lemma UnbrokenLookup<K>(texts: map<K, string>, k: K)
    requires forall key <- texts :: '\n' !in texts[key]
    ensures '\n' !in TextOf(texts, k)
  {
  }

  lemma UnbrokenBySettings(c: Config, cfg: Config)
    requires Unbroken(c) && SameSettings(c, cfg)
    ensures UnbrokenTexts(cfg)
  {
    forall k: Key | IsText(k) ensures '\n' !in TextOf(cfg.ui.texts, k) {
      UnbrokenLookup(c.ui.texts, k);
      assert TextOf(c.ui.texts, k) == TextOf(cfg.ui.texts, k);
    }
    forall k: ProviderKey, id | Known(id) ensures '\n' !in TextOf(SavedProvider(cfg, id).texts, k) {
      UnbrokenLookup(ProviderOf(c, id).texts, k);
      assert TextOf(ProviderOf(c, id).texts, k) == TextOf(SavedProvider(cfg, id).texts, k);
    }
  }

  ghost predicate CleanSettings(cfg: Config) {
    && CleanUi(cfg.ui)
    && CleanProvider(SavedProvider(cfg, TRANSCRIPTION))
    && CleanProvider(SavedProvider(cfg, CHAT))
  }

  lemma CleanComesBack(cfg: Config)
    requires cfg.ui.maxFiles <= MAX_INT64 && CleanSettings(cfg)
    ensures Parsed(Saved(cfg)).Ok? && Parsed(Saved(cfg)).value.ui.maxFiles >= 0
    ensures cfg.ui.maxFiles >= 0 ==> SameSettings(Parsed(Saved(cfg)).value, cfg)
  {
    hide AllRead, UiReadAs, AllProviderRead, ProviderReadAs, SavedSections, AppliedSections, Parsed, Saved, NoComment,
         SavedProvider, ProviderOf;
    var t, c := SavedProvider(cfg, TRANSCRIPTION), SavedProvider(cfg, CHAT);
    SavedProper(cfg);
    SavedRead(cfg);
    SectionsReadBack(cfg);
    CleanUiRead(cfg.ui, NO_UI);
    CleanProviderRead(t, NO_PROVIDER);
    CleanProviderRead(c, NO_PROVIDER);
    var r := Parsed(Saved(cfg)).value;
    CleanUiRead(cfg.ui, r.ui);
    CleanProviderRead(t, ProviderOf(r, TRANSCRIPTION));
    CleanProviderRead(c, ProviderOf(r, CHAT));
    assert r.ui.maxFiles >= 0 by { MaxFilesRange(cfg.ui, r.ui); }
  }

  lemma MaxFilesRange(ui: Ui, after: Ui)
    requires UiReadAs(NO_UI, ui, UI_KEYS, after)
    ensures after.maxFiles == if ui.maxFiles > 0 then ui.maxFiles else 0
  {
    hide Outcome;
    EveryKey(MaxFiles);
  }

  lemma UnchangedIsClean(cfg: Config)
    requires cfg.ui.maxFiles <= MAX_INT64
    requires Parsed(Saved(cfg)).Ok? && SameSettings(Parsed(Saved(cfg)).value, cfg)
    ensures CleanSettings(cfg) && cfg.ui.maxFiles >= 0
  {
    hide AllRead, UiReadAs, AllProviderRead, ProviderReadAs, SavedSections, AppliedSections, Parsed, Saved, NoComment,
         SavedProvider, ProviderOf, Unbroken, SameProvider;
    var r := Parsed(Saved(cfg)).value;
    ParsedUnbroken(Saved(cfg));
    UnbrokenBySettings(r, cfg);
    SavedProper(cfg);
    SavedRead(cfg);
    SectionsReadBack(cfg);
    SameUiClean(cfg.ui, r.ui);
    SameProviderClean(SavedProvider(cfg, TRANSCRIPTION), ProviderOf(r, TRANSCRIPTION));
    SameProviderClean(SavedProvider(cfg, CHAT), ProviderOf(r, CHAT));
    MaxFilesRange(cfg.ui, r.ui);
  }

  /** A saved configuration is read back with the same settings exactly when no text that is written has
      a line break or a '#' behind an odd number of quotation marks, and the file limit is not negative. */
  lemma FileRoundTrip(cfg: Config)
    requires cfg.ui.maxFiles <= MAX_INT64
    ensures Parsed(Saved(cfg)).Ok? && SameSettings(Parsed(Saved(cfg)).value, cfg)
            <==> CleanSettings(cfg) && cfg.ui.maxFiles >= 0
  {
    hide Parsed, Saved, SameSettings, CleanSettings;
    if Parsed(Saved(cfg)).Ok? && SameSettings(Parsed(Saved(cfg)).value, cfg) { UnchangedIsClean(cfg); }
    if CleanSettings(cfg) { CleanComesBack(cfg); }
  }
}
