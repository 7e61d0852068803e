/** The settings view of the daemon (internal/daemon/config_handlers.go): patching it, saving it and
    loading it again. */
module ConfigView {
  import opened Wrappers
  import opened Text
  import opened Numbers
  import opened ConfigFile
  import opened ConfigLines
  import opened ConfigRead
  import opened ConfigRoundTrip

  /** The UI fields of configView. */
  datatype View = View(texts: map<Key, string>, flags: map<Key, bool>, maxFiles: int)

  /** A value decoded from JSON; objects, arrays and null are not told apart. */
  datatype Json = Str(text: string) | Bool(flag: bool) | Number(number: real) | Other

  type Patch = map<string, Json>

  function Flag(flags: map<Key, bool>, k: Key): bool {
    k in flags && flags[k]
  }

  /** Conversion of a floating-point number to int drops the fraction. */
  function Truncated(x: real): int {
    if x >= 0.0 then x.Floor else -((-x).Floor)
  }

  /** The whole number next to it towards zero. */
  lemma TruncatedIs(x: real)
    ensures var n := Truncated(x) as real;
            -1.0 < x - n < 1.0 && (x >= 0.0 ==> 0.0 <= n <= x) && (x <= 0.0 ==> x <= n <= 0.0)
  {
  }

  // ---------------------------------------------------------------- mergeConfigView

  function MergedText(view: View, patch: Patch, k: Key): string {
    if KeyName(k) in patch && patch[KeyName(k)].Str? then patch[KeyName(k)].text else TextOf(view.texts, k)
  }

  function MergedFlag(view: View, patch: Patch, k: Key): bool {
    if KeyName(k) in patch && patch[KeyName(k)].Bool? then patch[KeyName(k)].flag else Flag(view.flags, k)
  }

  function MergedMaxFiles(view: View, patch: Patch): int {
    var name := KeyName(MaxFiles);
    if name in patch && patch[name].Number? then Truncated(patch[name].number) else view.maxFiles
  }

  /** `r` is the view with the fields of the patch that have the right type. */
  ghost predicate IsMerged(r: View, view: View, patch: Patch) {
    && (forall k: Key | IsText(k) :: TextOf(r.texts, k) == MergedText(view, patch, k))
    && (forall k: Key | IsFlag(k) :: Flag(r.flags, k) == MergedFlag(view, patch, k))
    && r.maxFiles == MergedMaxFiles(view, patch)
  }

  /** The part of the patch whose keys have been visited. */
  function Visited(patch: Patch, left: set<string>): Patch {
    map key | key in patch && key !in left :: patch[key]
  }

  function MergeOne(view: View, key: string, value: Json): View {
    match KeyNamed(key, UI_KEYS)
    case None => view
    case Some(k) =>
      if IsText(k) && value.Str? then view.(texts := view.texts[k := value.text])
      else if IsFlag(k) && value.Bool? then view.(flags := view.flags[k := value.flag])
      else if k.MaxFiles? && value.Number? then view.(maxFiles := Truncated(value.number))
      else view
  }

  lemma {:induction false} KeyNamedIs(name: string, keys: seq<Key>)
    ensures KeyNamed(name, keys).Some? ==> KeyName(KeyNamed(name, keys).value) == name
  {
    hide KeyName;
    if keys != [] { KeyNamedIs(name, keys[1..]); }
  }

  /** A key changes the field it names, and no other. */
  lemma NamedOnly(key: string, k: Key)
    ensures KeyName(k) == key <==> KeyNamed(key, UI_KEYS) == Some(k)
  {
    hide KeyName, KeyNamed;
    KeyNamedIs(key, UI_KEYS);
    EveryKey(k);
    NamedKey(k, UI_KEYS);
  }

  lemma VisitedOne(patch: Patch, left: set<string>, key: string, name: string)
    requires key in left && key in patch
    ensures var before, after := Visited(patch, left), Visited(patch, left - {key});
            && (name != key ==> (name in after <==> name in before) && (name in before ==> after[name] == before[name]))
            && (name == key ==> name in after && after[name] == patch[key] && name !in before)
  {
  }

  lemma MergeOneMerges(r: View, view: View, patch: Patch, left: set<string>, key: string)
    requires key in left && key in patch && IsMerged(r, view, Visited(patch, left))
    ensures IsMerged(MergeOne(r, key, patch[key]), view, Visited(patch, left - {key}))
  {
    hide KeyName, KeyNamed, Visited, Truncated;
    var next := MergeOne(r, key, patch[key]);
    var before, after := Visited(patch, left), Visited(patch, left - {key});
    forall k: Key
      ensures IsText(k) ==> TextOf(next.texts, k) == MergedText(view, after, k)
      ensures IsFlag(k) ==> Flag(next.flags, k) == MergedFlag(view, after, k)
      ensures k.MaxFiles? ==> next.maxFiles == MergedMaxFiles(view, after)
    {
      NamedOnly(key, k);
      VisitedOne(patch, left, key, KeyName(k));
      assert IsText(k) ==> TextOf(r.texts, k) == MergedText(view, before, k);
      assert IsFlag(k) ==> Flag(r.flags, k) == MergedFlag(view, before, k);
    }
    assert next.maxFiles == MergedMaxFiles(view, after) by { assert MaxFiles.MaxFiles?; }
  }

  /** The result does not depend on the order in which the keys are visited. */
  method MergeConfigView(view: View, patch: Patch) returns (r: View)
    ensures IsMerged(r, view, patch)
  {
    hide KeyName, KeyNamed, IsMerged;
    r := view;
    var left := patch.Keys;
    NothingVisited(view, patch);
    while left != {}
      invariant left <= patch.Keys
      invariant IsMerged(r, view, Visited(patch, left))
      decreases |left|
    {
      var key :| key in left;
      MergeOneMerges(r, view, patch, left, key);
      var value := patch[key];
      var k := KeyNamed(key, UI_KEYS);
      if k.Some? {
        if IsText(k.value) {
          if value.Str? {
            r := r.(texts := r.texts[k.value := value.text]);
          }
        } else if IsFlag(k.value) {
          if value.Bool? {
            r := r.(flags := r.flags[k.value := value.flag]);
          }
        } else if value.Number? {
          r := r.(maxFiles := Truncated(value.number));
        }
      }
      left := left - {key};
    }
    assert Visited(patch, {}) == patch;
  }

  lemma NothingVisited(view: View, patch: Patch)
    ensures IsMerged(view, view, Visited(patch, patch.Keys))
  {
    hide KeyName;
    assert Visited(patch, patch.Keys) == map[];
  }

  // ---------------------------------------------------------------- loading and saving

  /** uiConfigFromView */
  function UiOf(view: View): Ui {
    Ui(view.texts, map k | k in UI_KEYS && IsFlag(k) :: Flag(view.flags, k), view.maxFiles)
  }

  /** `r` is the base view with those of some fields that are set in the file. */
  ghost predicate LoadedSome(r: View, base: View, ui: Ui, keys: seq<Key>) {
    && (forall k: Key | IsText(k) ::
         TextOf(r.texts, k) == if k in keys && TextOf(ui.texts, k) != "" then TextOf(ui.texts, k) else TextOf(base.texts, k))
    && (forall k: Key | IsFlag(k) ::
         Flag(r.flags, k) == if k in keys && k in ui.flags then ui.flags[k] else Flag(base.flags, k))
    && r.maxFiles == (if MaxFiles in keys && ui.maxFiles > 0 then ui.maxFiles else base.maxFiles)
  }

  /** `r` is the base view with the fields that are set in the file. */
  ghost predicate IsLoaded(r: View, base: View, ui: Ui) {
    && (forall k: Key | IsText(k) ::
         TextOf(r.texts, k) == if TextOf(ui.texts, k) != "" then TextOf(ui.texts, k) else TextOf(base.texts, k))
    && (forall k: Key | IsFlag(k) :: Flag(r.flags, k) == if k in ui.flags then ui.flags[k] else Flag(base.flags, k))
    && r.maxFiles == (if ui.maxFiles > 0 then ui.maxFiles else base.maxFiles)
  }

  /** The view with one field loaded. */
  predicate OneLoaded(r: View, view: View, ui: Ui, k: Key) {
    if IsText(k) then r == if TextOf(ui.texts, k) == "" then view else view.(texts := view.texts[k := TextOf(ui.texts, k)])
    else if IsFlag(k) then r == if k in ui.flags then view.(flags := view.flags[k := ui.flags[k]]) else view
    else r == if ui.maxFiles > 0 then view.(maxFiles := ui.maxFiles) else view
  }

  lemma OneMoreLoaded(r: View, view: View, ui: Ui, k: Key, base: View, keys: seq<Key>)
    requires OneLoaded(r, view, ui, k) && LoadedSome(view, base, ui, keys) && k !in keys
    ensures LoadedSome(r, base, ui, keys + [k])
  {
    hide TextOf, Flag, OneLoaded;
    var more := keys + [k];
    assert forall key: Key :: key in more <==> key in keys || key == k;
    assert r.maxFiles == (if MaxFiles in more && ui.maxFiles > 0 then ui.maxFiles else base.maxFiles) by {
      LoadedMaxFiles(r, view, ui, k);
    }
    forall key: Key | IsText(key)
      ensures TextOf(r.texts, key)
           == if key in more && TextOf(ui.texts, key) != "" then TextOf(ui.texts, key) else TextOf(base.texts, key)
    {
      LoadedTexts(r, view, ui, k, key);
    }
    forall key: Key | IsFlag(key)
      ensures Flag(r.flags, key) == if key in more && key in ui.flags then ui.flags[key] else Flag(base.flags, key)
    {
      LoadedFlags(r, view, ui, k, key);
    }
  }

  lemma LoadedTexts(r: View, view: View, ui: Ui, k: Key, key: Key)
    requires OneLoaded(r, view, ui, k) && IsText(key)
    ensures TextOf(r.texts, key)
         == if key == k && TextOf(ui.texts, k) != "" then TextOf(ui.texts, k) else TextOf(view.texts, key)
  {
  }

  lemma LoadedMaxFiles(r: View, view: View, ui: Ui, k: Key)
    requires OneLoaded(r, view, ui, k)
    ensures r.maxFiles == if k.MaxFiles? && ui.maxFiles > 0 then ui.maxFiles else view.maxFiles
  {
  }

  lemma LoadedFlags(r: View, view: View, ui: Ui, k: Key, key: Key)
    requires OneLoaded(r, view, ui, k) && IsFlag(key)
    ensures Flag(r.flags, key) == if key == k && k in ui.flags then ui.flags[k] else Flag(view.flags, key)
  {
  }

  method LoadField(view: View, ui: Ui, k: Key) returns (r: View)
    ensures OneLoaded(r, view, ui, k)
  {
    r := view;
    if IsText(k) {
      if TextOf(ui.texts, k) != "" {
        r := r.(texts := r.texts[k := ui.texts[k]]);
      }
    } else if IsFlag(k) {
      if k in ui.flags {
        r := r.(flags := r.flags[k := ui.flags[k]]);
      }
    } else if ui.maxFiles > 0 {
      r := r.(maxFiles := ui.maxFiles);
    }
  }

  lemma LoadedAll(r: View, base: View, ui: Ui)
    requires LoadedSome(r, base, ui, UI_KEYS)
    ensures IsLoaded(r, base, ui)
  {
    forall k: Key ensures k in UI_KEYS { EveryKey(k); }
  }

  method ApplyLoadedUiConfig(base: View, ui: Ui) returns (r: View)
    ensures IsLoaded(r, base, ui)
  {
    hide LoadedSome, IsLoaded, OneLoaded;
    r := base;
    assert LoadedSome(r, base, ui, []) by { NothingLoaded(base, ui); }
    for i := 0 to |UI_KEYS|
      invariant LoadedSome(r, base, ui, UI_KEYS[..i])
    {
      assert UI_KEYS[..i + 1] == UI_KEYS[..i] + [UI_KEYS[i]];
      ghost var before := r;
      r := LoadField(r, ui, UI_KEYS[i]);
      OneMoreLoaded(r, before, ui, UI_KEYS[i], base, UI_KEYS[..i]);
    }
    assert UI_KEYS[..|UI_KEYS|] == UI_KEYS;
    LoadedAll(r, base, ui);
  }

  lemma NothingLoaded(base: View, ui: Ui)
    ensures LoadedSome(base, base, ui, [])
  {
  }

  /** The view before a file is loaded. */
  const DEFAULT_VIEW := View(
    map[Language := "auto", TargetLanguage := "zh", OutputDirectory := "source", OutputConflict := "ask",
        OutputFormat := "srt", OutputType := "original_srt", Device := "auto",
        DefaultAsrProvider := "local-faster-whisper", DefaultTranslationProvider := "local-nllb-ct2",
        DefaultAsrModel := "whisper-small", DefaultTranslationModel := "nllb-200-distilled-600m-ct2-int8"],
    map[], 100)

  /** The UI settings of a file; those of an empty configuration if it is refused. */
  function FileUi(text: string): Ui {
    if Parsed(text).Ok? then Parsed(text).value.ui else NO_UI
  }

  /** defaultConfigView */
  method LoadView(text: string) returns (r: View)
    ensures IsLoaded(r, DEFAULT_VIEW, FileUi(text))
  {
    var loaded := ParseFile(text);
    r := ApplyLoadedUiConfig(DEFAULT_VIEW, if loaded.Ok? then loaded.value.ui else NO_UI);
  }

  ghost predicate SameView(a: View, b: View) {
    && (forall k: Key | IsText(k) :: TextOf(a.texts, k) == TextOf(b.texts, k))
    && (forall k: Key | IsFlag(k) :: Flag(a.flags, k) == Flag(b.flags, k))
    && a.maxFiles == b.maxFiles
  }

  /** Text of a field that comes back: neither empty, which would leave the default, nor unclean. */
  predicate Kept(v: string) {
    v != "" && Clean(v)
  }

  lemma PlainClean(v: string)
    requires '\n' !in v && '#' !in v
    ensures Clean(v)
  {
  }

  lemma DefaultTexts(k: Key)
    requires IsText(k)
    ensures var v := TextOf(DEFAULT_VIEW.texts, k);
            v == match k
                 case Language => "auto"
                 case TargetLanguage => "zh"
                 case OutputDirectory => "source"
                 case OutputConflict => "ask"
                 case OutputFormat => "srt"
                 case OutputType => "original_srt"
                 case Device => "auto"
                 case DefaultAsrProvider => "local-faster-whisper"
                 case DefaultTranslationProvider => "local-nllb-ct2"
                 case DefaultAsrModel => "whisper-small"
                 case _ => "nllb-200-distilled-600m-ct2-int8"
  {
  }

  lemma DefaultModelsKept(k: Key)
    requires IsText(k) && IsDefault(k)
    ensures Kept(TextOf(DEFAULT_VIEW.texts, k))
  {
    hide Clean, TextOf;
    DefaultTexts(k);
    PlainClean("local-faster-whisper");
    PlainClean("local-nllb-ct2");
    PlainClean("whisper-small");
    PlainClean("nllb-200-distilled-600m-ct2-int8");
  }

  lemma DefaultsKept(k: Key)
    requires IsText(k)
    ensures Kept(TextOf(DEFAULT_VIEW.texts, k))
  {
    hide Clean, TextOf;
    if IsDefault(k) {
      DefaultModelsKept(k);
    } else {
      DefaultTexts(k);
      PlainClean("auto");
      PlainClean("zh");
      PlainClean("source");
      PlainClean("ask");
      PlainClean("srt");
      PlainClean("original_srt");
    }
  }

  /** The configuration holds the UI settings of the view, and provider settings without line breaks. */
  ghost predicate Holds(cfg: Config, view: View) {
    && cfg.ui == UiOf(view)
    && cfg.ui.maxFiles <= MAX_INT64
    && (forall k: ProviderKey :: '\n' !in TextOf(SavedProvider(cfg, TRANSCRIPTION).texts, k))
    && (forall k: ProviderKey :: '\n' !in TextOf(SavedProvider(cfg, CHAT).texts, k))
  }

  /** No provider text is written in a way that makes the file unparsable. */
  ghost predicate ProvidersRead(cfg: Config) {
    && AllProviderRead(SavedProvider(cfg, TRANSCRIPTION), PROVIDER_KEYS)
    && AllProviderRead(SavedProvider(cfg, CHAT), PROVIDER_KEYS)
  }

  lemma UiComesBack(cfg: Config)
    requires UnbrokenTexts(cfg) && CleanUi(cfg.ui) && ProvidersRead(cfg) && 0 <= cfg.ui.maxFiles <= MAX_INT64
    ensures SameUi(FileUi(Saved(cfg)), cfg.ui)
  {
    hide AllRead, UiReadAs, AllProviderRead, ProviderReadAs, SavedSections, AppliedSections, Parsed, Saved, NoComment,
         SavedProvider, ProviderOf, UnbrokenTexts;
    SavedProper(cfg);
    SavedRead(cfg);
    SectionsReadBack(cfg);
    CleanUiRead(cfg.ui, NO_UI);
    CleanUiRead(cfg.ui, Parsed(Saved(cfg)).value.ui);
  }

  /** One unreadable provider text, and every UI setting is lost. */
  lemma RefusedFile(cfg: Config)
    requires UnbrokenTexts(cfg) && !ProvidersRead(cfg) && cfg.ui.maxFiles <= MAX_INT64
    ensures FileUi(Saved(cfg)) == NO_UI
  {
    hide AllRead, UiReadAs, AllProviderRead, ProviderReadAs, SavedSections, AppliedSections, Parsed, Saved,
         SavedProvider, ProviderOf, UnbrokenTexts;
    SavedProper(cfg);
    SavedRead(cfg);
    SectionsReadBack(cfg);
  }

  lemma KeptComesBack(view: View, cfg: Config, r: View)
    requires Holds(cfg, view) && ProvidersRead(cfg) && IsLoaded(r, DEFAULT_VIEW, FileUi(Saved(cfg)))
    requires view.maxFiles > 0 && forall k: Key | IsText(k) :: Kept(TextOf(view.texts, k))
    ensures SameView(r, view)
  {
    hide Parsed, Saved, FileUi, ProvidersRead, SavedProvider, ProviderOf, NoComment, TextOf;
    UiComesBack(cfg);
    var ui := FileUi(Saved(cfg));
    FlagsSaved(view);
    forall k: Key | IsFlag(k) ensures Flag(r.flags, k) == Flag(view.flags, k) {
      assert FlagOf(ui.flags, k) == FlagOf(cfg.ui.flags, k);
    }
  }

  lemma FlagsSaved(view: View)
    ensures forall k: Key | IsFlag(k) :: FlagOf(UiOf(view).flags, k) == Some(Flag(view.flags, k))
  {
    forall k: Key | IsFlag(k) ensures FlagOf(UiOf(view).flags, k) == Some(Flag(view.flags, k)) { EveryKey(k); }
  }

  /** A text that comes back is not empty, and has no line break. */
  lemma LoadedText(view: View, cfg: Config, r: View, k: Key)
    requires IsLoaded(r, DEFAULT_VIEW, FileUi(Saved(cfg))) && SameView(r, view) && IsText(k)
    ensures TextOf(view.texts, k) != "" && '\n' !in TextOf(view.texts, k)
  {
    hide Parsed, Saved, NoComment;
    DefaultsKept(k);
    ParsedUnbroken(Saved(cfg));
    UnbrokenLookup(FileUi(Saved(cfg)).texts, k);
  }

  lemma NoText(k: Key)
    ensures TextOf(NO_UI.texts, k) == ""
  {
  }

  lemma LoadedIsKept(view: View, cfg: Config, r: View)
    requires Holds(cfg, view) && IsLoaded(r, DEFAULT_VIEW, FileUi(Saved(cfg))) && SameView(r, view)
    ensures UnbrokenTexts(cfg)
    ensures view.maxFiles > 0 && forall k: Key | IsText(k) :: Kept(TextOf(view.texts, k))
  {
    hide Parsed, Saved, SavedProvider, ProviderOf, SavedSections, AppliedSections, NoComment, AllRead, AllProviderRead,
         ProviderReadAs, TextOf, Outcome;
    forall k: Key | IsText(k) ensures TextOf(view.texts, k) != "" && '\n' !in TextOf(view.texts, k) {
      LoadedText(view, cfg, r, k);
    }
    var read := Parsed(Saved(cfg));
    assert UnbrokenTexts(cfg);
    SavedProper(cfg);
    SavedRead(cfg);
    SectionsReadBack(cfg);
    forall k: Key | IsText(k) ensures Kept(TextOf(view.texts, k)) {
      DefaultsKept(k);
      EveryKey(k);
      if read.Ok? && TextOf(read.value.ui.texts, k) != "" {
        OutcomeIff(TextOf(view.texts, k));
        assert Outcome(TextOf(cfg.ui.texts, k)) == Some(TextOf(read.value.ui.texts, k));
      } else {
        NoText(k);
        assert TextOf(r.texts, k) == TextOf(DEFAULT_VIEW.texts, k);
      }
    }
  }

  // ---------------------------------------------------------------- the round trip of a patched view

  /** validateConfigPatch, as far as the UI fields go. */
  predicate ValidPatch(patch: Patch) {
    && OneOf(patch, "device", {"auto", "cpu", "cuda", "gpu"})
    && OneOf(patch, "output_format", {"srt", "vtt", "txt", "json"})
    && OneOf(patch, "output_type", {"original_srt", "translated_srt", "bilingual_srt", "burned_video"})
    && ("folder_scan_include_subfolders" in patch ==> patch["folder_scan_include_subfolders"].Bool?)
    && ("folder_scan_max_files" in patch ==>
         var v := patch["folder_scan_max_files"];
         v.Number? && 1.0 <= v.number <= 500.0 && v.number == Truncated(v.number) as real)
  }

  predicate OneOf(patch: Patch, name: string, values: set<string>) {
    name in patch && patch[name].Str? ==> patch[name].text in values
  }

  lemma LoadedNothing(r: View)
    requires IsLoaded(r, DEFAULT_VIEW, NO_UI)
    ensures SameView(r, DEFAULT_VIEW)
  {
    forall k: Key | IsText(k) ensures TextOf(r.texts, k) == TextOf(DEFAULT_VIEW.texts, k) { NoText(k); }
  }

  lemma ShownAsDefault(r: View, view: View)
    requires SameView(r, DEFAULT_VIEW)
    ensures SameView(r, view) <==> SameView(view, DEFAULT_VIEW)
  {
    hide TextOf, Flag;
    if SameView(view, DEFAULT_VIEW) {
      forall k: Key | IsText(k) ensures TextOf(r.texts, k) == TextOf(view.texts, k) {
        assert TextOf(view.texts, k) == TextOf(DEFAULT_VIEW.texts, k);
      }
      forall k: Key | IsFlag(k) ensures Flag(r.flags, k) == Flag(view.flags, k) {
        assert Flag(view.flags, k) == Flag(DEFAULT_VIEW.flags, k);
      }
    }
    if SameView(r, view) {
      forall k: Key | IsText(k) ensures TextOf(view.texts, k) == TextOf(DEFAULT_VIEW.texts, k) {
        assert TextOf(r.texts, k) == TextOf(DEFAULT_VIEW.texts, k);
      }
      forall k: Key | IsFlag(k) ensures Flag(view.flags, k) == Flag(DEFAULT_VIEW.flags, k) {
        assert Flag(r.flags, k) == Flag(DEFAULT_VIEW.flags, k);
      }
    }
  }

  lemma UnbrokenIfKept(cfg: Config, view: View)
    requires Holds(cfg, view) && forall k: Key | IsText(k) :: Kept(TextOf(view.texts, k))
    ensures UnbrokenTexts(cfg)
  {
    hide SavedProvider, NoComment;
  }

  /** A view that was saved and loaded again shows the same settings exactly when none of its texts is
      empty, has a line break, or has a '#' behind an odd number of quotation marks, and either no
      provider text makes the file unparsable or there was nothing but defaults to lose. */
  lemma SavedViewComesBack(view: View, cfg: Config, r: View)
    requires view.maxFiles > 0 && Holds(cfg, view) && IsLoaded(r, DEFAULT_VIEW, FileUi(Saved(cfg)))
    ensures SameView(r, view)
            <==> (forall k: Key | IsText(k) :: Kept(TextOf(view.texts, k)))
                 && (ProvidersRead(cfg) || SameView(view, DEFAULT_VIEW))
  {
    assert cfg.ui.maxFiles <= MAX_INT64;
    hide IsLoaded, Kept, ProvidersRead, UnbrokenTexts, FileUi, TextOf, SameView, Holds;
    if SameView(r, view) { LoadedIsKept(view, cfg, r); }
    if forall k: Key | IsText(k) :: Kept(TextOf(view.texts, k)) {
      UnbrokenIfKept(cfg, view);
      if ProvidersRead(cfg) {
        KeptComesBack(view, cfg, r);
      } else {
        RefusedFile(cfg);
        LoadedNothing(r);
        ShownAsDefault(r, view);
      }
    }
  }

  /** The same for a view that was patched first. */
  lemma PatchedRoundTrip(view: View, patch: Patch, merged: View, cfg: Config, r: View)
    requires ValidPatch(patch) && 0 < view.maxFiles && IsMerged(merged, view, patch)
    requires Holds(cfg, merged) && IsLoaded(r, DEFAULT_VIEW, FileUi(Saved(cfg)))
    ensures SameView(r, merged)
            <==> (forall k: Key | IsText(k) :: Kept(MergedText(view, patch, k)))
                 && (ProvidersRead(cfg) || SameView(merged, DEFAULT_VIEW))
  {
    hide Holds, IsLoaded, SameView, Kept, KeyName, ProvidersRead;
    assert merged.maxFiles > 0 by { PatchedMaxFiles(view, patch); }
    assert forall k: Key | IsText(k) :: TextOf(merged.texts, k) == MergedText(view, patch, k);
    SavedViewComesBack(merged, cfg, r);
    if forall k: Key | IsText(k) :: Kept(MergedText(view, patch, k)) {
      forall k: Key | IsText(k) ensures Kept(TextOf(merged.texts, k)) { assert Kept(MergedText(view, patch, k)); }
    }
    if forall k: Key | IsText(k) :: Kept(TextOf(merged.texts, k)) {
      forall k: Key | IsText(k) ensures Kept(MergedText(view, patch, k)) { assert Kept(TextOf(merged.texts, k)); }
    }
  }

  lemma PatchedMaxFiles(view: View, patch: Patch)
    requires ValidPatch(patch) && 0 < view.maxFiles
    ensures MergedMaxFiles(view, patch) > 0
  {
  }

  // ---------------------------------------------------------------- settings that do not survive

  lemma CutOutcome()
    ensures Outcome("say \"#1") == Some("say \\") && '\n' !in "say \"#1"
  {
    var v := "say \"#1";
    assert v[1..] == "ay \"#1" && v[2..] == "y \"#1" && v[3..] == " \"#1" && v[4..] == "\"#1" && v[5..] == "#1";
    assert CommentAt("#1", false) == 0 && CommentAt("\"#1", true) == 1 && CommentAt(" \"#1", true) == 2;
    assert CommentAt("y \"#1", true) == 3 && CommentAt("ay \"#1", true) == 4;
    assert CommentAt(v, true) == 5 && v[..5] == "say \"";
    assert TrimRight(GoSpace, "say \"") == "say \"" && ("say \"")[..4] == "say " && "say " + "\\" == "say \\";
  }

  /** The output directory `say "#1` is saved and read back as `say \`. */
  lemma CommentCutsSetting()
    ensures var cfg := NO_CONFIG.(ui := NO_UI.(texts := map[OutputDirectory := "say \"#1"]));
            Parsed(Saved(cfg)).Ok? && TextOf(Parsed(Saved(cfg)).value.ui.texts, OutputDirectory) == "say \\"
  {
    hide Parsed, Saved, SavedSections, AppliedSections, Outcome, ProviderReadAs;
    var cfg := NO_CONFIG.(ui := NO_UI.(texts := map[OutputDirectory := "say \"#1"]));
    CutOutcome();
    SavedProper(cfg);
    SavedRead(cfg);
    SectionsReadBack(cfg);
    EveryKey(OutputDirectory);
  }

  /** A base_url `"x#` of a provider makes the file unparsable, whatever the other settings are, and
      every UI setting returns to its default. */
  lemma ProviderTextLosesAll(cfg: Config, r: View)
    requires UnbrokenTexts(cfg) && cfg.ui.maxFiles <= MAX_INT64
    requires TextOf(SavedProvider(cfg, CHAT).texts, BaseUrl) == "\"x#"
    requires IsLoaded(r, DEFAULT_VIEW, FileUi(Saved(cfg)))
    ensures SameView(r, DEFAULT_VIEW)
  {
    hide Parsed, Saved, UnbrokenTexts, SavedProvider, TextOf, Outcome, FileUi, IsLoaded, SameView;
    RefusedOutcome();
    EveryProviderKey(BaseUrl);
    assert !ProvidersRead(cfg);
    RefusedFile(cfg);
    LoadedNothing(r);
  }

  lemma RefusedOutcome()
    ensures Outcome("\"x#") == None
  {
    var v := "\"x#";
    assert v[1..] == "x#" && v[2..] == "#";
    assert CommentAt("#", false) == 0 && CommentAt("x#", false) == 1;
    assert CommentAt(v, true) == 2 && v[..2] == "\"x";
  }

  /** A provider address that goes on with a section of its own. */
  const FORGED_URL := "x\"" + FORGED_LINES
  const FORGED_LINES := "\n\n[ui]\n\nlanguage = fr"

  /** The configuration with nothing but an address for the chat provider. */
  function WithUrl(cfg: Config, url: string): Config {
    cfg.(providers := cfg.providers[CHAT := Provider(map[BaseUrl := url], None)])
  }

  lemma ForgedUrl()
    ensures Escaped(FORGED_URL) == "x\\\"" + FORGED_LINES && Escaped("x\\") == "x\\"
  {
    hide Escaped;
    EscapedConcat("x\"", FORGED_LINES);
    EscapedConcat("x", "\"");
    EscapedNothing();
    assert "x" + "\"" == "x\"" && "x" + "\\\"" == "x\\\"";
    EscapedPlain("x\\");
    EscapedPlain("x");
    EscapedPlain(FORGED_LINES);
  }

  lemma ForgedLine()
    ensures ItemLine(Item("base_url", FORGED_URL, true)) == ItemLine(Item("base_url", "x\\", true)) + FORGED_LINES + "\""
  {
    hide Escaped;
    ForgedUrl();
    var start := "base_url" + " = " + "\"";
    assert "x\\\"" + FORGED_LINES + "\"" == "x\\" + "\"" + FORGED_LINES + "\"";
    assert ItemLine(Item("base_url", FORGED_URL, true)) == start + ("x\\\"" + FORGED_LINES + "\"");
    assert ItemLine(Item("base_url", "x\\", true)) == start + ("x\\" + "\"");
  }

  lemma EscapedPlain(v: string)
    requires '"' !in v
    ensures Escaped(v) == v
  {
    assert ("\"")[0] == '"';
    ReplaceAbsent(v, "\"", "\\\"");
  }

  /** The sections ahead of the one of the chat provider. */
  function AheadOfChat(cfg: Config): seq<Section> {
    [Section("[ui]", "ui", [Item("schema_version", "1", false)] + UiItems(cfg.ui, UI_KEYS))]
    + ProviderSections(TRANSCRIPTION, SavedProvider(cfg, TRANSCRIPTION))
  }

  lemma UrlSections(cfg: Config, url: string)
    requires url != ""
    ensures SavedSections(WithUrl(cfg, url)) == AheadOfChat(cfg) + [ChatSection(url)]
  {
    hide UiItems, SavedSections, ProviderTexts;
    var p := Provider(map[BaseUrl := url], None);
    SavedParts(WithUrl(cfg, url));
    UrlTexts(p, url);
    assert TRANSCRIPTION != CHAT by { assert |TRANSCRIPTION| != |CHAT|; }
    assert SavedProvider(WithUrl(cfg, url), TRANSCRIPTION) == SavedProvider(cfg, TRANSCRIPTION);
    assert SavedProvider(WithUrl(cfg, url), CHAT) == p;
    assert ProviderSections(CHAT, p) == [ChatSection(url)] by { ChatSections(p, url); }
  }

  lemma ChatSections(p: Provider, url: string)
    requires ProviderItems(p) == [Item("base_url", url, true)]
    ensures ProviderSections(CHAT, p) == [ChatSection(url)]
  {
    assert "[providers." + CHAT + "]" == "[providers.api-openai-chat]" && "providers." + CHAT == "providers.api-openai-chat";
  }

  lemma UrlTexts(p: Provider, url: string)
    requires url != "" && p == Provider(map[BaseUrl := url], None)
    ensures ProviderTexts(p, PROVIDER_KEYS) == [Item("base_url", url, true)]
  {
    var k1, k2, k3 := [ApiKeyEnv, BaseUrl, UploadFormat], [BaseUrl, UploadFormat], [UploadFormat];
    assert PROVIDER_KEYS[1..] == k1 && k1[1..] == k2 && k2[1..] == k3 && k3[1..] == [];
    assert ProviderTexts(p, k3) == [];
    assert ProviderTexts(p, k2) == [Item("base_url", url, true)];
    assert ProviderTexts(p, k1) == [Item("base_url", url, true)];
  }

  const FORGED := ["[ui]", "", "language = fr\"", ""]

  const FORGED_TEXT := "[ui]\n\nlanguage = fr\"\n\n"

  lemma ForgedEnd(ahead: string, item: string)
    ensures ahead + (item + FORGED_LINES + "\"" + "\n" + "\n") == ahead + (item + "\n" + "\n") + FORGED_TEXT
  {
    assert FORGED_LINES + "\"" + "\n" + "\n" == "\n" + "\n" + FORGED_TEXT;
  }

  lemma ForgedText(cfg: Config)
    ensures Saved(WithUrl(cfg, FORGED_URL))
         == Unlines(SectionLines(SavedSections(WithUrl(cfg, "x\\"))) + FORGED)
  {
    UrlSections(cfg, FORGED_URL);
    UrlSections(cfg, "x\\");
    hide SavedSections, ItemLine, SectionLines, Unlines, AheadOfChat;
    var ahead := AheadOfChat(cfg);
    ChatText(ahead, FORGED_URL);
    ChatText(ahead, "x\\");
    ForgedLine();
    UnlinesConcat(SectionLines(ahead + [ChatSection("x\\")]), FORGED);
    ForgedTail();
    var item := ItemLine(Item("base_url", "x\\", true));
    ForgedJoin(Unlines(SectionLines(ahead)), ChatSection(FORGED_URL).header, item);
  }

  lemma ForgedJoin(ahead: string, header: string, item: string)
    ensures ahead + (header + "\n" + (item + FORGED_LINES + "\"") + "\n" + "\n")
         == ahead + (header + "\n" + item + "\n" + "\n") + FORGED_TEXT
  {
    var a := ahead + header + "\n";
    ForgedEnd(a, item);
    assert ahead + (header + "\n" + (item + FORGED_LINES + "\"") + "\n" + "\n") == a + (item + FORGED_LINES + "\"" + "\n" + "\n");
    assert ahead + (header + "\n" + item + "\n" + "\n") == a + (item + "\n" + "\n");
  }

  lemma ForgedTail()
    ensures Unlines(FORGED) == FORGED_TEXT
  {
    hide Unlines;
    var a, b := ["[ui]", ""], ["language = fr\"", ""];
    assert FORGED == a + b;
    UnlinesConcat(a, b);
    TwoLineText("[ui]", "");
    TwoLineText("language = fr\"", "");
  }

  lemma TwoLineText(first: string, second: string)
    ensures Unlines([first, second]) == first + "\n" + (second + "\n")
  {
    assert [first, second][1..] == [second] && [second][1..] == [] && Unlines([]) == "";
    assert Unlines([second]) == second + "\n";
  }

  function ChatSection(url: string): Section {
    Section("[providers.api-openai-chat]", "providers.api-openai-chat", [Item("base_url", url, true)])
  }

  lemma ChatText(ahead: seq<Section>, url: string)
    ensures Unlines(SectionLines(ahead + [ChatSection(url)]))
         == Unlines(SectionLines(ahead)) + (ChatSection(url).header + "\n" + ItemLine(Item("base_url", url, true)) + "\n" + "\n")
  {
    hide ItemLine, SectionLines, Unlines;
    SectionLinesConcat(ahead, [ChatSection(url)]);
    SectionText(ChatSection(url));
    OneItem(ChatSection(url).items[0]);
  }

  lemma AppliedLanguage(cfg: Config, v: string)
    ensures Applied(cfg, "ui", "language", v) == Ok(cfg.(ui := cfg.ui.(texts := cfg.ui.texts[Language := v])))
  {
    NamedOnly("language", Language);
    hide KeyNamed;
    assert ProviderSection("ui") == None;
  }

  lemma ForgedLineWhole()
    ensures Line("language", "fr\"") == "language = fr\"" && Bare("language")
    ensures CommentAt("language = fr\"", false) == |"language = fr\""|
    ensures ParsedValue("fr\"") == Ok("fr\"")
  {
    hide CommentAt;
    LineComment("language", "fr\"");
    CommentBehind("fr", "\"");
    assert "fr" + "\"" == "fr\"";
    assert CommentAt("\"", false) == 1 by { LoneMark(); }
  }

  lemma LoneMark()
    ensures CommentAt("\"", false) == 1
  {
  }

  /** The line with a quotation mark too many still sets the language. */
  lemma ForgedLanguage(cfg: Config)
    ensures Read(cfg, "ui", "language = fr\"") == Ok(("ui", cfg.(ui := cfg.ui.(texts := cfg.ui.texts[Language := "fr\""]))))
  {
    hide Read, ReadKey, Applied, ParsedValue, CommentAt, Line, TrimSpace;
    ForgedLineWhole();
    LineTrimmed("language", "fr\"");
    ReadPlainLine(cfg, "ui", "language = fr\"");
    ReadLine(cfg, "ui", "language", "fr\"");
    AppliedLanguage(cfg, "fr\"");
  }

  /** Apart from the language, the file is read as if the address ended where its first line does. */
  lemma LineBreakForges(cfg: Config)
    requires UnbrokenTexts(WithUrl(cfg, "x\\")) && Parsed(Saved(WithUrl(cfg, "x\\"))).Ok?
    ensures var read := Parsed(Saved(WithUrl(cfg, "x\\"))).value;
            Parsed(Saved(WithUrl(cfg, FORGED_URL))) == Ok(read.(ui := read.ui.(texts := read.ui.texts[Language := "fr\""])))
  {
    hide SavedSections, SectionLines, ReadAll, Read, AppliedSections, UnbrokenTexts;
    var plain := WithUrl(cfg, "x\\");
    var sections := SavedSections(plain);
    var lines := SectionLines(sections);
    SavedProper(plain);
    SavedRead(plain);
    ForgedText(cfg);
    SectionBreaks(sections);
    assert forall line <- lines + FORGED :: '\n' !in line;
    LinesOfUnlines(lines + FORGED);
    assert lines + FORGED + [""] == lines + (FORGED + [""]);
    SectionsReadThen(NO_CONFIG, "", sections, FORGED + [""], 1);
    ForgedRead(Parsed(Saved(plain)).value, LastSection("", sections), 1 + |lines|);
  }

  /** A line break in a provider text can change a setting that has nothing to do with it: whatever
      language was saved, the language that is loaded is the one the address brings along. */
  lemma LineBreakSetsLanguage(cfg: Config, r: View)
    requires UnbrokenTexts(WithUrl(cfg, "x\\")) && Parsed(Saved(WithUrl(cfg, "x\\"))).Ok?
    requires IsLoaded(r, DEFAULT_VIEW, FileUi(Saved(WithUrl(cfg, FORGED_URL))))
    ensures TextOf(r.texts, Language) == "fr\""
  {
    hide Parsed, Saved;
    LineBreakForges(cfg);
  }

  lemma ForgedRead(cfg: Config, section: string, n: nat)
    ensures ReadAll(cfg, section, FORGED + [""], n) == Ok(cfg.(ui := cfg.ui.(texts := cfg.ui.texts[Language := "fr\""])))
  {
    hide Read, ReadAll;
    var l0, l1, l2 := FORGED + [""], ["", "language = fr\"", "", ""], ["language = fr\"", "", ""];
    assert l0[1..] == l1 && l1[1..] == l2 && l2[1..] == ["", ""];
    ReadFirst(cfg, section, l0, n);
    assert HeaderName("ui") && "[" + "ui" + "]" == "[ui]";
    ReadHeader(cfg, section, "ui");
    ReadFirst(cfg, "ui", l1, n + 1);
    ReadBlank(cfg, "ui");
    ReadFirst(cfg, "ui", l2, n + 2);
    ForgedLanguage(cfg);
    ReadBlankLines(cfg.(ui := cfg.ui.(texts := cfg.ui.texts[Language := "fr\""])), "ui", ["", ""], n + 3);
  }
}
