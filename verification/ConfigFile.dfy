/** The configuration file (internal/config/config.go): what Save writes and ParseFile reads.
    The fields of a struct are addressed by keys; a key that a map does not hold stands for a field
    with its zero value. */
module ConfigFile {
  import opened Wrappers
  import opened Text
  import opened Numbers

  datatype Key =
    | Language | TargetLanguage | OutputDirectory | OutputConflict | OutputFormat | OutputType | BurnInVideo | Device
    | DefaultAsrProvider | DefaultTranslationProvider | DefaultAsrModel | DefaultTranslationModel
    | WordTimestamps | KeepTemp | IncludeSubfolders | MaxFiles

  predicate IsFlag(k: Key) {
    k.BurnInVideo? || k.WordTimestamps? || k.KeepTemp? || k.IncludeSubfolders?
  }

  predicate IsText(k: Key) {
    !IsFlag(k) && !k.MaxFiles?
  }

  /** The keys in the order Save writes them. */
  const UI_KEYS := [
    Language, TargetLanguage, OutputDirectory, OutputConflict, OutputFormat, OutputType, BurnInVideo, Device,
    DefaultAsrProvider, DefaultTranslationProvider, DefaultAsrModel, DefaultTranslationModel,
    WordTimestamps, KeepTemp, IncludeSubfolders, MaxFiles]

  function KeyName(k: Key): string {
    match k
    case Language => "language"
    case TargetLanguage => "target_language"
    case OutputDirectory => "output_directory"
    case OutputConflict => "output_conflict"
    case OutputFormat => "output_format"
    case OutputType => "output_type"
    case BurnInVideo => "burn_in_video"
    case Device => "device"
    case DefaultAsrProvider => "default_asr_provider"
    case DefaultTranslationProvider => "default_translation_provider"
    case DefaultAsrModel => "default_asr_model"
    case DefaultTranslationModel => "default_translation_model"
    case WordTimestamps => "word_timestamps"
    case KeepTemp => "keep_temp"
    case IncludeSubfolders => "folder_scan_include_subfolders"
    case MaxFiles => "folder_scan_max_files"
  }

  /** The first of some keys with a name. */
  function KeyNamed(name: string, keys: seq<Key>): Option<Key> {
    if keys == [] then None else if KeyName(keys[0]) == name then Some(keys[0]) else KeyNamed(name, keys[1..])
  }

  datatype Ui = Ui(texts: map<Key, string>, flags: map<Key, bool>, maxFiles: int)

  datatype ProviderKey = Model | ApiKeyEnv | BaseUrl | UploadFormat

  const PROVIDER_KEYS := [Model, ApiKeyEnv, BaseUrl, UploadFormat]

  function ProviderKeyName(k: ProviderKey): string {
    match k
    case Model => "model"
    case ApiKeyEnv => "api_key_env"
    case BaseUrl => "base_url"
    case UploadFormat => "api_upload_format"
  }

  datatype Provider = Provider(texts: map<ProviderKey, string>, words: Option<bool>)

  datatype Config = Config(openAI: Provider, providers: map<string, Provider>, ui: Ui)

  const NO_UI := Ui(map[], map[], 0)
  const NO_PROVIDER := Provider(map[], None)
  const NO_CONFIG := Config(NO_PROVIDER, map[], NO_UI)

  const TRANSCRIPTION := "api-openai-transcription"
  const CHAT := "api-openai-chat"

  function TextOf<K>(texts: map<K, string>, k: K): string {
    if k in texts then texts[k] else ""
  }

  // ---------------------------------------------------------------- reading one line

  datatype Problem =
    | NotKeyValue | Unterminated | UnquotedSpace | NotBool | NotInt
    | BadSchema(value: string) | RawApiKey | UnknownKey(name: string)

  datatype ConfigError = ConfigError(line: nat, problem: Problem)

  /** The index of the first '#' that starts a comment; every '"' opens or closes a quotation. */
  function CommentAt(s: string, inQuote: bool): (i: nat)
    ensures i <= |s|
  {
    if s == "" then 0
    else if s[0] == '"' then 1 + CommentAt(s[1..], !inQuote)
    else if s[0] == '#' && !inQuote then 0
    else 1 + CommentAt(s[1..], inQuote)
  }

  function Stripped(line: string): string {
    var i := CommentAt(line, false);
    if i < |line| then TrimSpace(line[..i]) else line
  }

  method StripComment(line: string) returns (r: string)
    ensures r == Stripped(line)
  {
    var inQuote := false;
    for i := 0 to |line|
      invariant CommentAt(line, false) == i + CommentAt(line[i..], inQuote)
    {
      assert line[i..][1..] == line[i + 1..];
      if line[i] == '"' {
        inQuote := !inQuote;
      } else if line[i] == '#' {
        if !inQuote {
          return TrimSpace(line[..i]);
        }
      }
    }
    r := line;
  }

  function Escaped(value: string): string {
    ReplaceAll(value, "\"", "\\\"")
  }

  function Unescaped(value: string): string {
    ReplaceAll(value, "\\\"", "\"")
  }

  function Quoted(value: string): string {
    "\"" + Escaped(value) + "\""
  }

  function ParsedValue(value: string): Result<string, Problem> {
    if value == "" then Ok("")
    else if value[0] == '"' then
      if value[|value| - 1] != '"' || |value| == 1 then Err(Unterminated) else Ok(Unescaped(value[1..|value| - 1]))
    else if ' ' in value || '\t' in value then Err(UnquotedSpace)
    else Ok(value)
  }

  function ParsedBool(value: string): Option<bool> {
    if ToLower(value) == "true" then Some(true) else if ToLower(value) == "false" then Some(false) else None
  }

  function ParsedInt(value: string): Option<int> {
    if value == "" then Some(0) else Atoi(value)
  }

  function AppliedUi(ui: Ui, name: string, value: string): Result<Ui, Problem> {
    if name == "schema_version" then (if value != "1" then Err(BadSchema(value)) else Ok(ui))
    else match KeyNamed(name, UI_KEYS)
      case None => Err(UnknownKey(name))
      case Some(MaxFiles) => (match ParsedInt(value) case None => Err(NotInt) case Some(n) => Ok(ui.(maxFiles := n)))
      case Some(k) =>
        if IsFlag(k) then (match ParsedBool(value) case None => Err(NotBool) case Some(b) => Ok(ui.(flags := ui.flags[k := b])))
        else Ok(ui.(texts := ui.texts[k := value]))
  }

  function AppliedProvider(p: Provider, name: string, value: string): Result<Provider, Problem> {
    if name == "model" then Ok(p.(texts := p.texts[Model := value]))
    else if name == "api_key_env" then Ok(p.(texts := p.texts[ApiKeyEnv := value]))
    else if name == "base_url" then Ok(p.(texts := p.texts[BaseUrl := value]))
    else if name == "api_upload_format" then Ok(p.(texts := p.texts[UploadFormat := value]))
    else if name == "words" then (match ParsedBool(value) case None => Err(NotBool) case Some(b) => Ok(p.(words := Some(b))))
    else if name == "api_key" then Err(RawApiKey)
    else Err(UnknownKey(name))
  }

  function ProviderSection(section: string): Option<string> {
    if section in {"providers.api-openai-transcription", TRANSCRIPTION, "openai"} then Some(TRANSCRIPTION)
    else if section in {"providers.api-openai-chat", CHAT} then Some(CHAT)
    else None
  }

  predicate UiSection(section: string) {
    section in {"ui", "desktop", "daemon.ui"}
  }

  function ProviderOf(cfg: Config, id: string): Provider {
    if id in cfg.providers then cfg.providers[id] else NO_PROVIDER
  }

  /** The effect of one key in a section; a key in an unknown section has none. */
  function Applied(cfg: Config, section: string, name: string, value: string): Result<Config, Problem> {
    if ProviderSection(section).Some? then
      var id := ProviderSection(section).value;
      match AppliedProvider(ProviderOf(cfg, id), name, value)
      case Err(e) => Err(e)
      case Ok(p) => Ok(cfg.(providers := cfg.providers[id := p], openAI := if id == TRANSCRIPTION then p else cfg.openAI))
    else if UiSection(section) then
      match AppliedUi(cfg.ui, name, value)
      case Err(e) => Err(e)
      case Ok(ui) => Ok(cfg.(ui := ui))
    else Ok(cfg)
  }

  function IndexOf(s: string, c: char): (i: nat)
    ensures i <= |s| && (i < |s| ==> s[i] == c) && c !in s[..i]
  {
    if s == "" || s[0] == c then 0 else 1 + IndexOf(s[1..], c)
  }

  /** The section and the configuration after one line. */
  function Read(cfg: Config, section: string, raw: string): Result<(string, Config), Problem> {
    var line := Stripped(TrimSpace(raw));
    if line == "" then Ok((section, cfg))
    else if line[0] == '[' && line[|line| - 1] == ']' then Ok((TrimSpace(line[1..|line| - 1]), cfg))
    else ReadKey(cfg, section, line)
  }

  function ReadKey(cfg: Config, section: string, line: string): Result<(string, Config), Problem> {
    var i := IndexOf(line, '=');
    if i == |line| then Err(NotKeyValue)
    else match ParsedValue(TrimSpace(line[i + 1..]))
      case Err(e) => Err(e)
      case Ok(value) => match Applied(cfg, section, TrimSpace(line[..i]), value)
        case Err(e) => Err(e)
        case Ok(next) => Ok((section, next))
  }

  /** The configuration after some lines, the first with number `n`. */
  function ReadAll(cfg: Config, section: string, lines: seq<string>, n: nat): Result<Config, ConfigError>
    decreases lines
  {
    if lines == [] then Ok(cfg)
    else match Read(cfg, section, lines[0])
      case Err(e) => Err(ConfigError(n, e))
      case Ok((next, c)) => ReadAll(c, next, lines[1..], n + 1)
  }

  function Parsed(text: string): Result<Config, ConfigError> {
    ReadAll(NO_CONFIG, "", Lines(text), 1)
  }

  lemma ReadFirst(cfg: Config, section: string, lines: seq<string>, n: nat)
    requires lines != []
    ensures ReadAll(cfg, section, lines, n) == match Read(cfg, section, lines[0])
            case Err(e) => Err(ConfigError(n, e))
            case Ok((next, c)) => ReadAll(c, next, lines[1..], n + 1)
  {
  }

  lemma NothingRead(cfg: Config, section: string, n: nat)
    ensures ReadAll(cfg, section, [], n) == Ok(cfg)
  {
  }

  method ParseFile(text: string) returns (r: Result<Config, ConfigError>)
    ensures r == Parsed(text)
  {
    hide Stripped, Applied, ParsedValue, Lines, TrimSpace, ReadAll, IndexOf;
    var cfg := NO_CONFIG;
    var section := "";
    var lines := Lines(text);
    assert lines[0..] == lines;
    for i := 0 to |lines|
      invariant Parsed(text) == ReadAll(cfg, section, lines[i..], i + 1)
    {
      assert lines[i..][1..] == lines[i + 1..];
      ReadFirst(cfg, section, lines[i..], i + 1);
      var line := StripComment(TrimSpace(lines[i]));
      if line == "" {
        continue;
      }
      if line[0] == '[' && line[|line| - 1] == ']' {
        section := TrimSpace(line[1..|line| - 1]);
        continue;
      }
      var cut := IndexOf(line, '=');
      if cut == |line| {
        return Err(ConfigError(i + 1, NotKeyValue));
      }
      var key := TrimSpace(line[..cut]);
      var value := ParsedValue(TrimSpace(line[cut + 1..]));
      if value.Err? {
        return Err(ConfigError(i + 1, value.error));
      }
      var next := Applied(cfg, section, key, value.value);
      if next.Err? {
        return Err(ConfigError(i + 1, next.error));
      }
      cfg := next.value;
    }
    NothingRead(cfg, section, |lines| + 1);
    r := Ok(cfg);
  }

  // ---------------------------------------------------------------- writing

  /** A line `name = text`, the text quoted or bare. */
  datatype Item = Item(name: string, text: string, quoted: bool)

  function ItemLine(item: Item): string {
    item.name + " = " + if item.quoted then Quoted(item.text) else item.text
  }

  function BoolText(b: bool): string {
    if b then "true" else "false"
  }

  /** The lines written for one key: none for a field with its zero value. */
  function UiItem(ui: Ui, k: Key): seq<Item> {
    if k.MaxFiles? then (if ui.maxFiles > 0 then [Item(KeyName(k), Decimal(ui.maxFiles), false)] else [])
    else if IsFlag(k) then (if k in ui.flags then [Item(KeyName(k), BoolText(ui.flags[k]), false)] else [])
    else if TextOf(ui.texts, k) == "" then []
    else [Item(KeyName(k), ui.texts[k], true)]
  }

  function UiItems(ui: Ui, keys: seq<Key>): seq<Item> {
    if keys == [] then [] else UiItem(ui, keys[0]) + UiItems(ui, keys[1..])
  }

  function ProviderText(p: Provider, k: ProviderKey): seq<Item> {
    if TextOf(p.texts, k) == "" then [] else [Item(ProviderKeyName(k), p.texts[k], true)]
  }

  function ProviderTexts(p: Provider, keys: seq<ProviderKey>): seq<Item> {
    if keys == [] then []
    else ProviderText(p, keys[0]) + ProviderTexts(p, keys[1..])
  }

  function ProviderItems(p: Provider): seq<Item> {
    ProviderTexts(p, PROVIDER_KEYS) + if p.words.Some? then [Item("words", BoolText(p.words.value), false)] else []
  }

  /** A section header and the lines below it. */
  datatype Section = Section(header: string, name: string, items: seq<Item>)

  /** The sections Save writes. */
  function SavedSections(cfg: Config): seq<Section> {
    [Section("[ui]", "ui", [Item("schema_version", "1", false)] + UiItems(cfg.ui, UI_KEYS))]
    + ProviderSections(TRANSCRIPTION, if TRANSCRIPTION in cfg.providers then cfg.providers[TRANSCRIPTION] else cfg.openAI)
    + if CHAT in cfg.providers then ProviderSections(CHAT, cfg.providers[CHAT]) else []
  }

  function ProviderSections(id: string, p: Provider): seq<Section> {
    if ProviderItems(p) == [] then [] else [Section("[providers." + id + "]", "providers." + id, ProviderItems(p))]
  }

  function ItemLines(items: seq<Item>): seq<string> {
    seq(|items|, i requires 0 <= i < |items| => ItemLine(items[i]))
  }

  /** Every section ends with an empty line. */
  function SectionLines(sections: seq<Section>): seq<string> {
    if sections == [] then []
    else [sections[0].header] + ItemLines(sections[0].items) + [""] + SectionLines(sections[1..])
  }

  function Saved(cfg: Config): string {
    Unlines(SectionLines(SavedSections(cfg)))
  }

  function ItemsText(items: seq<Item>): string {
    Unlines(ItemLines(items))
  }

  lemma ItemsTextConcat(a: seq<Item>, b: seq<Item>)
    ensures ItemsText(a + b) == ItemsText(a) + ItemsText(b)
  {
    assert ItemLines(a + b) == ItemLines(a) + ItemLines(b);
    UnlinesConcat(ItemLines(a), ItemLines(b));
  }

  lemma OneItem(item: Item)
    ensures ItemsText([item]) == ItemLine(item) + "\n"
  {
    assert ItemLines([item]) == [ItemLine(item)] && Unlines([]) == "";
    assert [ItemLine(item)][1..] == [];
  }

  method WriteStringValue(written: string, key: string, value: string) returns (out: string)
    ensures out == written + ItemsText(if value == "" then [] else [Item(key, value, true)])
  {
    if value == "" {
      return written;
    }
    OneItem(Item(key, value, true));
    out := written + (key + " = " + Quoted(value) + "\n");
  }

  method WriteBoolValue(written: string, key: string, value: Option<bool>) returns (out: string)
    ensures out == written + ItemsText(if value == None then [] else [Item(key, BoolText(value.value), false)])
  {
    if value == None {
      return written;
    }
    OneItem(Item(key, BoolText(value.value), false));
    out := written + (key + " = " + (if value.value then "true" else "false") + "\n");
  }

  method WriteUiValue(written: string, ui: Ui, k: Key) returns (out: string)
    ensures out == written + ItemsText(UiItem(ui, k))
  {
    hide ItemsText, KeyName, Decimal, ItemLine;
    if k == MaxFiles {
      if ui.maxFiles > 0 {
        OneItem(Item(KeyName(k), Decimal(ui.maxFiles), false));
        out := written + (KeyName(k) + " = " + Decimal(ui.maxFiles) + "\n");
        PlainLine(KeyName(k), Decimal(ui.maxFiles));
      } else {
        NoItems();
        out := written;
      }
    } else if IsFlag(k) {
      out := WriteBoolValue(written, KeyName(k), if k in ui.flags then Some(ui.flags[k]) else None);
    } else {
      out := WriteStringValue(written, KeyName(k), TextOf(ui.texts, k));
    }
  }

  lemma PlainLine(name: string, text: string)
    ensures ItemLine(Item(name, text, false)) == name + " = " + text
  {
  }

  lemma UiStep(written: string, ui: Ui, keys: seq<Key>)
    requires keys != []
    ensures written + ItemsText(UiItems(ui, keys))
         == written + ItemsText(UiItem(ui, keys[0])) + ItemsText(UiItems(ui, keys[1..]))
  {
    hide ItemsText, UiItem;
    ItemsTextConcat(UiItem(ui, keys[0]), UiItems(ui, keys[1..]));
  }

  method WriteUiConfig(ui: Ui) returns (out: string)
    ensures out == "[ui]\n" + ItemsText([Item("schema_version", "1", false)] + UiItems(ui, UI_KEYS)) + "\n"
  {
    hide ItemsText, UiItem, UiItems;
    OneItem(Item("schema_version", "1", false));
    out := "[ui]\n" + "schema_version = 1\n";
    ghost var header := out;
    assert UI_KEYS[0..] == UI_KEYS;
    for i := 0 to |UI_KEYS|
      invariant out + ItemsText(UiItems(ui, UI_KEYS[i..])) == header + ItemsText(UiItems(ui, UI_KEYS))
    {
      assert UI_KEYS[i..][1..] == UI_KEYS[i + 1..];
      UiStep(out, ui, UI_KEYS[i..]);
      out := WriteUiValue(out, ui, UI_KEYS[i]);
    }
    assert UI_KEYS[|UI_KEYS|..] == [];
    assert out == header + ItemsText(UiItems(ui, UI_KEYS)) by {
      NoUiItems(ui);
      assert out + "" == out;
    }
    ItemsTextConcat([Item("schema_version", "1", false)], UiItems(ui, UI_KEYS));
    assert header + ItemsText(UiItems(ui, UI_KEYS))
        == "[ui]\n" + ("schema_version = 1\n" + ItemsText(UiItems(ui, UI_KEYS)));
    out := out + "\n";
  }

  lemma NoUiItems(ui: Ui)
    ensures ItemsText(UiItems(ui, [])) == ""
  {
    NoItems();
  }

  lemma NoItems()
    ensures ItemsText([]) == ""
  {
    assert ItemLines([]) == [];
  }

  lemma ProviderStep(written: string, p: Provider, keys: seq<ProviderKey>)
    requires keys != []
    ensures written + ItemsText(ProviderTexts(p, keys))
         == written + ItemsText(ProviderText(p, keys[0])) + ItemsText(ProviderTexts(p, keys[1..]))
  {
    hide ItemsText;
    ItemsTextConcat(ProviderText(p, keys[0]), ProviderTexts(p, keys[1..]));
  }

  method WriteProviderTexts(written: string, p: Provider) returns (out: string)
    ensures out == written + ItemsText(ProviderTexts(p, PROVIDER_KEYS))
  {
    hide ItemsText, ProviderTexts, ProviderKeyName;
    out := written;
    assert PROVIDER_KEYS[0..] == PROVIDER_KEYS;
    for i := 0 to |PROVIDER_KEYS|
      invariant out + ItemsText(ProviderTexts(p, PROVIDER_KEYS[i..])) == written + ItemsText(ProviderTexts(p, PROVIDER_KEYS))
    {
      assert PROVIDER_KEYS[i..][1..] == PROVIDER_KEYS[i + 1..];
      ProviderStep(out, p, PROVIDER_KEYS[i..]);
      out := WriteStringValue(out, ProviderKeyName(PROVIDER_KEYS[i]), TextOf(p.texts, PROVIDER_KEYS[i]));
    }
    assert PROVIDER_KEYS[|PROVIDER_KEYS|..] == [];
    assert ItemsText(ProviderTexts(p, [])) == "" by { NoProviderTexts(p); }
    assert out + "" == out;
  }

  lemma NoProviderTexts(p: Provider)
    ensures ItemsText(ProviderTexts(p, [])) == ""
  {
    NoItems();
  }

  method WriteProviderConfig(written: string, id: string, p: Provider) returns (out: string)
    ensures out == written + Unlines(SectionLines(ProviderSections(id, p)))
  {
    hide ItemsText, ProviderTexts, Unlines;
    BlankProvider(p);
    if TextOf(p.texts, Model) == "" && TextOf(p.texts, ApiKeyEnv) == "" && TextOf(p.texts, BaseUrl) == ""
       && TextOf(p.texts, UploadFormat) == "" && p.words == None {
      assert Unlines([]) == "" by { NoLines(); }
      assert written + "" == written;
      return written;
    }
    out := written + ("[providers." + id + "]\n");
    out := WriteProviderTexts(out, p);
    ghost var words := if p.words.Some? then [Item("words", BoolText(p.words.value), false)] else [];
    ItemsTextConcat(ProviderTexts(p, PROVIDER_KEYS), words);
    out := WriteBoolValue(out, "words", p.words);
    out := out + "\n";
    ProviderLines(id, p);
    assert out == written + ("[providers." + id + "]" + "\n" + (ItemsText(ProviderTexts(p, PROVIDER_KEYS)) + ItemsText(words)) + "\n");
  }

  lemma NoLines()
    ensures Unlines([]) == ""
  {
  }

  lemma {:induction false} BlankTexts(p: Provider, keys: seq<ProviderKey>)
    ensures ProviderTexts(p, keys) == [] <==> forall k <- keys :: TextOf(p.texts, k) == ""
  {
    if keys != [] {
      BlankTexts(p, keys[1..]);
      assert keys == [keys[0]] + keys[1..];
    }
  }

  /** Nothing is written for a provider all of whose fields are zero. */
  lemma BlankProvider(p: Provider)
    ensures ProviderItems(p) == []
            <==> TextOf(p.texts, Model) == "" && TextOf(p.texts, ApiKeyEnv) == "" && TextOf(p.texts, BaseUrl) == ""
                 && TextOf(p.texts, UploadFormat) == "" && p.words == None
  {
    BlankTexts(p, PROVIDER_KEYS);
    assert forall k <- PROVIDER_KEYS :: k in {Model, ApiKeyEnv, BaseUrl, UploadFormat};
    assert Model in PROVIDER_KEYS && ApiKeyEnv in PROVIDER_KEYS && BaseUrl in PROVIDER_KEYS && UploadFormat in PROVIDER_KEYS;
  }

  lemma SectionText(section: Section)
    ensures Unlines(SectionLines([section])) == section.header + "\n" + ItemsText(section.items) + "\n"
  {
    var header, lines := [section.header], ItemLines(section.items);
    assert SectionLines([section][1..]) == [];
    assert SectionLines([section]) == header + lines + [""];
    UnlinesConcat(header + lines, [""]);
    UnlinesConcat(header, lines);
    assert header[1..] == [] && [""][1..] == [] && Unlines([]) == "";
  }

  lemma ProviderLines(id: string, p: Provider)
    requires ProviderItems(p) != []
    ensures Unlines(SectionLines(ProviderSections(id, p)))
         == "[providers." + id + "]" + "\n" + ItemsText(ProviderItems(p)) + "\n"
  {
    SectionText(Section("[providers." + id + "]", "providers." + id, ProviderItems(p)));
  }

  lemma {:induction false} SectionLinesConcat(a: seq<Section>, b: seq<Section>)
    ensures Unlines(SectionLines(a + b)) == Unlines(SectionLines(a)) + Unlines(SectionLines(b))
  {
    SectionLinesOf(a, b);
    UnlinesConcat(SectionLines(a), SectionLines(b));
  }

  lemma {:induction false} SectionLinesOf(a: seq<Section>, b: seq<Section>)
    ensures SectionLines(a + b) == SectionLines(a) + SectionLines(b)
  {
    if a == [] {
      assert a + b == b;
    } else {
      assert (a + b)[1..] == a[1..] + b;
      SectionLinesOf(a[1..], b);
    }
  }

  method Save(cfg: Config) returns (out: string)
    ensures out == Saved(cfg)
  {
    hide UiItems, ProviderItems, ItemsText, Unlines, SectionLines;
    var ui := Section("[ui]", "ui", [Item("schema_version", "1", false)] + UiItems(cfg.ui, UI_KEYS));
    SectionText(ui);
    out := WriteUiConfig(cfg.ui);
    assert out == Unlines(SectionLines([ui]));
    var transcription := if TRANSCRIPTION in cfg.providers then cfg.providers[TRANSCRIPTION] else cfg.openAI;
    SectionLinesConcat([ui], ProviderSections(TRANSCRIPTION, transcription));
    if |cfg.providers| == 0 {
      out := WriteProviderConfig(out, TRANSCRIPTION, cfg.openAI);
      assert SavedSections(cfg) == [ui] + ProviderSections(TRANSCRIPTION, transcription);
      return;
    }
    if TRANSCRIPTION in cfg.providers {
      out := WriteProviderConfig(out, TRANSCRIPTION, cfg.providers[TRANSCRIPTION]);
    } else {
      out := WriteProviderConfig(out, TRANSCRIPTION, cfg.openAI);
    }
    if CHAT in cfg.providers {
      SectionLinesConcat([ui] + ProviderSections(TRANSCRIPTION, transcription), ProviderSections(CHAT, cfg.providers[CHAT]));
      out := WriteProviderConfig(out, CHAT, cfg.providers[CHAT]);
    } else {
      assert SavedSections(cfg) == [ui] + ProviderSections(TRANSCRIPTION, transcription);
    }
  }
}
