/** The connection settings: `loadCfg`, which layers the build-time
    `window.WARROOM_CONFIG` object and the blob kept in local storage over
    empty defaults, and the settings form's save handler (public/app.js). */
module Settings {
  import opened Js
  import opened Url

  /** The five settings the dashboard reads. */
  datatype Config = Config(
    backendUrl: string,
    backendApiKey: string,
    relayUrl: string,
    relayApiKey: string,
    guildId: string)

  datatype Field = BackendUrl | BackendApiKey | RelayUrl | RelayApiKey | GuildId {
    /** The property name the field has in every configuration object. */
    function Key(): string {
      match this
      case BackendUrl => "BACKEND_URL"
      case BackendApiKey => "BACKEND_API_KEY"
      case RelayUrl => "RELAY_URL"
      case RelayApiKey => "RELAY_API_KEY"
      case GuildId => "GUILD_ID"
    }

    predicate IsUrl() {
      this == BackendUrl || this == RelayUrl
    }

    /** The order in which `loadCfg` cleans the fields. */
    function Step(): nat {
      match this
      case BackendUrl => 0
      case RelayUrl => 1
      case BackendApiKey => 2
      case RelayApiKey => 3
      case GuildId => 4
    }
  }

  function Get(cfg: Config, f: Field): string {
    match f
    case BackendUrl => cfg.backendUrl
    case BackendApiKey => cfg.backendApiKey
    case RelayUrl => cfg.relayUrl
    case RelayApiKey => cfg.relayApiKey
    case GuildId => cfg.guildId
  }

  /** `loadCfg` fails when a merged value is truthy but not a string: calling
      `.trim()` on it throws a TypeError. */
  datatype LoadError = NotAString(field: Field)

  /** `window.WARROOM_CONFIG` as public/config.js defines it. */
  const BuildTimeConfig: Json :=
    Object(map["BACKEND_URL" := Str(""), "BACKEND_API_KEY" := Str(""), "OVERSEER_PUBLIC_URL" := Str("")])

  /** A source `loadCfg` merges: itself when it is a truthy object (an array
      included), `{}` otherwise. */
  function Layer(source: Json): Json {
    if Truthy(source) && IsObjectLike(source) then source else Object(map[])
  }

  /** The stored blob: the item read from local storage, parsed with
      `safeJson` when it is a non-empty string, `null` otherwise. `parse`
      stands for `JSON.parse` (None when it throws). */
  function StoredBlob(raw: Option<string>, parse: string -> Option<Json>): (r: Json)
    ensures r != Null ==> raw.Some? && raw.value != "" && parse(raw.value) == Some(r)
    ensures raw.Some? && raw.value != "" && parse(raw.value).Some? ==> r == parse(raw.value).value
  {
    if raw.Some? && raw.value != "" then SafeJson(parse(raw.value)) else Null
  }

  /** The own enumerable property `key` that `Object.assign` copies from a
      layer. An array's properties are its indices, never a settings key. */
  function OwnProperty(layer: Json, key: string): Option<Json> {
    if layer.Object? && key in layer.fields then Some(layer.fields[key]) else None
  }

  /** The defaults `loadCfg` starts from: every field empty. */
  const Defaults: map<string, Json> :=
    map["BACKEND_URL" := Str(""), "BACKEND_API_KEY" := Str(""), "RELAY_URL" := Str(""),
        "RELAY_API_KEY" := Str(""), "GUILD_ID" := Str("")]

  /** The properties a layer contributes to `Object.assign`: an object's
      fields, nothing for anything else. */
  function Props(layer: Json): map<string, Json> {
    if layer.Object? then layer.fields else map[]
  }

  /** `Object.assign(defaults, base, stored)` as it runs: each source's
      properties, left to right, overwrite those already copied. */
  function Assigned(windowConfig: Json, stored: Json): map<string, Json> {
    Defaults + Props(Layer(windowConfig)) + Props(Layer(stored))
  }

  /** The value under `key` after `Object.assign(defaults, base, stored)`:
      the later source that has the property wins, "" when neither has it. */
  function Merged(windowConfig: Json, stored: Json, key: string): (r: Json)
    ensures stored.Object? && key in stored.fields ==> r == stored.fields[key]
    ensures || r == Str("") || (stored.Object? && key in stored.fields && r == stored.fields[key])
            || (windowConfig.Object? && key in windowConfig.fields && r == windowConfig.fields[key])
  {
    match OwnProperty(Layer(stored), key)
    case Some(v) => v
    case None =>
      match OwnProperty(Layer(windowConfig), key)
      case Some(v) => v
      case None => Str("")
  }

  /** Every settings key is one of the defaults, so the merged object always
      has it. */
  lemma KeyIsDefault(f: Field)
    ensures f.Key() in Defaults
  {
    match f
    case BackendUrl =>
    case BackendApiKey =>
    case RelayUrl =>
    case RelayApiKey =>
    case GuildId =>
  }

  /** Reading one settings key by layer precedence agrees with the object
      the left-to-right `Object.assign` copy builds: the stored blob's
      property if it has one, else the build-time object's, else the empty
      default. */
  lemma MergedIsAssigned(windowConfig: Json, stored: Json, f: Field)
    ensures f.Key() in Assigned(windowConfig, stored)
    ensures Merged(windowConfig, stored, f.Key()) == Assigned(windowConfig, stored)[f.Key()]
  {
    KeyIsDefault(f);
  }

  /** `(v || "")` as a string, or None when `.trim()` would throw on it. */
  function TextOf(v: Json): (r: Option<string>)
    ensures r.Some? <==> !Truthy(v) || v.Str?
    ensures v.Str? ==> r == Some(v.s)
    ensures !Truthy(v) ==> r == Some("")
  {
    if !Truthy(v) then Some("") else if v.Str? then Some(v.s) else None
  }

  /** Field `f` after merging, as the text `loadCfg` cleans: None when the
      merged value is truthy but not a string. */
  function FieldText(windowConfig: Json, stored: Json, f: Field): Option<string> {
    TextOf(Merged(windowConfig, stored, f.Key()))
  }

  /** The merged fields, taken in the order `loadCfg` takes them:
      BACKEND_URL, RELAY_URL, BACKEND_API_KEY, RELAY_API_KEY, GUILD_ID; the
      first that is not text is the one `.trim()` throws on. */
  function MergedTexts(windowConfig: Json, raw: Option<string>, parse: string -> Option<Json>): Result<Config, LoadError> {
    var stored := StoredBlob(raw, parse);
    var backendUrl := FieldText(windowConfig, stored, BackendUrl);
    var relayUrl := FieldText(windowConfig, stored, RelayUrl);
    var backendApiKey := FieldText(windowConfig, stored, BackendApiKey);
    var relayApiKey := FieldText(windowConfig, stored, RelayApiKey);
    var guildId := FieldText(windowConfig, stored, GuildId);
    if backendUrl.None? then Err(NotAString(BackendUrl))
    else if relayUrl.None? then Err(NotAString(RelayUrl))
    else if backendApiKey.None? then Err(NotAString(BackendApiKey))
    else if relayApiKey.None? then Err(NotAString(RelayApiKey))
    else if guildId.None? then Err(NotAString(GuildId))
    else Ok(Config(backendUrl.value, backendApiKey.value, relayUrl.value, relayApiKey.value, guildId.value))
  }

  /** The texts are gathered exactly when every merged field is text, and
      then each is that field's text; otherwise the error names a field that
      is not text, and every field taken before it is. */
  lemma MergedTextsFields(windowConfig: Json, raw: Option<string>, parse: string -> Option<Json>)
    ensures var r, stored := MergedTexts(windowConfig, raw, parse), StoredBlob(raw, parse);
            && (r.Ok? <==> forall f: Field :: FieldText(windowConfig, stored, f).Some?)
            && (r.Ok? ==> forall f: Field :: FieldText(windowConfig, stored, f) == Some(Get(r.value, f)))
            && (r.Err? ==> && FieldText(windowConfig, stored, r.error.field).None?
                           && forall g: Field :: g.Step() < r.error.field.Step() ==> FieldText(windowConfig, stored, g).Some?)
  {
    var r, stored := MergedTexts(windowConfig, raw, parse), StoredBlob(raw, parse);
    if r.Ok? {
      forall f: Field ensures FieldText(windowConfig, stored, f) == Some(Get(r.value, f)) {
        match f
        case BackendUrl =>
        case BackendApiKey =>
        case RelayUrl =>
        case RelayApiKey =>
        case GuildId =>
      }
    }
  }

  /** The cleaning `loadCfg` and the save handler apply: `normalizeUrl` to
      the two URLs, `trim` to the keys and the guild id. */
  function Cleaned(cfg: Config): (r: Config)
    ensures r.backendUrl != [] ==> HasScheme(r.backendUrl)
    ensures r.relayUrl != [] ==> HasScheme(r.relayUrl)
    ensures r.relayUrl == [] <==> AllWhitespace(cfg.relayUrl)
  {
    Config(NormalizeUrl(cfg.backendUrl), Trim(cfg.backendApiKey), NormalizeUrl(cfg.relayUrl),
           Trim(cfg.relayApiKey), Trim(cfg.guildId))
  }

  /** The cleaning of one field: `normalizeUrl` for a URL, `trim` for the
      rest. */
  function CleanField(f: Field, t: string): string {
    if f.IsUrl() then NormalizeUrl(t) else Trim(t)
  }

  /** Cleaning works field by field: each field of the cleaned
      configuration is that field's own cleaning. */
  lemma CleanedField(cfg: Config, f: Field)
    ensures Get(Cleaned(cfg), f) == CleanField(f, Get(cfg, f))
  {
    match f
    case BackendUrl =>
    case BackendApiKey =>
    case RelayUrl =>
    case RelayApiKey =>
    case GuildId =>
  }

  lemma CleanedFields(cfg: Config)
    ensures forall f: Field :: Get(Cleaned(cfg), f) == CleanField(f, Get(cfg, f))
  {
    forall f: Field ensures Get(Cleaned(cfg), f) == CleanField(f, Get(cfg, f)) {
      CleanedField(cfg, f);
    }
  }

  /** The cleaned form: each URL is empty or starts with an http(s) scheme,
      and no other field has whitespace at its ends. */
  predicate IsClean(cfg: Config) {
    && (cfg.backendUrl == [] || HasScheme(cfg.backendUrl))
    && (cfg.relayUrl == [] || HasScheme(cfg.relayUrl))
    && Trim(cfg.backendApiKey) == cfg.backendApiKey
    && Trim(cfg.relayApiKey) == cfg.relayApiKey
    && Trim(cfg.guildId) == cfg.guildId
  }

  /** Cleaning always reaches the cleaned form. */
  lemma CleanedIsClean(cfg: Config)
    ensures IsClean(Cleaned(cfg))
  {
    TrimIdempotent(cfg.backendApiKey);
    TrimIdempotent(cfg.relayApiKey);
    TrimIdempotent(cfg.guildId);
  }

  /** Cleaning a cleaned configuration whose URLs are settled changes
      nothing. */
  lemma CleanedStable(cfg: Config)
    requires Settled(Cleaned(cfg).backendUrl) && Settled(Cleaned(cfg).relayUrl)
    ensures Cleaned(Cleaned(cfg)) == Cleaned(cfg)
  {
    var c := Cleaned(cfg);
    NormalizeUrlStable(cfg.backendUrl);
    NormalizeUrlStable(cfg.relayUrl);
    TrimIdempotent(cfg.backendApiKey);
    TrimIdempotent(cfg.relayApiKey);
    TrimIdempotent(cfg.guildId);
    assert NormalizeUrl(c.backendUrl) == c.backendUrl;
    assert NormalizeUrl(c.relayUrl) == c.relayUrl;
    assert Trim(c.backendApiKey) == c.backendApiKey && Trim(c.relayApiKey) == c.relayApiKey && Trim(c.guildId) == c.guildId;
  }

  /** `loadCfg()`: the merged texts, cleaned; a field that is not text makes
      it throw. */
  function LoadCfg(windowConfig: Json, raw: Option<string>, parse: string -> Option<Json>): (r: Result<Config, LoadError>)
    ensures r.Ok? <==> MergedTexts(windowConfig, raw, parse).Ok?
    ensures r.Ok? ==> IsClean(r.value)
    ensures r.Err? ==> r.error == MergedTexts(windowConfig, raw, parse).error
    ensures r.Ok? ==> forall f: Field ::
              var t := FieldText(windowConfig, StoredBlob(raw, parse), f);
              t.Some? && Get(r.value, f) == CleanField(f, t.value)
  {
    match MergedTexts(windowConfig, raw, parse)
    case Ok(texts) =>
      CleanedIsClean(texts);
      MergedTextsFields(windowConfig, raw, parse);
      CleanedFields(texts);
      Ok(Cleaned(texts))
    case Err(e) => Err(e)
  }

  /** Each loaded setting is the value the left-to-right `Object.assign`
      leaves under its key (the stored blob's if it has the key, else the
      build-time object's, else the empty default), read as text and
      cleaned. */
  lemma LoadCfgLayers(windowConfig: Json, raw: Option<string>, parse: string -> Option<Json>, f: Field)
    requires LoadCfg(windowConfig, raw, parse).Ok?
    ensures f.Key() in Assigned(windowConfig, StoredBlob(raw, parse))
    ensures var t := TextOf(Assigned(windowConfig, StoredBlob(raw, parse))[f.Key()]);
            t.Some? && Get(LoadCfg(windowConfig, raw, parse).value, f) == CleanField(f, t.value)
  {
    MergedIsAssigned(windowConfig, StoredBlob(raw, parse), f);
  }

  /** A stored item that is missing, empty, unparseable, or parses to
      something other than a truthy object is ignored. */
  lemma LoadCfgIgnoresUnusableBlob(windowConfig: Json, raw: Option<string>, parse: string -> Option<Json>)
    requires || raw.None? || raw.value == "" || parse(raw.value).None?
             || !(Truthy(parse(raw.value).value) && IsObjectLike(parse(raw.value).value))
    ensures LoadCfg(windowConfig, raw, parse) == LoadCfg(windowConfig, None, parse)
  {
    var s1, s0 := StoredBlob(raw, parse), StoredBlob(None, parse);
    assert Layer(s1) == Layer(s0);
    forall f: Field ensures FieldText(windowConfig, s1, f) == FieldText(windowConfig, s0, f) {
      assert Merged(windowConfig, s1, f.Key()) == Merged(windowConfig, s0, f.Key());
    }
    assert MergedTexts(windowConfig, raw, parse) == MergedTexts(windowConfig, None, parse);
  }

  /** With nothing stored (the state the settings form's Clear button
      leaves), the build-time object of public/config.js yields an empty
      configuration. */
  lemma LoadCfgBuildTimeDefaults(parse: string -> Option<Json>)
    ensures LoadCfg(BuildTimeConfig, None, parse) == Ok(Config("", "", "", "", ""))
  {
    var stored := StoredBlob(None, parse);
    var empty := Config("", "", "", "", "");
    assert FieldText(BuildTimeConfig, stored, BackendUrl) == Some("");
    assert FieldText(BuildTimeConfig, stored, RelayUrl) == Some("");
    assert FieldText(BuildTimeConfig, stored, BackendApiKey) == Some("");
    assert FieldText(BuildTimeConfig, stored, RelayApiKey) == Some("");
    assert FieldText(BuildTimeConfig, stored, GuildId) == Some("");
    assert MergedTexts(BuildTimeConfig, None, parse) == Ok(empty);
    assert AllWhitespace("");
    assert Cleaned(empty) == empty;
  }

  /** What the settings form's save handler does with the five inputs. */
  datatype SaveOutcome = Rejected(message: string) | Persisted(next: Config)

  /** The save handler: the inputs cleaned as `loadCfg` cleans them; refused,
      with nothing persisted, exactly when the Relay URL input is blank. */
  function SaveSettings(form: Config): (r: SaveOutcome)
    ensures r.Rejected? <==> AllWhitespace(form.relayUrl)
    ensures r.Rejected? ==> r.message == "Relay URL invalid"
    ensures r.Persisted? ==> r.next == Cleaned(form)
    ensures r.Persisted? ==> r.next.relayUrl != [] && IsClean(r.next)
  {
    var next := Cleaned(form);
    CleanedIsClean(form);
    if next.relayUrl == [] then Rejected("Relay URL invalid") else Persisted(next)
  }

  /** The object `JSON.stringify` writes for a configuration, as `JSON.parse`
      reads it back. */
  function ConfigJson(cfg: Config): Json {
    Object(map[
      "BACKEND_URL" := Str(cfg.backendUrl),
      "BACKEND_API_KEY" := Str(cfg.backendApiKey),
      "RELAY_URL" := Str(cfg.relayUrl),
      "RELAY_API_KEY" := Str(cfg.relayApiKey),
      "GUILD_ID" := Str(cfg.guildId)])
  }

  /** Reading back the stored JSON of a configuration gives its fields as
      they were written, whatever the build-time object holds. */
  lemma MergedTextsOfStored(windowConfig: Json, raw: string, parse: string -> Option<Json>, cfg: Config)
    requires raw != "" && parse(raw) == Some(ConfigJson(cfg))
    ensures MergedTexts(windowConfig, Some(raw), parse) == Ok(cfg)
  {
    var stored := StoredBlob(Some(raw), parse);
    assert stored == ConfigJson(cfg);
    assert FieldText(windowConfig, stored, BackendUrl) == Some(cfg.backendUrl);
    assert FieldText(windowConfig, stored, RelayUrl) == Some(cfg.relayUrl);
    assert FieldText(windowConfig, stored, BackendApiKey) == Some(cfg.backendApiKey);
    assert FieldText(windowConfig, stored, RelayApiKey) == Some(cfg.relayApiKey);
    assert FieldText(windowConfig, stored, GuildId) == Some(cfg.guildId);
  }

  /** Saving and then loading (what the save handler does next) gives back
      the configuration that was saved, provided both saved URLs are settled;
      the build-time object no longer matters. */
  lemma SaveThenLoad(form: Config, windowConfig: Json, raw: string, parse: string -> Option<Json>)
    requires SaveSettings(form).Persisted?
    requires Settled(SaveSettings(form).next.backendUrl) && Settled(SaveSettings(form).next.relayUrl)
    requires raw != "" && parse(raw) == Some(ConfigJson(SaveSettings(form).next))
    ensures LoadCfg(windowConfig, Some(raw), parse) == Ok(SaveSettings(form).next)
  {
    MergedTextsOfStored(windowConfig, raw, parse, Cleaned(form));
    CleanedStable(form);
  }

  /** Without a settled URL the round trip breaks: a Relay URL typed as
      "x /" is saved as "https://x " but loads back as "https://x". */
  lemma SaveThenLoadCanDiffer(windowConfig: Json, raw: string, parse: string -> Option<Json>, relayUrl: string)
    requires relayUrl == "x /"
    requires raw != "" && parse(raw) == Some(ConfigJson(Cleaned(Config("", "", relayUrl, "", ""))))
    ensures SaveSettings(Config("", "", relayUrl, "", "")) == Persisted(Config("", "", "https://x ", "", ""))
    ensures LoadCfg(windowConfig, Some(raw), parse) == Ok(Config("", "", "https://x", "", ""))
  {
    var saved := Config("", "", "https://x ", "", "");
    NormalizeUrlKeepsInnerBlank(relayUrl);
    NormalizeUrlTrimsOnSecondPass("https://x ");
    assert AllWhitespace("");
    assert Cleaned(Config("", "", relayUrl, "", "")) == saved;
    MergedTextsOfStored(windowConfig, raw, parse, saved);
    assert Cleaned(saved) == Config("", "", "https://x", "", "");
  }
}
