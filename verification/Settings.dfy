/**
 * Reading the settings file (backend/internal/handler/settings.go). Fields that loading never touches are not
 * modelled.
 */
module Settings {
  import opened Wrappers

  datatype ModelConfig = ModelConfig(
    id: string,
    name: string,
    baseUrl: string,
    modelName: string,
    key: string,
    temperature: real,
    responseFormat: string,
    timeoutSecs: int)

  datatype Window = Window(x: int, y: int, width: int, height: int, sidebarVisible: bool, sidebarView: string)

  datatype Limits = Limits(debounceSecs: int, tickerMins: int, retentionDays: int, maxStorageMb: int)

  /** The flat fields that older versions used. */
  datatype Flat = Flat(model: string, baseUrl: string, modelName: string, key: string)

  datatype Settings = Settings(
    agentId: string,
    flat: Flat,
    configs: seq<ModelConfig>,
    activeId: string,
    systemPrompt: string,
    temperature: real,
    closeBehavior: string,
    window: Window,
    limits: Limits)

  const NO_FLAT := Flat("", "", "", "")

  const DEFAULTS := Settings(
    "default",
    Flat("gpt-4", "https://api.openai.com/v1", "gpt-4", ""),
    [],
    "",
    "你是一个乐于助人的 AI 助手。",
    0.7,
    "ask",
    Window(100, 100, 1200, 800, true, "conversation"),
    Limits(60, 15, 30, 5120))

  // ---- searches ----

  /** The first config from position i on that has the id and a key. */
  function ActiveFrom(configs: seq<ModelConfig>, id: string, i: nat): Option<ModelConfig>
    requires i <= |configs|
    decreases |configs| - i
  {
    if i == |configs| then None
    else if configs[i].id == id && configs[i].key != "" then Some(configs[i])
    else ActiveFrom(configs, id, i + 1)
  }

  function KeyedFrom(configs: seq<ModelConfig>, i: nat): Option<ModelConfig>
    requires i <= |configs|
    decreases |configs| - i
  {
    if i == |configs| then None else if configs[i].key != "" then Some(configs[i]) else KeyedFrom(configs, i + 1)
  }

  function Active(s: Settings): Option<ModelConfig> {
    if s.activeId == "" then None else ActiveFrom(s.configs, s.activeId, 0)
  }

  function FirstKeyed(s: Settings): Option<ModelConfig> { KeyedFrom(s.configs, 0) }

  method ActiveConfig(s: Settings) returns (cfg: Option<ModelConfig>)
    ensures cfg == Active(s)
  {
    if s.activeId != "" {
      for i := 0 to |s.configs|
        invariant ActiveFrom(s.configs, s.activeId, 0) == ActiveFrom(s.configs, s.activeId, i)
      {
        if s.configs[i].id == s.activeId && s.configs[i].key != "" { return Some(s.configs[i]); }
      }
    }
    cfg := None;
  }

  method FirstConfigWithKey(s: Settings) returns (cfg: Option<ModelConfig>)
    ensures cfg == FirstKeyed(s)
  {
    for i := 0 to |s.configs|
      invariant FirstKeyed(s) == KeyedFrom(s.configs, i)
    {
      if s.configs[i].key != "" { return Some(s.configs[i]); }
    }
    cfg := None;
  }

  // ---- loading ----

  predicate HasLegacyData(s: Settings) {
    s.flat.baseUrl != "" || s.flat.modelName != "" || s.flat.key != ""
  }

  function Legacy(s: Settings): ModelConfig {
    ModelConfig("default", "默认配置", s.flat.baseUrl, s.flat.modelName, s.flat.key, s.temperature, "text", 30)
  }

  function Migrated(s: Settings): Settings {
    if s.configs != [] || !HasLegacyData(s) then s
    else s.(configs := [Legacy(s)], activeId := "default")
  }

  function FlatOf(cfg: Option<ModelConfig>): Flat {
    match cfg
    case None => NO_FLAT
    case Some(c) => Flat(c.modelName, c.baseUrl, c.modelName, c.key)
  }

  function Derived(s: Settings): Settings { s.(flat := FlatOf(Active(s))) }

  function OrText(text: string, other: string): string { if text == "" then other else text }

  function OrNumber(n: int, other: int): int { if n == 0 then other else n }

  /** Missing fields get their defaults; a file from before windows were stored gets the default window. */
  function Filled(s: Settings, isOld: bool): Settings {
    var d := DEFAULTS;
    s.(flat := s.flat.(baseUrl := OrText(s.flat.baseUrl, d.flat.baseUrl),
                       modelName := OrText(s.flat.modelName, d.flat.modelName)),
       systemPrompt := OrText(s.systemPrompt, d.systemPrompt),
       temperature := if s.temperature == 0.0 then d.temperature else s.temperature,
       closeBehavior := OrText(s.closeBehavior, d.closeBehavior),
       window := if isOld then d.window else s.window,
       limits := Limits(
         OrNumber(s.limits.debounceSecs, d.limits.debounceSecs),
         OrNumber(s.limits.tickerMins, d.limits.tickerMins),
         OrNumber(s.limits.retentionDays, d.limits.retentionDays),
         OrNumber(s.limits.maxStorageMb, d.limits.maxStorageMb)))
  }

  predicate IsOld(s: Settings) { s.agentId == "" && s.window.width == 0 }

  /** With no usable active config, the first config that has a key is activated. */
  function Repaired(s: Settings): Settings {
    if Active(s).None? && FirstKeyed(s).Some? then Derived(s.(activeId := FirstKeyed(s).value.id)) else s
  }

  function Normalized(s: Settings): Settings {
    Repaired(Derived(Filled(Migrated(s), IsOld(s))))
  }

  /** LoadSettings; None stands for a file that is missing or no JSON. */
  method LoadSettings(stored: Option<Settings>) returns (settings: Settings)
    ensures settings == match stored case None => DEFAULTS case Some(s) => Normalized(s)
  {
    if stored.None? { return DEFAULTS; }
    settings := stored.value;
    var isOldConfig := settings.agentId == "" && settings.window.width == 0;
    settings := MigrateOldConfig(settings);
    settings := FillDefaults(settings, isOldConfig);
    hide Filled, Migrated, ActiveFrom, KeyedFrom;
    settings := DeriveFlatFields(settings);
    var active := ActiveConfig(settings);
    if settings.activeId == "" || active.None? {
      var cfg := FirstConfigWithKey(settings);
      if cfg.Some? {
        settings := DeriveFlatFields(settings.(activeId := cfg.value.id));
      }
    }
  }

  method FillDefaults(s: Settings, isOldConfig: bool) returns (settings: Settings)
    ensures settings == Filled(s, isOldConfig)
  {
    settings := s;
    if settings.flat.baseUrl == "" {
      settings := settings.(flat := settings.flat.(baseUrl := DEFAULTS.flat.baseUrl));
    }
    if settings.flat.modelName == "" {
      settings := settings.(flat := settings.flat.(modelName := DEFAULTS.flat.modelName));
    }
    if settings.systemPrompt == "" { settings := settings.(systemPrompt := DEFAULTS.systemPrompt); }
    if settings.temperature == 0.0 { settings := settings.(temperature := DEFAULTS.temperature); }
    if settings.closeBehavior == "" { settings := settings.(closeBehavior := DEFAULTS.closeBehavior); }
    if isOldConfig { settings := settings.(window := DEFAULTS.window); }
    settings := FillLimits(settings);
  }

  method FillLimits(s: Settings) returns (settings: Settings)
    ensures settings == s.(limits := Filled(s, false).limits)
  {
    var limits := s.limits;
    if limits.debounceSecs == 0 { limits := limits.(debounceSecs := DEFAULTS.limits.debounceSecs); }
    if limits.tickerMins == 0 { limits := limits.(tickerMins := DEFAULTS.limits.tickerMins); }
    if limits.retentionDays == 0 { limits := limits.(retentionDays := DEFAULTS.limits.retentionDays); }
    if limits.maxStorageMb == 0 { limits := limits.(maxStorageMb := DEFAULTS.limits.maxStorageMb); }
    settings := s.(limits := limits);
  }

  method MigrateOldConfig(s: Settings) returns (settings: Settings)
    ensures settings == Migrated(s)
  {
    if |s.configs| > 0 { return s; }
    if s.flat.baseUrl == "" && s.flat.modelName == "" && s.flat.key == "" { return s; }
    var migrated := ModelConfig("default", "默认配置", s.flat.baseUrl, s.flat.modelName, s.flat.key, s.temperature, "text",
                                30);
    settings := s.(configs := [migrated], activeId := migrated.id);
  }

  method DeriveFlatFields(s: Settings) returns (settings: Settings)
    ensures settings == Derived(s)
  {
    var cfg := ActiveConfig(s);
    if cfg.None? { return s.(flat := NO_FLAT); }
    settings := s.(flat := Flat(cfg.value.modelName, cfg.value.baseUrl, cfg.value.modelName, cfg.value.key));
  }

  // ---- loading settles ----

  /** Nothing is left for loading to do. */
  predicate Settled(s: Settings) {
    && (s.configs == [] ==> !HasLegacyData(s))
    && s.systemPrompt != "" && s.temperature != 0.0 && s.closeBehavior != "" && !IsOld(s)
    && s.limits.debounceSecs != 0
    && s.limits.tickerMins != 0
    && s.limits.retentionDays != 0
    && s.limits.maxStorageMb != 0
    && s == Derived(s)
    && (Active(s).None? && FirstKeyed(s).Some? ==> FirstKeyed(s).value.id == "" == s.activeId)
  }

  /** The first config with a key answers to its id. */
  lemma {:induction false} KeyedAnswers(configs: seq<ModelConfig>, i: nat)
    requires i <= |configs| && KeyedFrom(configs, i).Some?
    ensures ActiveFrom(configs, KeyedFrom(configs, i).value.id, i) == KeyedFrom(configs, i)
    decreases |configs| - i
  {
    if configs[i].key == "" { KeyedAnswers(configs, i + 1); }
  }

  lemma NormalizedSettles(s: Settings)
    ensures Settled(Normalized(s))
  {
    hide ActiveFrom, KeyedFrom;
    var d := Derived(Filled(Migrated(s), IsOld(s)));
    if d.configs == [] { NothingActive(d); }
    if FirstKeyed(d).Some? { KeyedAnswers(d.configs, 0); }
  }

  lemma NothingActive(s: Settings)
    requires s.configs == []
    ensures Active(s).None? && FirstKeyed(s).None?
  {
  }

  lemma SettledIsFixed(s: Settings)
    requires Settled(s)
    ensures Normalized(s) == s
  {
    hide ActiveFrom, KeyedFrom;
    assert Migrated(s) == s;
    var f := Filled(s, false);
    assert Derived(f) == s;
  }

  /** Loading what was loaded changes nothing. */
  lemma NormalizedTwice(s: Settings)
    ensures Normalized(Normalized(s)) == Normalized(s)
  {
    NormalizedSettles(s);
    SettledIsFixed(Normalized(s));
  }

  // ---- what loading repairs ----

  /** The flat fields mirror a keyed active config, or no config with an id has a key and they are empty. */
  ghost predicate Consistent(s: Settings) {
    || (Active(s).Some? && s.flat == FlatOf(Active(s)))
    || (s.flat == NO_FLAT && forall i :: 0 <= i < |s.configs| && s.configs[i].id != "" ==> s.configs[i].key == "")
  }

  /** Some config that could be activated has a key. */
  ghost predicate Activatable(s: Settings) {
    exists i :: 0 <= i < |s.configs| && s.configs[i].id != "" && s.configs[i].key != ""
  }

  lemma {:induction false} KeyedIsFirst(configs: seq<ModelConfig>, i: nat)
    requires i <= |configs|
    ensures KeyedFrom(configs, i).None? ==> forall k :: i <= k < |configs| ==> configs[k].key == ""
    ensures KeyedFrom(configs, i).Some? ==>
        exists k :: i <= k < |configs| && configs[k] == KeyedFrom(configs, i).value && configs[k].key != ""
    decreases |configs| - i
  {
    if i < |configs| && configs[i].key == "" { KeyedIsFirst(configs, i + 1); }
  }

  lemma NormalizedKeepsConfigs(s: Settings)
    ensures Normalized(s).configs == Migrated(s).configs
    ensures Active(Normalized(s)).Some? <==>
              Active(Migrated(s)).Some? || (FirstKeyed(Migrated(s)).Some? && FirstKeyed(Migrated(s)).value.id != "")
  {
    hide ActiveFrom, KeyedFrom;
    var d := Derived(Filled(Migrated(s), IsOld(s)));
    assert Active(d) == Active(Migrated(s)) && FirstKeyed(d) == FirstKeyed(Migrated(s));
    if FirstKeyed(d).Some? { KeyedAnswers(d.configs, 0); }
  }

  /** Loading repairs the settings unless the first config with a key has no id while a later one has both. */
  lemma ConsistentIff(s: Settings)
    ensures var m := Migrated(s);
            Consistent(Normalized(s)) <==>
              Active(m).Some? || FirstKeyed(m).None? || FirstKeyed(m).value.id != "" || !Activatable(m)
  {
    NormalizedKeepsConfigs(s);
    NormalizedSettles(s);
    KeyedIsFirst(Migrated(s).configs, 0);
    hide ActiveFrom, KeyedFrom, Normalized, Migrated;
    var m, n := Migrated(s), Normalized(s);
    assert n.flat == FlatOf(Active(n));
    if FirstKeyed(m).Some? && FirstKeyed(m).value.id != "" && Active(n).Some? {
      assert Consistent(n);
    }
  }

  /** The case that is not repaired. */
  lemma UnrepairedExample(a: ModelConfig, b: ModelConfig)
    requires a.id == "" && a.key != "" && b.id != "" && b.key != ""
    ensures var s := DEFAULTS.(configs := [a, b]);
            !Consistent(Normalized(s)) && Normalized(s).flat == NO_FLAT && Normalized(s).activeId == ""
  {
    var s := DEFAULTS.(configs := [a, b]);
    assert KeyedFrom(s.configs, 0) == Some(a);
    assert Normalized(s).configs[1] == b;
  }

  /** Without configs and legacy data, loading makes up no config. */
  lemma NothingResurrected(s: Settings)
    requires s.configs == [] && !HasLegacyData(s)
    ensures Normalized(s).configs == []
  {
    NormalizedKeepsConfigs(s);
  }
}
