/** Configuration flags: the process environment is read once into a cached global config,
    which can be overridden; string lookups, boolean parsing, the exclusive vision-mode
    selection and the UI-TARS version mapping are computed from it. */
module Env {
  import opened Js

  const OpenAiInitConfigJson: string := "ACABAI_OPENAI_INIT_CONFIG_JSON"
  const ModelName: string := "ACABAI_MODEL_NAME"
  const LangsmithDebug: string := "ACABAI_LANGSMITH_DEBUG"
  const DebugAiProfile: string := "ACABAI_DEBUG_AI_PROFILE"
  const DebugAiResponse: string := "ACABAI_DEBUG_AI_RESPONSE"
  const DangerouslyPrintAllConfig: string := "ACABAI_DANGEROUSLY_PRINT_ALL_CONFIG"
  const DebugMode: string := "ACABAI_DEBUG_MODE"
  const McpUsePuppeteerMode: string := "ACABAI_MCP_USE_PUPPETEER_MODE"
  const ForceDeepThink: string := "ACABAI_FORCE_DEEP_THINK"
  const OpenAiSocksProxy: string := "ACABAI_OPENAI_SOCKS_PROXY"
  const OpenAiApiKey: string := "OPENAI_API_KEY"
  const OpenAiBaseUrl: string := "OPENAI_BASE_URL"
  const OpenAiMaxTokens: string := "OPENAI_MAX_TOKENS"
  const AdbPath: string := "ACABAI_ADB_PATH"
  const Cache: string := "ACABAI_CACHE"
  const UseVlmUiTars: string := "ACABAI_USE_VLM_UI_TARS"
  const UseQwenVl: string := "ACABAI_USE_QWEN_VL"
  const UseDoubaoVision: string := "ACABAI_USE_DOUBAO_VISION"
  const UseGemini: string := "ACABAI_USE_GEMINI"
  const UseVlModel: string := "ACABAI_USE_VL_MODEL"
  const MatchByPosition: string := "MATCH_BY_POSITION"
  const ReportTagName: string := "ACABAI_REPORT_TAG_NAME"
  const UseAzureOpenAi: string := "ACABAI_USE_AZURE_OPENAI"
  const AzureOpenAiScope: string := "ACABAI_AZURE_OPENAI_SCOPE"
  const AzureOpenAiInitConfigJson: string := "ACABAI_AZURE_OPENAI_INIT_CONFIG_JSON"
  const AzureOpenAiEndpoint: string := "AZURE_OPENAI_ENDPOINT"
  const AzureOpenAiKey: string := "AZURE_OPENAI_KEY"
  const AzureOpenAiApiVersion: string := "AZURE_OPENAI_API_VERSION"
  const AzureOpenAiDeployment: string := "AZURE_OPENAI_DEPLOYMENT"
  const UseAnthropicSdk: string := "ACABAI_USE_ANTHROPIC_SDK"
  const AnthropicApiKey: string := "ANTHROPIC_API_KEY"
  const RunDir: string := "ACABAI_RUN_DIR"
  const OpenAiUseAzure: string := "OPENAI_USE_AZURE"

  /** The keys the environment snapshot carries. */
  const KnownKeys: set<string> := {
    OpenAiInitConfigJson, ModelName, DebugMode, ForceDeepThink, LangsmithDebug, DebugAiProfile,
    DebugAiResponse, DangerouslyPrintAllConfig, OpenAiApiKey, OpenAiBaseUrl, OpenAiMaxTokens,
    OpenAiUseAzure, AdbPath, Cache, MatchByPosition, ReportTagName, OpenAiSocksProxy,
    UseAzureOpenAi, AzureOpenAiScope, AzureOpenAiInitConfigJson, UseAnthropicSdk, UseVlmUiTars,
    UseQwenVl, UseDoubaoVision, UseGemini, UseVlModel, AnthropicApiKey, AzureOpenAiEndpoint,
    AzureOpenAiKey, AzureOpenAiApiVersion, AzureOpenAiDeployment, McpUsePuppeteerMode, RunDir
  }

  /** A config object: key to value (an absent key reads as undefined). */
  type Config = map<string, JsValue>

  /** allConfigFromEnv: every known key, carrying its environment value, or undefined when
      the variable is unset or empty (`|| undefined`). */
  function AllConfigFromEnv(env: map<string, string>): (c: Config)
    ensures c.Keys == KnownKeys
    ensures forall k :: k in c ==> (c[k] == Undefined <==> k !in env || env[k] == "")
    ensures forall k :: k in c && c[k] != Undefined ==> c[k] == Str(env[k])
  {
    map k | k in KnownKeys :: if k in env && env[k] != "" then Str(env[k]) else Undefined
  }

  const MatchByPositionMessage: string := "MATCH_BY_POSITION is deprecated, use ACABAI_USE_VL_MODEL instead"

  /** What calling `.trim()` on a number or boolean throws; the message text is the engine's
      and is fixed here. */
  const TrimTypeError: Thrown := ThrownError("TypeError", "trim is not a function")

  /** getAIConfig on a given config: the deprecated key throws; an undefined value reads as
      None; a string is trimmed; a value without `trim` throws a TypeError. */
  function LookupConfig(c: Config, key: string): (r: Result<Option<string>, Thrown>)
    ensures key == MatchByPosition ==> r == Err(NewError(MatchByPositionMessage))
    ensures key != MatchByPosition && (key !in c || Nullish(c[key])) ==> r == Ok(None)
    ensures key != MatchByPosition && key in c && c[key].Str? ==> r == Ok(Some(Trim(c[key].s)))
  {
    if key == MatchByPosition then Err(NewError(MatchByPositionMessage))
    else if key !in c then Ok(None)
    else match c[key]
      case Undefined => Ok(None)
      case Null => Ok(None)
      case Str(s) => Ok(Some(Trim(s)))
      case _ => Err(TrimTypeError)
  }

  /** getAIConfigInBoolean on a given config: `true` and `1` (ASCII case-insensitively) are
      true, `false` and `0` are false, any other value is true iff it is non-empty. */
  function ConfigBoolean(c: Config, key: string): (r: Result<bool, Thrown>)
    ensures LookupConfig(c, key).Err? <==> r.Err?
    ensures r.Err? ==> r.error == LookupConfig(c, key).error
    ensures LookupConfig(c, key) == Ok(None) ==> r == Ok(false)
  {
    match LookupConfig(c, key)
    case Err(e) => Err(e)
    case Ok(v) => Ok(ParseFlag(if v.Some? then v.value else ""))
  }

  /** The boolean reading of a setting's text. */
  function ParseFlag(s: string): bool {
    var l := AsciiLower(s);
    if l == "true" || l == "1" then true
    else if l == "false" || l == "0" then false
    else Trim(s) != ""
  }

  /** The flag rule for every string setting: with `t` the trimmed setting, the flag is true
      exactly when `t` is `true` or `1` (ASCII case-insensitively), or is none of `false` and
      `0` (likewise) and is not empty. */
  lemma ConfigBooleanRule(c: Config, key: string)
    requires key != MatchByPosition && key in c && c[key].Str?
    ensures var t := Trim(c[key].s);
      ConfigBoolean(c, key).Ok? &&
      (ConfigBoolean(c, key).value <==>
         AsciiLower(t) in {"true", "1"} || (AsciiLower(t) !in {"false", "0"} && t != ""))
  {
    var t := Trim(c[key].s);
    assert LookupConfig(c, key) == Ok(Some(t));
    assert ConfigBoolean(c, key) == Ok(ParseFlag(t));
    TrimIdempotent(c[key].s);
    ParseFlagTrimmed(t);
  }

  lemma ParseFlagTrimmed(t: string)
    requires Trim(t) == t
    ensures ParseFlag(t) <==> AsciiLower(t) in {"true", "1"} || (AsciiLower(t) !in {"false", "0"} && t != "")
  {
    var l := AsciiLower(t);
    assert l in {"true", "1"} <==> l == "true" || l == "1";
    assert l in {"false", "0"} <==> l == "false" || l == "0";
  }

  /** Trimming twice is trimming once. */
  lemma TrimIdempotent(s: string)
    ensures Trim(Trim(s)) == Trim(s)
  {
    var t := Trim(s);
    if |t| > 0 {
      assert TrimStart(t) == t;
      assert TrimEnd(t) == t;
    }
  }

  /** The vision modes (`false` is NoVlMode). */
  datatype VlMode = QwenVl | DoubaoVision | Gemini | VlModel | VlmUiTars | NoVlMode

  /** The names of the enabled exclusive modes, in the order the conflict message lists them. */
  function EnabledModes(doubao: bool, qwen: bool, uiTars: bool, gemini: bool): (r: seq<string>)
    ensures |r| == (if doubao then 1 else 0) + (if qwen then 1 else 0) + (if uiTars then 1 else 0) + (if gemini then 1 else 0)
    ensures (UseDoubaoVision in r <==> doubao) && (UseQwenVl in r <==> qwen) &&
            (UseVlmUiTars in r <==> uiTars) && (UseGemini in r <==> gemini)
    ensures forall i, j :: 0 <= i < j < |r| ==> ModeRank(r[i]) < ModeRank(r[j])
  {
    (if doubao then [UseDoubaoVision] else []) + (if qwen then [UseQwenVl] else []) +
    (if uiTars then [UseVlmUiTars] else []) + (if gemini then [UseGemini] else [])
  }

  /** The position of an exclusive mode's flag in the conflict message's order. */
  function ModeRank(key: string): nat {
    if key == UseDoubaoVision then 0
    else if key == UseQwenVl then 1
    else if key == UseVlmUiTars then 2
    else 3
  }

  function ConflictMessage(enabled: seq<string>): string {
    "Only one vision mode can be enabled at a time. Currently enabled modes: " + Join(enabled, ", ") +
    ". Please disable all but one mode."
  }

  /** vlLocateMode on a given config. The four exclusive flags are read first (doubao, qwen,
      ui-tars, gemini); more than one enabled throws; then the modes are tried in priority
      order, the VL-model flag being read only when none of qwen, doubao and gemini is on. */
  function VlLocateMode(c: Config): (r: Result<VlMode, Thrown>)
    ensures ConfigBoolean(c, UseDoubaoVision).Err? ==> r == Err(ConfigBoolean(c, UseDoubaoVision).error)
  {
    var d := ConfigBoolean(c, UseDoubaoVision);
    if d.Err? then Err(d.error) else
    var q := ConfigBoolean(c, UseQwenVl);
    if q.Err? then Err(q.error) else
    var u := ConfigBoolean(c, UseVlmUiTars);
    if u.Err? then Err(u.error) else
    var g := ConfigBoolean(c, UseGemini);
    if g.Err? then Err(g.error) else
    ModeFromFlags(d.value, q.value, u.value, g.value, ConfigBoolean(c, UseVlModel))
  }

  /** The mode chosen from the four exclusive flags and the VL-model flag; the latter (which
      may have thrown) matters only when it is reached. */
  function ModeFromFlags(d: bool, q: bool, u: bool, g: bool, vl: Result<bool, Thrown>): Result<VlMode, Thrown> {
    var enabled := EnabledModes(d, q, u, g);
    if |enabled| > 1 then Err(NewError(ConflictMessage(enabled)))
    else if q then Ok(QwenVl)
    else if d then Ok(DoubaoVision)
    else if g then Ok(Gemini)
    else if vl.Err? then Err(vl.error)
    else if vl.value then Ok(VlModel)
    else if u then Ok(VlmUiTars)
    else Ok(NoVlMode)
  }

  /** The flags as read from a config, when none of the five mode keys throws. */
  predicate FlagsReadable(c: Config) {
    ConfigBoolean(c, UseDoubaoVision).Ok? && ConfigBoolean(c, UseQwenVl).Ok? &&
    ConfigBoolean(c, UseVlmUiTars).Ok? && ConfigBoolean(c, UseGemini).Ok? && ConfigBoolean(c, UseVlModel).Ok?
  }

  function Count(c: Config): nat
    requires FlagsReadable(c)
  {
    |EnabledModes(ConfigBoolean(c, UseDoubaoVision).value, ConfigBoolean(c, UseQwenVl).value,
                  ConfigBoolean(c, UseVlmUiTars).value, ConfigBoolean(c, UseGemini).value)|
  }

  /** Mutual exclusion: the mode is a conflict error exactly when two or more of the four
      exclusive flags are on; the VL-model flag is never counted. */
  lemma VlLocateModeConflictIff(c: Config)
    requires FlagsReadable(c)
    ensures VlLocateMode(c).Err? <==> Count(c) > 1
  {
  }

  /** Priority among readable flags: qwen, then doubao, then gemini, then the VL model, then
      ui-tars; each mode is chosen exactly when its flag is on and no stronger one is. */
  lemma VlLocateModePriority(c: Config)
    requires FlagsReadable(c) && Count(c) <= 1
    ensures var d, q, u, g, v := ConfigBoolean(c, UseDoubaoVision).value, ConfigBoolean(c, UseQwenVl).value,
              ConfigBoolean(c, UseVlmUiTars).value, ConfigBoolean(c, UseGemini).value, ConfigBoolean(c, UseVlModel).value;
      (VlLocateMode(c) == Ok(QwenVl) <==> q) &&
      (VlLocateMode(c) == Ok(DoubaoVision) <==> d) &&
      (VlLocateMode(c) == Ok(Gemini) <==> g) &&
      (VlLocateMode(c) == Ok(VlModel) <==> v && !q && !d && !g) &&
      (VlLocateMode(c) == Ok(VlmUiTars) <==> u && !v) &&
      (VlLocateMode(c) == Ok(NoVlMode) <==> !q && !d && !g && !v && !u)
  {
  }

  /** A UI-TARS version, or `false` outside the UI-TARS mode. */
  datatype UiTarsVersion = NotUiTars | Version(name: string)

  const V1_0: string := "1.0"
  const V1_5: string := "1.5"
  const Doubao15_15B: string := "doubao-1.5-15B"
  const Doubao15_20B: string := "doubao-1.5-20B"

  /** uiTarsModelVersion on a given config. */
  function UiTarsModelVersion(c: Config): (r: Result<UiTarsVersion, Thrown>)
    ensures VlLocateMode(c).Err? ==> r == Err(VlLocateMode(c).error)
    ensures VlLocateMode(c).Ok? && VlLocateMode(c).value != VlmUiTars ==> r == Ok(NotUiTars)
  {
    match VlLocateMode(c)
    case Err(e) => Err(e)
    case Ok(mode) =>
      if mode != VlmUiTars then Ok(NotUiTars)
      else match LookupConfig(c, UseVlmUiTars)
        case Err(e) => Err(e)
        case Ok(v) =>
          if v == Some("1") then Ok(Version(V1_0))
          else if v == Some("DOUBAO") || v == Some("DOUBAO-1.5") then Ok(Version(Doubao15_20B))
          else Ok(Version(if v.Some? then v.value else "undefined"))
  }

  /** The UI-TARS mode is chosen only when its flag reads true. */
  lemma UiTarsModeFlag(c: Config)
    requires VlLocateMode(c) == Ok(VlmUiTars)
    ensures ConfigBoolean(c, UseVlmUiTars) == Ok(true)
  {
    var d, q, u, g := ConfigBoolean(c, UseDoubaoVision), ConfigBoolean(c, UseQwenVl),
                      ConfigBoolean(c, UseVlmUiTars), ConfigBoolean(c, UseGemini);
    assert d.Ok? && q.Ok? && u.Ok? && g.Ok?;
    ModeFromFlagsUiTars(d.value, q.value, u.value, g.value, ConfigBoolean(c, UseVlModel));
  }

  /** From the flags alone: the UI-TARS mode needs the UI-TARS flag. */
  lemma ModeFromFlagsUiTars(d: bool, q: bool, u: bool, g: bool, vl: Result<bool, Thrown>)
    requires ModeFromFlags(d, q, u, g, vl) == Ok(VlmUiTars)
    ensures u
  {
  }

  /** A flag reads true only from a string setting. */
  lemma TrueFlagIsString(c: Config, key: string)
    requires ConfigBoolean(c, key) == Ok(true)
    ensures key != MatchByPosition && key in c && c[key].Str?
  {
  }

  /** In the UI-TARS mode the version is "1.0" for `1`, doubao-1.5-20B for `DOUBAO` and
      `DOUBAO-1.5`, and the trimmed setting itself otherwise. */
  lemma UiTarsVersionMapping(c: Config)
    requires VlLocateMode(c) == Ok(VlmUiTars)
    ensures UseVlmUiTars in c && c[UseVlmUiTars].Str?
    ensures var t := Trim(c[UseVlmUiTars].s);
      UiTarsModelVersion(c) ==
        Ok(Version(if t == "1" then V1_0 else if t == "DOUBAO" || t == "DOUBAO-1.5" then Doubao15_20B else t))
  {
    UiTarsModeFlag(c);
    TrueFlagIsString(c, UseVlmUiTars);
    var t := Trim(c[UseVlmUiTars].s);
    assert LookupConfig(c, UseVlmUiTars) == Ok(Some(t));
    VersionOfSetting(c, t);
  }

  /** The version read in the UI-TARS mode from a trimmed setting t. */
  lemma VersionOfSetting(c: Config, t: string)
    requires VlLocateMode(c) == Ok(VlmUiTars)
    requires LookupConfig(c, UseVlmUiTars) == Ok(Some(t))
    ensures UiTarsModelVersion(c) ==
      Ok(Version(if t == "1" then V1_0 else if t == "DOUBAO" || t == "DOUBAO-1.5" then Doubao15_20B else t))
  {
  }

  /** The first entry whose value is object-typed (an object or null). */
  function FirstObjectTyped(entries: seq<(string, JsValue)>): (r: Option<nat>)
    ensures r.Some? ==> r.value < |entries| && IsObjectTyped(entries[r.value].1)
    ensures r.Some? ==> forall j :: 0 <= j < r.value ==> !IsObjectTyped(entries[j].1)
    ensures r.None? <==> forall j :: 0 <= j < |entries| ==> !IsObjectTyped(entries[j].1)
  {
    if |entries| == 0 then None
    else if IsObjectTyped(entries[0].1) then Some(0)
    else match FirstObjectTyped(entries[1..])
      case None => None
      case Some(k) => Some(k + 1)
  }

  predicate DistinctKeys(entries: seq<(string, JsValue)>) {
    forall i, j :: 0 <= i < j < |entries| ==> entries[i].0 != entries[j].0
  }

  /** The object an entry list spells (its keys are distinct, as in any object). */
  function ToConfig(entries: seq<(string, JsValue)>): (c: Config)
    ensures c.Keys == set e | e in entries :: e.0
  {
    if |entries| == 0 then map[]
    else
      var last := entries[|entries| - 1];
      var rest := ToConfig(entries[..|entries| - 1]);
      assert forall e :: e in entries <==> e in entries[..|entries| - 1] || e == last;
      rest[last.0 := last.1]
  }

  lemma {:induction false} ToConfigLookup(entries: seq<(string, JsValue)>, i: nat)
    requires DistinctKeys(entries) && i < |entries|
    ensures ToConfig(entries)[entries[i].0] == entries[i].1
  {
    if i < |entries| - 1 {
      ToConfigLookup(entries[..|entries| - 1], i);
    }
  }

  function InvalidValueMessage(key: string, v: JsValue): string {
    "Failed to override AI config, invalid value for key: " + key + ", value: " + ToStr(v)
  }

  /** Overriding in extend mode keeps every old key the new config does not name, and every
      named key takes its new value. */
  lemma ExtendMerges(old_: Config, entries: seq<(string, JsValue)>)
    requires DistinctKeys(entries)
    ensures var m := old_ + ToConfig(entries);
      (forall i :: 0 <= i < |entries| ==> m[entries[i].0] == entries[i].1) &&
      (forall k :: k in old_ && (forall i :: 0 <= i < |entries| ==> entries[i].0 != k) ==> k in m && m[k] == old_[k])
  {
    var m := old_ + ToConfig(entries);
    forall i | 0 <= i < |entries| ensures m[entries[i].0] == entries[i].1 {
      ToConfigLookup(entries, i);
    }
  }

  /** The module-level global config slot (`globalConfig`; None is null). */
  class ConfigStore {
    var global: Option<Config>

    constructor ()
      ensures global.None?
    {
      global := None;
    }

    /** getGlobalConfig: reads the environment on first access only. */
    method GetGlobalConfig(env: map<string, string>) returns (c: Config)
      modifies this
      ensures old(global).None? ==> c == AllConfigFromEnv(env)
      ensures old(global).Some? ==> c == old(global).value
      ensures global == Some(c)
    {
      if global.None? {
        global := Some(AllConfigFromEnv(env));
      }
      c := global.value;
    }

    /** getAIConfig */
    method GetAIConfig(key: string, env: map<string, string>) returns (r: Result<Option<string>, Thrown>)
      modifies this
      ensures key == MatchByPosition ==> r == Err(NewError(MatchByPositionMessage)) && global == old(global)
      ensures key != MatchByPosition ==> global.Some? && r == LookupConfig(global.value, key)
      ensures old(global).Some? ==> global == old(global)
    {
      if key == MatchByPosition {
        return Err(NewError(MatchByPositionMessage));
      }
      var c := GetGlobalConfig(env);
      r := LookupConfig(c, key);
    }

    /** overrideAIConfig: every value is checked, in order, before anything changes; an
        object-typed value throws naming its key; otherwise the config becomes the new entries
        merged over the current config (extend mode) or the new entries alone. */
    method OverrideAIConfig(entries: seq<(string, JsValue)>, extendMode: bool, env: map<string, string>)
      returns (r: Result<(), Thrown>)
      requires DistinctKeys(entries)
      modifies this
      ensures r.Err? <==> FirstObjectTyped(entries).Some?
      ensures r.Err? ==> (global == old(global) &&
                          var k := FirstObjectTyped(entries).value;
                          r.error == NewError(InvalidValueMessage(entries[k].0, entries[k].1)))
      ensures r.Ok? ==>
                var current := if old(global).Some? then old(global).value else AllConfigFromEnv(env);
                global == Some(if extendMode then current + ToConfig(entries) else ToConfig(entries))
    {
      var i := 0;
      while i < |entries|
        invariant 0 <= i <= |entries|
        invariant forall j :: 0 <= j < i ==> !IsObjectTyped(entries[j].1)
      {
        if IsObjectTyped(entries[i].1) {
          assert FirstObjectTyped(entries) == Some(i);
          return Err(NewError(InvalidValueMessage(entries[i].0, entries[i].1)));
        }
        i := i + 1;
      }
      var current := GetGlobalConfig(env);
      global := Some(if extendMode then current + ToConfig(entries) else ToConfig(entries));
      r := Ok(());
    }
  }

  /** Variables that are set to the empty string read as absent. */
  lemma EmptyEnvValueReadsAbsent(env: map<string, string>, key: string)
    requires key in KnownKeys && key != MatchByPosition && key in env && env[key] == ""
    ensures LookupConfig(AllConfigFromEnv(env), key) == Ok(None)
    ensures ConfigBoolean(AllConfigFromEnv(env), key) == Ok(false)
  {
  }

  /** An instance of ConfigBooleanRule: case and surrounding blanks do not matter, so " TRUE "
      reads as true. */
  lemma PaddedUpperTrueIsTrue()
    ensures ConfigBoolean(map[Cache := Str(" TRUE ")], Cache) == Ok(true)
  {
    assert " TRUE "[1..] == "TRUE ";
    assert IsWhitespace(" TRUE "[0]) && !IsWhitespace("TRUE "[0]);
    assert TrimStart("TRUE ") == "TRUE ";
    assert TrimStart(" TRUE ") == "TRUE ";
    assert "TRUE "[..4] == "TRUE";
    assert TrimEnd("TRUE ") == "TRUE";
    assert LookupConfig(map[Cache := Str(" TRUE ")], Cache) == Ok(Some("TRUE"));
    assert AsciiLower("E") == "e";
    assert AsciiLower("UE") == "ue";
    assert AsciiLower("RUE") == "rue";
    assert AsciiLower("TRUE") == "true";
  }

  /** An instance of ConfigBooleanRule: a word that is none of the literals reads as true. */
  lemma OtherWordIsTrue()
    ensures ConfigBoolean(map[Cache := Str("yes")], Cache) == Ok(true)
  {
    assert !IsWhitespace("yes"[0]) && !IsWhitespace("yes"[2]);
    assert TrimStart("yes") == "yes";
    assert TrimEnd("yes") == "yes";
    assert LookupConfig(map[Cache := Str("yes")], Cache) == Ok(Some("yes"));
    assert AsciiLower("s") == "s";
    assert AsciiLower("es") == "es";
    assert AsciiLower("yes") == "yes";
    assert ParseFlag("yes");
  }

  /** An instance of ConfigBooleanRule: a blank value reads as false. */
  lemma BlankIsFalse()
    ensures ConfigBoolean(map[Cache := Str("  ")], Cache) == Ok(false)
  {
    assert TrimStart("  ") == "";
    assert Trim("  ") == "";
  }
}
