/** Application settings: values read from the environment, overridden by
    the TOML file only where the environment leaves them unset, turned into
    an `AppConfig`, and checked by `validate_config`. */
module Settings {
  import opened Wrappers
  import opened Text
  import opened Models

  /** The process environment, by upper-case variable name. */
  type Env = map<string, string>

  /** `os.getenv(name)` is truthy: set and non-empty. */
  predicate EnvSet(env: Env, name: string) {
    name in env && env[name] != ""
  }

  /** Python truthiness of an optional string. */
  predicate Truthy(s: Option<string>) {
    s.Some? && s.value != ""
  }

  /** `a or b` on optional strings. */
  function OrElse(a: Option<string>, b: Option<string>): (r: Option<string>)
    ensures Truthy(a) ==> r == a
    ensures !Truthy(a) ==> r == b
  {
    if Truthy(a) then a else b
  }

  /** The values of the settings class. */
  datatype SettingsValues = SettingsValues(
    llmProvider: string,
    llmModelName: string,
    llmApiKey: Option<string>,
    llmBaseUrl: Option<string>,
    llmTemperature: real,
    openaiApiKey: Option<string>,
    ollamaBaseUrl: string,
    lmstudioBaseUrl: string,
    guidelinesPath: string,
    reportsDir: string,
    uiTheme: string)

  const DefaultOllamaBaseUrl: string := "http://localhost:11434"
  const DefaultLmstudioBaseUrl: string := "http://localhost:1234"

  /** A text setting read from the environment: the variable's value when it
      is present, even empty, and the field's default otherwise. */
  function EnvText(env: Env, name: string, default: string): (r: string)
    ensures name in env ==> r == env[name]
    ensures name !in env ==> r == default
  {
    if name in env then env[name] else default
  }

  function EnvOptional(env: Env, name: string): (r: Option<string>)
    ensures r.Some? <==> name in env
    ensures r.Some? ==> r.value == env[name]
  {
    if name in env then Some(env[name]) else None
  }

  /** `LLM_TEMPERATURE` as pydantic parses it; a value that does not parse
      fails the settings object's construction. */
  function EnvTemperature(env: Env, parseReal: string -> Option<real>): (r: Result<real, string>)
    ensures "LLM_TEMPERATURE" !in env ==> r == Ok(0.3)
    ensures "LLM_TEMPERATURE" in env ==>
      r == if parseReal(env["LLM_TEMPERATURE"]).Some? then Ok(parseReal(env["LLM_TEMPERATURE"]).value)
           else Err("validation error: llm_temperature")
  {
    if "LLM_TEMPERATURE" !in env then Ok(0.3)
    else match parseReal(env["LLM_TEMPERATURE"])
      case None => Err("validation error: llm_temperature")
      case Some(t) => Ok(t)
  }

  /** `ConfigurationManager()`: every field from its environment variable
      or its default. */
  function FromEnv(env: Env, temperature: real): SettingsValues {
    SettingsValues(
      EnvText(env, "LLM_PROVIDER", "openai"),
      EnvText(env, "LLM_MODEL_NAME", "gpt-3.5-turbo"),
      EnvOptional(env, "LLM_API_KEY"),
      EnvOptional(env, "LLM_BASE_URL"),
      temperature,
      EnvOptional(env, "OPENAI_API_KEY"),
      EnvText(env, "OLLAMA_BASE_URL", DefaultOllamaBaseUrl),
      EnvText(env, "LMSTUDIO_BASE_URL", DefaultLmstudioBaseUrl),
      EnvText(env, "GUIDELINES_PATH", "guidelines.yaml"),
      EnvText(env, "REPORTS_DIR", "reports"),
      EnvText(env, "UI_THEME", "light"))
  }

  // ---------------------------------------------------------------------
  // The TOML file

  datatype TomlValue = TomlText(text: string) | TomlNumber(number: real)

  /** A parsed TOML file: its tables by name, each a map of keys to values. */
  type TomlDoc = map<string, map<string, TomlValue>>

  /** The keys the loader reads, with the type each field needs. */
  predicate WellTyped(doc: TomlDoc) {
    && TextOrAbsent(doc, "llm", "provider")
    && TextOrAbsent(doc, "llm", "model_name")
    && TextOrAbsent(doc, "llm", "api_key")
    && TextOrAbsent(doc, "llm", "base_url")
    && ("llm" in doc && "temperature" in doc["llm"] ==> doc["llm"]["temperature"].TomlNumber?)
    && TextOrAbsent(doc, "app", "guidelines_path")
    && TextOrAbsent(doc, "app", "reports_dir")
    && TextOrAbsent(doc, "app", "ui_theme")
    && TextOrAbsent(doc, "openai", "api_key")
    && TextOrAbsent(doc, "ollama", "base_url")
    && TextOrAbsent(doc, "lmstudio", "base_url")
  }

  predicate TextOrAbsent(doc: TomlDoc, table: string, key: string) {
    table in doc && key in doc[table] ==> doc[table][key].TomlText?
  }

  /** The text at `doc[table][key]`, when the table has that key. */
  function TomlTextAt(doc: TomlDoc, table: string, key: string): (r: Option<string>)
    requires TextOrAbsent(doc, table, key)
    ensures r.Some? <==> table in doc && key in doc[table]
  {
    if table in doc && key in doc[table] then Some(doc[table][key].text) else None
  }

  function TomlNumberAt(doc: TomlDoc, table: string, key: string): (r: Option<real>)
    requires table in doc && key in doc[table] ==> doc[table][key].TomlNumber?
    ensures r.Some? <==> table in doc && key in doc[table]
  {
    if table in doc && key in doc[table] then Some(doc[table][key].number) else None
  }

  /** What opening and parsing an existing file yields: a document, a
      `TomlDecodeError`, an `IOError`, or a `UnicodeDecodeError` from reading
      bytes that are not UTF-8. The reading and the parser are not part of
      this model; their messages are. */
  datatype TomlRead =
    | Parsed(doc: TomlDoc)
    | DecodeFailed(message: string)
    | IoFailed(message: string)
    | NotUtf8(message: string)

  /** `load_config_from_toml`: a missing file is an empty configuration; a
      file that fails to read or parse raises with the path in the message,
      except that a `UnicodeDecodeError`, being neither of the two exceptions
      caught, passes through with its own message. */
  function LoadConfigFromToml(configPath: string, fileExists: bool, read: TomlRead)
    : (r: Result<TomlDoc, string>)
    ensures !fileExists ==> r == Ok(map[])
    ensures fileExists ==> (r.Ok? <==> read.Parsed?)
    ensures fileExists && read.Parsed? ==> r.value == read.doc
    ensures fileExists && (read.DecodeFailed? || read.IoFailed?) ==>
      r == Err("Failed to load configuration from " + configPath + ": " + read.message)
    ensures fileExists && read.NotUtf8? ==> r == Err(read.message)
  {
    if !fileExists then Ok(map[])
    else match read
      case Parsed(doc) => Ok(doc)
      case DecodeFailed(e) => Err("Failed to load configuration from " + configPath + ": " + e)
      case IoFailed(e) => Err("Failed to load configuration from " + configPath + ": " + e)
      case NotUtf8(e) => Err(e)
  }

  /** `load_test_api_key`: `openai.api_key_test` when present. */
  function TestApiKey(doc: TomlDoc): (r: Option<TomlValue>)
    ensures r.Some? <==> "openai" in doc && "api_key_test" in doc["openai"]
    ensures r.Some? ==> r.value == doc["openai"]["api_key_test"]
  {
    if "openai" in doc && "api_key_test" in doc["openai"] then Some(doc["openai"]["api_key_test"]) else None
  }

  /** One TOML override: the file's value replaces the current one only when
      the file has it and the environment variable is unset or empty. */
  function Override<T>(current: T, fromFile: Option<T>, env: Env, name: string): (r: T)
    ensures EnvSet(env, name) || fromFile.None? ==> r == current
    ensures !EnvSet(env, name) && fromFile.Some? ==> r == fromFile.value
  {
    if fromFile.Some? && !EnvSet(env, name) then fromFile.value else current
  }

  function SomeOf(s: Option<string>): Option<Option<string>> {
    if s.Some? then Some(Some(s.value)) else None
  }

  /** The TOML overrides of `load_app_config`, field by field. */
  function Overlay(s: SettingsValues, env: Env, doc: TomlDoc): SettingsValues
    requires WellTyped(doc)
  {
    SettingsValues(
      Override(s.llmProvider, TomlTextAt(doc, "llm", "provider"), env, "LLM_PROVIDER"),
      Override(s.llmModelName, TomlTextAt(doc, "llm", "model_name"), env, "LLM_MODEL_NAME"),
      Override(s.llmApiKey, SomeOf(TomlTextAt(doc, "llm", "api_key")), env, "LLM_API_KEY"),
      Override(s.llmBaseUrl, SomeOf(TomlTextAt(doc, "llm", "base_url")), env, "LLM_BASE_URL"),
      Override(s.llmTemperature, TomlNumberAt(doc, "llm", "temperature"), env, "LLM_TEMPERATURE"),
      Override(s.openaiApiKey, SomeOf(TomlTextAt(doc, "openai", "api_key")), env, "OPENAI_API_KEY"),
      Override(s.ollamaBaseUrl, TomlTextAt(doc, "ollama", "base_url"), env, "OLLAMA_BASE_URL"),
      Override(s.lmstudioBaseUrl, TomlTextAt(doc, "lmstudio", "base_url"), env, "LMSTUDIO_BASE_URL"),
      Override(s.guidelinesPath, TomlTextAt(doc, "app", "guidelines_path"), env, "GUIDELINES_PATH"),
      Override(s.reportsDir, TomlTextAt(doc, "app", "reports_dir"), env, "REPORTS_DIR"),
      Override(s.uiTheme, TomlTextAt(doc, "app", "ui_theme"), env, "UI_THEME"))
  }

  /** Where a text setting ends up, read off directly: a non-empty
      environment variable wins; then the file; then an empty variable; then
      the default. */
  function Resolved(env: Env, name: string, fromFile: Option<string>, default: string): string {
    if EnvSet(env, name) then env[name]
    else if fromFile.Some? then fromFile.value
    else if name in env then env[name]
    else default
  }

  /** The two stages, environment then file, give each text setting the
      value of that precedence order. */
  lemma PrecedenceOfTextSettings(env: Env, temperature: real, doc: TomlDoc)
    requires WellTyped(doc)
    ensures var s := Overlay(FromEnv(env, temperature), env, doc);
      && s.llmProvider == Resolved(env, "LLM_PROVIDER", TomlTextAt(doc, "llm", "provider"), "openai")
      && s.llmModelName == Resolved(env, "LLM_MODEL_NAME", TomlTextAt(doc, "llm", "model_name"), "gpt-3.5-turbo")
      && s.ollamaBaseUrl == Resolved(env, "OLLAMA_BASE_URL", TomlTextAt(doc, "ollama", "base_url"),
                                     DefaultOllamaBaseUrl)
      && s.lmstudioBaseUrl == Resolved(env, "LMSTUDIO_BASE_URL", TomlTextAt(doc, "lmstudio", "base_url"),
                                       DefaultLmstudioBaseUrl)
      && s.guidelinesPath == Resolved(env, "GUIDELINES_PATH", TomlTextAt(doc, "app", "guidelines_path"),
                                      "guidelines.yaml")
      && s.reportsDir == Resolved(env, "REPORTS_DIR", TomlTextAt(doc, "app", "reports_dir"), "reports")
      && s.uiTheme == Resolved(env, "UI_THEME", TomlTextAt(doc, "app", "ui_theme"), "light")
  {
    TextPrecedence(env, "LLM_PROVIDER", TomlTextAt(doc, "llm", "provider"), "openai");
    TextPrecedence(env, "LLM_MODEL_NAME", TomlTextAt(doc, "llm", "model_name"), "gpt-3.5-turbo");
    TextPrecedence(env, "OLLAMA_BASE_URL", TomlTextAt(doc, "ollama", "base_url"), DefaultOllamaBaseUrl);
    TextPrecedence(env, "LMSTUDIO_BASE_URL", TomlTextAt(doc, "lmstudio", "base_url"), DefaultLmstudioBaseUrl);
    TextPrecedence(env, "GUIDELINES_PATH", TomlTextAt(doc, "app", "guidelines_path"), "guidelines.yaml");
    TextPrecedence(env, "REPORTS_DIR", TomlTextAt(doc, "app", "reports_dir"), "reports");
    TextPrecedence(env, "UI_THEME", TomlTextAt(doc, "app", "ui_theme"), "light");
  }

  lemma TextPrecedence(env: Env, name: string, fromFile: Option<string>, default: string)
    ensures Override(EnvText(env, name, default), fromFile, env, name) == Resolved(env, name, fromFile, default)
  {
  }

  /** A non-empty environment variable always beats the file, for the
      optional settings too; without it the file's key decides. */
  lemma OptionalPrecedence(env: Env, temperature: real, doc: TomlDoc)
    requires WellTyped(doc)
    ensures var s := Overlay(FromEnv(env, temperature), env, doc);
      && (EnvSet(env, "LLM_API_KEY") ==> s.llmApiKey == Some(env["LLM_API_KEY"]))
      && (!EnvSet(env, "LLM_API_KEY") && "llm" in doc && "api_key" in doc["llm"] ==>
            s.llmApiKey == Some(doc["llm"]["api_key"].text))
      && (EnvSet(env, "OPENAI_API_KEY") ==> s.openaiApiKey == Some(env["OPENAI_API_KEY"]))
      && (!EnvSet(env, "OPENAI_API_KEY") && "openai" in doc && "api_key" in doc["openai"] ==>
            s.openaiApiKey == Some(doc["openai"]["api_key"].text))
      && (EnvSet(env, "LLM_TEMPERATURE") ==> s.llmTemperature == temperature)
      && (!EnvSet(env, "LLM_TEMPERATURE") && "llm" in doc && "temperature" in doc["llm"] ==>
            s.llmTemperature == doc["llm"]["temperature"].number)
  {
  }

  /** A missing file changes nothing. */
  lemma EmptyFileKeepsEnvironment(s: SettingsValues, env: Env)
    ensures Overlay(s, env, map[]) == s
  {
  }

  // ---------------------------------------------------------------------
  // `to_app_config`

  /** `to_app_config`: OpenAI takes the first truthy of the two API keys and
      no base URL; Ollama and LM Studio take the generic base URL or their
      own one and no key. The `LLMConfig` validation decides the rest. */
  function AppConfigOf(s: SettingsValues): (r: Result<AppConfig, string>)
    ensures r.Ok? <==> ParseProvider(s.llmProvider).Some? && 0.0 <= s.llmTemperature <= 2.0
    ensures r.Ok? ==>
      && ProviderName(r.value.llm.provider) == s.llmProvider
      && r.value.llm.modelName == s.llmModelName
      && r.value.llm.temperature == s.llmTemperature
      && r.value.guidelinesPath == s.guidelinesPath
      && r.value.reportsDir == s.reportsDir
      && r.value.uiTheme == s.uiTheme
    ensures r.Ok? && s.llmProvider == "openai" ==>
      r.value.llm.apiKey == OrElse(s.llmApiKey, s.openaiApiKey) && r.value.llm.baseUrl == None
    ensures r.Ok? && s.llmProvider == "ollama" ==>
      r.value.llm.apiKey == None
      && r.value.llm.baseUrl == Some(if Truthy(s.llmBaseUrl) then s.llmBaseUrl.value else s.ollamaBaseUrl)
    ensures r.Ok? && s.llmProvider == "lmstudio" ==>
      r.value.llm.apiKey == None
      && r.value.llm.baseUrl == Some(if Truthy(s.llmBaseUrl) then s.llmBaseUrl.value else s.lmstudioBaseUrl)
  {
    var apiKey := if s.llmProvider == "openai" then OrElse(s.llmApiKey, s.openaiApiKey) else None;
    var baseUrl := if s.llmProvider == "ollama" then OrElse(s.llmBaseUrl, Some(s.ollamaBaseUrl))
                   else if s.llmProvider == "lmstudio" then OrElse(s.llmBaseUrl, Some(s.lmstudioBaseUrl))
                   else None;
    match NewLLMConfig(s.llmProvider, s.llmModelName, apiKey, baseUrl, s.llmTemperature)
    case Err(e) => Err(e)
    case Ok(llm) => Ok(AppConfig(llm, s.guidelinesPath, s.reportsDir, s.uiTheme))
  }

  /** The settings object, whose fields `load_app_config` overrides one at a time. */
  class ConfigurationManager {
    var llmProvider: string
    var llmModelName: string
    var llmApiKey: Option<string>
    var llmBaseUrl: Option<string>
    var llmTemperature: real
    var openaiApiKey: Option<string>
    var ollamaBaseUrl: string
    var lmstudioBaseUrl: string
    var guidelinesPath: string
    var reportsDir: string
    var uiTheme: string

    function Values(): SettingsValues
      reads this
    {
      SettingsValues(llmProvider, llmModelName, llmApiKey, llmBaseUrl, llmTemperature, openaiApiKey,
                     ollamaBaseUrl, lmstudioBaseUrl, guidelinesPath, reportsDir, uiTheme)
    }

    /** Construction from the environment, with `LLM_TEMPERATURE` already parsed. */
    constructor (env: Env, temperature: real)
      ensures Values() == FromEnv(env, temperature)
    {
      llmProvider := EnvText(env, "LLM_PROVIDER", "openai");
      llmModelName := EnvText(env, "LLM_MODEL_NAME", "gpt-3.5-turbo");
      llmApiKey := EnvOptional(env, "LLM_API_KEY");
      llmBaseUrl := EnvOptional(env, "LLM_BASE_URL");
      llmTemperature := temperature;
      openaiApiKey := EnvOptional(env, "OPENAI_API_KEY");
      ollamaBaseUrl := EnvText(env, "OLLAMA_BASE_URL", DefaultOllamaBaseUrl);
      lmstudioBaseUrl := EnvText(env, "LMSTUDIO_BASE_URL", DefaultLmstudioBaseUrl);
      guidelinesPath := EnvText(env, "GUIDELINES_PATH", "guidelines.yaml");
      reportsDir := EnvText(env, "REPORTS_DIR", "reports");
      uiTheme := EnvText(env, "UI_THEME", "light");
    }

    /** The `llm` table: provider and model. */
    method ApplyLlmModel(env: Env, doc: TomlDoc)
      requires WellTyped(doc)
      modifies this
      ensures Values() == old(Values()).(
        llmProvider := Override(old(llmProvider), TomlTextAt(doc, "llm", "provider"), env, "LLM_PROVIDER"),
        llmModelName := Override(old(llmModelName), TomlTextAt(doc, "llm", "model_name"), env, "LLM_MODEL_NAME"))
    {
      if "llm" in doc {
        var llm := doc["llm"];
        if "provider" in llm && !EnvSet(env, "LLM_PROVIDER") {
          llmProvider := llm["provider"].text;
        }
        if "model_name" in llm && !EnvSet(env, "LLM_MODEL_NAME") {
          llmModelName := llm["model_name"].text;
        }
      }
    }

    /** The `llm` table: key, endpoint and temperature. */
    method ApplyLlmConnection(env: Env, doc: TomlDoc)
      requires WellTyped(doc)
      modifies this
      ensures Values() == old(Values()).(
        llmApiKey := Override(old(llmApiKey), SomeOf(TomlTextAt(doc, "llm", "api_key")), env, "LLM_API_KEY"),
        llmBaseUrl := Override(old(llmBaseUrl), SomeOf(TomlTextAt(doc, "llm", "base_url")), env, "LLM_BASE_URL"),
        llmTemperature := Override(old(llmTemperature), TomlNumberAt(doc, "llm", "temperature"), env,
                                   "LLM_TEMPERATURE"))
    {
      if "llm" in doc {
        var llm := doc["llm"];
        if "api_key" in llm && !EnvSet(env, "LLM_API_KEY") {
          llmApiKey := Some(llm["api_key"].text);
        }
        if "base_url" in llm && !EnvSet(env, "LLM_BASE_URL") {
          llmBaseUrl := Some(llm["base_url"].text);
        }
        if "temperature" in llm && !EnvSet(env, "LLM_TEMPERATURE") {
          llmTemperature := llm["temperature"].number;
        }
      }
    }

    /** The `app` table. */
    method ApplyAppTable(env: Env, doc: TomlDoc)
      requires WellTyped(doc)
      modifies this
      ensures Values() == old(Values()).(
        guidelinesPath := Override(old(guidelinesPath), TomlTextAt(doc, "app", "guidelines_path"), env,
                                   "GUIDELINES_PATH"),
        reportsDir := Override(old(reportsDir), TomlTextAt(doc, "app", "reports_dir"), env, "REPORTS_DIR"),
        uiTheme := Override(old(uiTheme), TomlTextAt(doc, "app", "ui_theme"), env, "UI_THEME"))
    {
      if "app" in doc {
        var app := doc["app"];
        if "guidelines_path" in app && !EnvSet(env, "GUIDELINES_PATH") {
          guidelinesPath := app["guidelines_path"].text;
        }
        if "reports_dir" in app && !EnvSet(env, "REPORTS_DIR") {
          reportsDir := app["reports_dir"].text;
        }
        if "ui_theme" in app && !EnvSet(env, "UI_THEME") {
          uiTheme := app["ui_theme"].text;
        }
      }
    }

    /** The provider-specific tables. */
    method ApplyProviderTables(env: Env, doc: TomlDoc)
      requires WellTyped(doc)
      modifies this
      ensures Values() == old(Values()).(
        openaiApiKey := Override(old(openaiApiKey), SomeOf(TomlTextAt(doc, "openai", "api_key")), env,
                                 "OPENAI_API_KEY"),
        ollamaBaseUrl := Override(old(ollamaBaseUrl), TomlTextAt(doc, "ollama", "base_url"), env,
                                  "OLLAMA_BASE_URL"),
        lmstudioBaseUrl := Override(old(lmstudioBaseUrl), TomlTextAt(doc, "lmstudio", "base_url"), env,
                                    "LMSTUDIO_BASE_URL"))
    {
      if "openai" in doc && "api_key" in doc["openai"] && !EnvSet(env, "OPENAI_API_KEY") {
        openaiApiKey := Some(doc["openai"]["api_key"].text);
      }
      if "ollama" in doc && "base_url" in doc["ollama"] && !EnvSet(env, "OLLAMA_BASE_URL") {
        ollamaBaseUrl := doc["ollama"]["base_url"].text;
      }
      if "lmstudio" in doc && "base_url" in doc["lmstudio"] && !EnvSet(env, "LMSTUDIO_BASE_URL") {
        lmstudioBaseUrl := doc["lmstudio"]["base_url"].text;
      }
    }

    /** Every TOML override of `load_app_config`. */
    method ApplyToml(env: Env, doc: TomlDoc)
      requires WellTyped(doc)
      modifies this
      ensures Values() == Overlay(old(Values()), env, doc)
    {
      ApplyLlmModel(env, doc);
      ApplyLlmConnection(env, doc);
      ApplyAppTable(env, doc);
      ApplyProviderTables(env, doc);
    }
  }

  /** `load_app_config`: settings from the environment, TOML overrides where
      the environment is silent, then `to_app_config`. The file's loading
      outcome and the float parser are parameters. */
  method LoadAppConfig(configPath: string, fileExists: bool, read: TomlRead, env: Env,
                       parseReal: string -> Option<real>) returns (r: Result<AppConfig, string>)
    requires read.Parsed? ==> WellTyped(read.doc)
    ensures var doc := LoadConfigFromToml(configPath, fileExists, read);
      var t := EnvTemperature(env, parseReal);
      && (doc.Err? ==> r == Err(doc.error))
      && (doc.Ok? && t.Err? ==> r == Err(t.error))
      && (doc.Ok? && t.Ok? ==> r == AppConfigOf(Overlay(FromEnv(env, t.value), env, doc.value)))
  {
    var doc := LoadConfigFromToml(configPath, fileExists, read);
    if doc.Err? {
      return Err(doc.error);
    }
    var t := EnvTemperature(env, parseReal);
    if t.Err? {
      return Err(t.error);
    }
    var manager := new ConfigurationManager(env, t.value);
    manager.ApplyToml(env, doc.value);
    r := AppConfigOf(manager.Values());
  }

  // ---------------------------------------------------------------------
  // `validate_config`

  /** The four problems `validate_config` looks for. */
  datatype ConfigProblem =
    | MissingApiKey
    | MissingBaseUrl(provider: Provider)
    | GuidelinesNotFound(path: string)
    | ReportsNotADirectory(path: string)

  const KeyRequired: string := "OpenAI API key is required when using OpenAI provider"
  const BaseUrlRequired: string := " base URL is required"
  const GuidelinesNotFoundPrefix: string := "Guidelines file not found: "
  const NotADirectoryPrefix: string := "Reports path exists but is not a directory: "

  /** The message `validate_config` reports for each problem. */
  function Message(p: ConfigProblem): string {
    match p
    case MissingApiKey => KeyRequired
    case MissingBaseUrl(provider) => Title(ProviderName(provider)) + BaseUrlRequired
    case GuidelinesNotFound(path) => GuidelinesNotFoundPrefix + path
    case ReportsNotADirectory(path) => NotADirectoryPrefix + path
  }

  function Messages(ps: seq<ConfigProblem>): (r: seq<string>)
    ensures |r| == |ps|
    ensures forall k :: 0 <= k < |ps| ==> r[k] == Message(ps[k])
  {
    if ps == [] then []
    else
      var init := Messages(ps[..|ps| - 1]);
      assert forall k :: 0 <= k < |ps| - 1 ==> init[k] == Message(ps[k]);
      init + [Message(ps[|ps| - 1])]
  }

  predicate NeedsKey(config: AppConfig) {
    config.llm.provider == OpenAI && !Truthy(config.llm.apiKey)
  }

  predicate NeedsBaseUrl(config: AppConfig) {
    config.llm.provider in {Ollama, LMStudio} && !Truthy(config.llm.baseUrl)
  }

  predicate GuidelinesMissing(config: AppConfig, pathExists: string -> bool) {
    !pathExists(config.guidelinesPath) && config.guidelinesPath != "guidelines.yaml"
  }

  predicate ReportsNotDirectory(config: AppConfig, pathExists: string -> bool, isDir: string -> bool) {
    pathExists(config.reportsDir) && !isDir(config.reportsDir)
  }

  /** The problems of a configuration, in the order `validate_config` checks
      them; the file system is the two predicates `pathExists` and `isDir`. */
  function ConfigProblems(config: AppConfig, pathExists: string -> bool, isDir: string -> bool)
    : seq<ConfigProblem>
  {
    (if NeedsKey(config) then [MissingApiKey] else [])
    + (if NeedsBaseUrl(config) then [MissingBaseUrl(config.llm.provider)] else [])
    + (if GuidelinesMissing(config, pathExists) then [GuidelinesNotFound(config.guidelinesPath)] else [])
    + (if ReportsNotDirectory(config, pathExists, isDir) then [ReportsNotADirectory(config.reportsDir)] else [])
  }

  /** A configuration passes exactly when none of the four checks fires, each
      problem is reported exactly when its check fires, and the key and
      base-URL checks never fire together. */
  lemma ConfigProblemsExactly(config: AppConfig, pathExists: string -> bool, isDir: string -> bool)
    ensures var ps := ConfigProblems(config, pathExists, isDir);
      && (ps == [] <==> !NeedsKey(config) && !NeedsBaseUrl(config) && !GuidelinesMissing(config, pathExists)
                        && !ReportsNotDirectory(config, pathExists, isDir))
      && (MissingApiKey in ps <==> NeedsKey(config))
      && (MissingBaseUrl(config.llm.provider) in ps <==> NeedsBaseUrl(config))
      && (GuidelinesNotFound(config.guidelinesPath) in ps <==> GuidelinesMissing(config, pathExists))
      && (ReportsNotADirectory(config.reportsDir) in ps <==> ReportsNotDirectory(config, pathExists, isDir))
      && |ps| <= 3
  {
  }

  /** The base-URL message title-cases the provider's literal: "Ollama"
      and "Lmstudio". */
  lemma OllamaTitle()
    ensures Title(ProviderName(Ollama)) == "Ollama"
  {
    var s := "ollama";
    assert s[1..] == "llama";
    LowerWordTitle("llama");
    assert TitleFrom(s, false) == [UpperChar('o')] + TitleFrom("llama", true);
  }

  lemma LmstudioTitle()
    ensures Title(ProviderName(LMStudio)) == "Lmstudio"
  {
    var s := "lmstudio";
    assert s[1..] == "mstudio";
    LowerWordTitle("mstudio");
    assert TitleFrom(s, false) == [UpperChar('l')] + TitleFrom("mstudio", true);
  }

  /** Inside a word of lower-case letters, title-casing changes nothing. */
  lemma {:induction false} LowerWordTitle(s: string)
    requires forall k :: 0 <= k < |s| ==> 'a' <= s[k] <= 'z'
    ensures TitleFrom(s, true) == s
  {
    if s != [] {
      LowerWordTitle(s[1..]);
    }
  }

  /** Messages of a concatenation are the concatenated messages. */
  lemma {:induction false} MessagesAppend(a: seq<ConfigProblem>, b: seq<ConfigProblem>)
    ensures Messages(a + b) == Messages(a) + Messages(b)
  {
    if b != [] {
      var b' := b[..|b| - 1];
      assert (a + b)[..|a + b| - 1] == a + b';
      MessagesAppend(a, b');
    }
  }

  function MessageIf(c: bool, p: ConfigProblem): seq<string> {
    if c then [Message(p)] else []
  }

  /** The messages of a check that fires at most once. */
  lemma MessagesOfCheck(c: bool, p: ConfigProblem)
    ensures Messages(if c then [p] else []) == MessageIf(c, p)
  {
    var e: seq<ConfigProblem> := [];
    assert [p][..0] == e;
  }

  /** The messages of the problems, check by check. */
  lemma ProblemMessages(config: AppConfig, pathExists: string -> bool, isDir: string -> bool)
    ensures Messages(ConfigProblems(config, pathExists, isDir))
         == MessageIf(NeedsKey(config), MissingApiKey)
          + MessageIf(NeedsBaseUrl(config), MissingBaseUrl(config.llm.provider))
          + MessageIf(GuidelinesMissing(config, pathExists), GuidelinesNotFound(config.guidelinesPath))
          + MessageIf(ReportsNotDirectory(config, pathExists, isDir), ReportsNotADirectory(config.reportsDir))
  {
    var a: seq<ConfigProblem> := if NeedsKey(config) then [MissingApiKey] else [];
    var b: seq<ConfigProblem> := if NeedsBaseUrl(config) then [MissingBaseUrl(config.llm.provider)] else [];
    var c: seq<ConfigProblem> :=
      if GuidelinesMissing(config, pathExists) then [GuidelinesNotFound(config.guidelinesPath)] else [];
    var d: seq<ConfigProblem> :=
      if ReportsNotDirectory(config, pathExists, isDir) then [ReportsNotADirectory(config.reportsDir)] else [];
    MessagesOfCheck(NeedsKey(config), MissingApiKey);
    MessagesOfCheck(NeedsBaseUrl(config), MissingBaseUrl(config.llm.provider));
    MessagesOfCheck(GuidelinesMissing(config, pathExists), GuidelinesNotFound(config.guidelinesPath));
    MessagesOfCheck(ReportsNotDirectory(config, pathExists, isDir), ReportsNotADirectory(config.reportsDir));
    MessagesAppend(a + b + c, d);
    MessagesAppend(a + b, c);
    MessagesAppend(a, b);
  }

  /** `validate_config`, appending to its list check by check. */
  method ValidateConfig(config: AppConfig, pathExists: string -> bool, isDir: string -> bool)
    returns (errors: seq<string>)
    ensures errors == Messages(ConfigProblems(config, pathExists, isDir))
  {
    errors := [];
    if config.llm.provider == OpenAI && !Truthy(config.llm.apiKey) {
      errors := errors + [Message(MissingApiKey)];
    }
    if config.llm.provider in {Ollama, LMStudio} && !Truthy(config.llm.baseUrl) {
      errors := errors + [Message(MissingBaseUrl(config.llm.provider))];
    }
    if !pathExists(config.guidelinesPath) && config.guidelinesPath != "guidelines.yaml" {
      errors := errors + [Message(GuidelinesNotFound(config.guidelinesPath))];
    }
    if pathExists(config.reportsDir) && !isDir(config.reportsDir) {
      errors := errors + [Message(ReportsNotADirectory(config.reportsDir))];
    }
    ProblemMessages(config, pathExists, isDir);
  }
}
