/** Configuration: per-service overrides, the shared AfterDark account and the
    global settings; the precedence rules that pick an API key and a base URL
    for a service; conversion from and to a generic string-keyed document; and
    loading from a file or from the first of the default locations.

    The environment is a map from variable names to values, the file system a
    map from the paths that exist to what the YAML parser makes of each. */
module Configuration {
  import opened Wrappers
  import opened Services

  // ---------------------------------------------------------------------------
  // Data model
  // ---------------------------------------------------------------------------

  /** Python truthiness of an optional string: present and non-empty. */
  predicate Truthy(o: Option<string>)
  {
    o.Some? && o.value != []
  }

  datatype ServiceConfig = ServiceConfig(apiKey: Option<string>, baseUrl: Option<string>)

  const EmptyService: ServiceConfig := ServiceConfig(None, None)

  datatype AfterDarkAccount = AfterDarkAccount(
    username: Option<string>,
    password: Option<string>,
    apiKey: Option<string>,
    accountId: Option<string>)

  const DefaultTimeout: int := 30

  type Environment = map<string, string>

  /** os.getenv: the value of a variable, None when it is unset. */
  function GetEnv(env: Environment, name: string): (r: Option<string>)
    ensures r.None? <==> name !in env
    ensures r.Some? ==> r.value == env[name]
  {
    if name in env then Some(env[name]) else None
  }

  datatype Config = Config(
    darkship: ServiceConfig,
    darkstorage: ServiceConfig,
    shipshack: ServiceConfig,
    models2go: ServiceConfig,
    hostscience: ServiceConfig,
    aiserve: ServiceConfig,
    afterdarkAccount: Option<AfterDarkAccount>,
    timeout: int,
    verifySsl: bool)
  {
    /** The section of service `s`, the attribute of that name. */
    function Section(s: Service): ServiceConfig
    {
      match s
      case Darkship => darkship
      case Darkstorage => darkstorage
      case Shipshack => shipshack
      case Models2Go => models2go
      case Hostscience => hostscience
      case Aiserve => aiserve
    }

    /** This configuration with the section of `s` replaced and nothing else
        changed. */
    function WithSection(s: Service, sc: ServiceConfig): (c: Config)
      ensures c.Section(s) == sc
      ensures forall t :: t != s ==> c.Section(t) == Section(t)
      ensures c.afterdarkAccount == afterdarkAccount && c.timeout == timeout && c.verifySsl == verifySsl
    {
      match s
      case Darkship => this.(darkship := sc)
      case Darkstorage => this.(darkstorage := sc)
      case Shipshack => this.(shipshack := sc)
      case Models2Go => this.(models2go := sc)
      case Hostscience => this.(hostscience := sc)
      case Aiserve => this.(aiserve := sc)
    }

    /** The shared account's key, when an account is configured. */
    function AccountApiKey(): Option<string>
    {
      if afterdarkAccount.Some? then afterdarkAccount.value.apiKey else None
    }

    /** The API key for `s`: a non-empty service key, else a non-empty account
        key, else whatever the environment holds for `<SERVICE>_API_KEY`. */
    function ResolveApiKey(s: Service, env: Environment): (r: Option<string>)
      ensures r == Section(s).apiKey || r == AccountApiKey() || r == GetEnv(env, ApiKeyVariable(s))
      ensures Truthy(Section(s).apiKey) ==> r == Section(s).apiKey
    {
      if Truthy(Section(s).apiKey) then Section(s).apiKey
      else if Truthy(AccountApiKey()) then AccountApiKey()
      else GetEnv(env, ApiKeyVariable(s))
    }

    /** The base URL for `s`: a non-empty service URL, else a non-empty
        `<SERVICE>_BASE_URL`, else `defaultUrl`. There is no account tier. */
    function ResolveBaseUrl(s: Service, defaultUrl: string, env: Environment): (r: string)
      ensures r == defaultUrl || (Truthy(Section(s).baseUrl) && r == Section(s).baseUrl.value)
              || (BaseUrlVariable(s) in env && r == env[BaseUrlVariable(s)] && r != [])
      ensures Truthy(Section(s).baseUrl) ==> r == Section(s).baseUrl.value
    {
      if Truthy(Section(s).baseUrl) then Section(s).baseUrl.value
      else if Truthy(GetEnv(env, BaseUrlVariable(s))) then env[BaseUrlVariable(s)]
      else defaultUrl
    }
  }

  const DefaultConfig: Config :=
    Config(EmptyService, EmptyService, EmptyService, EmptyService, EmptyService, EmptyService,
           None, DefaultTimeout, true)

  // ---------------------------------------------------------------------------
  // Environment variable names: the service name in upper case plus a suffix
  // ---------------------------------------------------------------------------

  /** str.upper on one character, for the ASCII range the names use. */
  function UpperChar(c: char): char
  {
    if 'a' <= c <= 'z' then (c as int - 32) as char else c
  }

  function Upper(s: string): (r: string)
    ensures |r| == |s|
    ensures forall i :: 0 <= i < |s| ==> r[i] == UpperChar(s[i])
  {
    if s == [] then [] else [UpperChar(s[0])] + Upper(s[1..])
  }

  /** The variable that holds the key of `s`: `<SERVICE>_API_KEY`. */
  function ApiKeyVariable(s: Service): string
  {
    UpperName(s) + "_API_KEY"
  }

  /** The variable that holds the base URL of `s`: `<SERVICE>_BASE_URL`. */
  function BaseUrlVariable(s: Service): string
  {
    UpperName(s) + "_BASE_URL"
  }

  /** Upper is determined pointwise. */
  lemma UpperIs(s: string, t: string)
    requires |s| == |t| && forall i :: 0 <= i < |s| ==> UpperChar(s[i]) == t[i]
    ensures Upper(s) == t
  {
  }

  /** The service names in upper case, written out. */
  function UpperName(s: Service): string
  {
    match s
    case Darkship => "DARKSHIP"
    case Darkstorage => "DARKSTORAGE"
    case Shipshack => "SHIPSHACK"
    case Models2Go => "MODELS2GO"
    case Hostscience => "HOSTSCIENCE"
    case Aiserve => "AISERVE"
  }

  /** Upper-casing a service name gives the names above. */
  lemma UpperOfName(s: Service)
    ensures Upper(Name(s)) == UpperName(s)
  {
    match s
    case Darkship => UpperIs("darkship", "DARKSHIP");
    case Darkstorage => UpperIs("darkstorage", "DARKSTORAGE");
    case Shipshack => UpperIs("shipshack", "SHIPSHACK");
    case Models2Go => UpperIs("models2go", "MODELS2GO");
    case Hostscience => UpperIs("hostscience", "HOSTSCIENCE");
    case Aiserve => UpperIs("aiserve", "AISERVE");
  }

  /** The variable names are the service name passed through str.upper, with
      the suffix. */
  lemma VariableNames(s: Service)
    ensures ApiKeyVariable(s) == Upper(Name(s)) + "_API_KEY"
    ensures BaseUrlVariable(s) == Upper(Name(s)) + "_BASE_URL"
  {
    UpperOfName(s);
  }

  /** Distinct services have distinct upper-case names. */
  lemma UpperNameInjective(s: Service, t: Service)
    ensures UpperName(s) == UpperName(t) ==> s == t
  {
    if s != t {
      assert |UpperName(s)| != |UpperName(t)| || UpperName(s)[0] != UpperName(t)[0];
    }
  }

  /** Appending the two suffixes keeps distinct names distinct and never makes
      a key variable equal to a base-URL variable. */
  lemma SuffixedNamesDistinct(a: string, b: string)
    ensures a != b ==> a + "_API_KEY" != b + "_API_KEY" && a + "_BASE_URL" != b + "_BASE_URL"
    ensures a + "_API_KEY" != b + "_BASE_URL"
  {
    if a != b {
      assert (a + "_API_KEY")[..|a|] == a && (b + "_API_KEY")[..|b|] == b;
      assert (a + "_BASE_URL")[..|a|] == a && (b + "_BASE_URL")[..|b|] == b;
    }
    if |a| + 8 == |b| + 9 {
      assert (a + "_API_KEY")[|a|] == '_';
      assert (b + "_BASE_URL")[|b| + 1] == 'B';
    }
  }

  /** Different services read different variables, and no key variable is a
      base-URL variable. */
  lemma VariablesDistinct(s: Service, t: Service)
    ensures s != t ==> ApiKeyVariable(s) != ApiKeyVariable(t) && BaseUrlVariable(s) != BaseUrlVariable(t)
    ensures ApiKeyVariable(s) != BaseUrlVariable(t)
  {
    UpperNameInjective(s, t);
    SuffixedNamesDistinct(UpperName(s), UpperName(t));
  }

  // ---------------------------------------------------------------------------
  // What the resolution order promises
  // ---------------------------------------------------------------------------

  /** The resolved key is one of the three sources, it is non-empty exactly
      when one of them is, and it is None only when the service and account
      keys are empty and the variable is unset. */
  lemma ResolvedKeySource(c: Config, s: Service, env: Environment)
    ensures var r := c.ResolveApiKey(s, env);
            r == c.Section(s).apiKey || r == c.AccountApiKey() || r == GetEnv(env, ApiKeyVariable(s))
    ensures Truthy(c.ResolveApiKey(s, env)) <==>
              Truthy(c.Section(s).apiKey) || Truthy(c.AccountApiKey()) || Truthy(GetEnv(env, ApiKeyVariable(s)))
    ensures c.ResolveApiKey(s, env).None? <==>
              !Truthy(c.Section(s).apiKey) && !Truthy(c.AccountApiKey()) && ApiKeyVariable(s) !in env
  {
  }

  /** A non-empty service key wins whatever the account and the environment
      hold. */
  lemma ServiceKeyWins(c: Config, s: Service, account: Option<AfterDarkAccount>, env: Environment)
    requires Truthy(c.Section(s).apiKey)
    ensures c.(afterdarkAccount := account).ResolveApiKey(s, env) == c.Section(s).apiKey
  {
  }

  /** Without a service key, a non-empty account key wins over the
      environment. */
  lemma AccountKeyBeatsEnvironment(c: Config, s: Service, env: Environment, v: string)
    requires !Truthy(c.Section(s).apiKey) && Truthy(c.AccountApiKey())
    ensures c.ResolveApiKey(s, env) == c.AccountApiKey()
    ensures c.ResolveApiKey(s, env[ApiKeyVariable(s) := v]) == c.ResolveApiKey(s, env)
  {
  }

  /** Without service and account keys the variable is returned as it is:
      None when unset and "" when set to "". */
  lemma EnvironmentKeyLast(c: Config, s: Service, env: Environment)
    requires !Truthy(c.Section(s).apiKey) && !Truthy(c.AccountApiKey())
    ensures ApiKeyVariable(s) !in env ==> c.ResolveApiKey(s, env) == None
    ensures ApiKeyVariable(s) in env ==> c.ResolveApiKey(s, env) == Some(env[ApiKeyVariable(s)])
  {
  }

  /** The resolved base URL is one of the three sources; a non-empty service
      URL wins over the variable, which wins over the default only when
      non-empty. */
  lemma ResolvedBaseUrlSource(c: Config, s: Service, defaultUrl: string, env: Environment)
    ensures var r := c.ResolveBaseUrl(s, defaultUrl, env);
            (Truthy(c.Section(s).baseUrl) && r == c.Section(s).baseUrl.value)
            || (BaseUrlVariable(s) in env && r == env[BaseUrlVariable(s)] != [])
            || r == defaultUrl
    ensures Truthy(c.Section(s).baseUrl) ==> c.ResolveBaseUrl(s, defaultUrl, env) == c.Section(s).baseUrl.value
    ensures !Truthy(c.Section(s).baseUrl) && Truthy(GetEnv(env, BaseUrlVariable(s))) ==>
              c.ResolveBaseUrl(s, defaultUrl, env) == env[BaseUrlVariable(s)]
    ensures !Truthy(c.Section(s).baseUrl) && !Truthy(GetEnv(env, BaseUrlVariable(s))) ==>
              c.ResolveBaseUrl(s, defaultUrl, env) == defaultUrl
    ensures c.ResolveBaseUrl(s, defaultUrl, env) == [] ==> defaultUrl == []
  {
  }

  /** The base URL has no account tier: the account never changes it. */
  lemma BaseUrlIgnoresAccount(c: Config, s: Service, account: Option<AfterDarkAccount>, defaultUrl: string, env: Environment)
    ensures c.(afterdarkAccount := account).ResolveBaseUrl(s, defaultUrl, env) == c.ResolveBaseUrl(s, defaultUrl, env)
  {
  }

  /** An empty base-URL variable counts as unset. */
  lemma EmptyBaseUrlVariableIgnored(c: Config, s: Service, defaultUrl: string, env: Environment)
    ensures c.ResolveBaseUrl(s, defaultUrl, env[BaseUrlVariable(s) := ""])
            == c.ResolveBaseUrl(s, defaultUrl, env - {BaseUrlVariable(s)})
  {
  }

  /** Key and URL resolve independently: a section's URL never changes its key,
      its key never changes its URL, and the key variable never changes the
      URL nor the URL variable the key. */
  lemma KeyAndUrlIndependent(c: Config, s: Service, defaultUrl: string, env: Environment, v: string, key: Option<string>, url: Option<string>)
    ensures c.WithSection(s, c.Section(s).(baseUrl := url)).ResolveApiKey(s, env) == c.ResolveApiKey(s, env)
    ensures c.WithSection(s, c.Section(s).(apiKey := key)).ResolveBaseUrl(s, defaultUrl, env)
            == c.ResolveBaseUrl(s, defaultUrl, env)
    ensures c.ResolveApiKey(s, env[BaseUrlVariable(s) := v]) == c.ResolveApiKey(s, env)
    ensures c.ResolveBaseUrl(s, defaultUrl, env[ApiKeyVariable(s) := v]) == c.ResolveBaseUrl(s, defaultUrl, env)
  {
    VariablesDistinct(s, s);
  }

  /** Another service's section never changes what `s` resolves to. */
  lemma OtherSectionsIgnored(c: Config, s: Service, t: Service, sc: ServiceConfig, defaultUrl: string, env: Environment)
    requires s != t
    ensures c.WithSection(t, sc).ResolveApiKey(s, env) == c.ResolveApiKey(s, env)
    ensures c.WithSection(t, sc).ResolveBaseUrl(s, defaultUrl, env) == c.ResolveBaseUrl(s, defaultUrl, env)
  {
  }

  /** Only the two variables of `s` matter to what `s` resolves to. */
  lemma UnrelatedVariableIgnored(c: Config, s: Service, defaultUrl: string, env: Environment, name: string, v: string)
    requires name != ApiKeyVariable(s) && name != BaseUrlVariable(s)
    ensures c.ResolveApiKey(s, env[name := v]) == c.ResolveApiKey(s, env)
    ensures c.ResolveBaseUrl(s, defaultUrl, env[name := v]) == c.ResolveBaseUrl(s, defaultUrl, env)
  {
  }

  /** Another service's variables never change what `s` resolves to. */
  lemma OtherVariablesIgnored(c: Config, s: Service, t: Service, defaultUrl: string, env: Environment, v: string)
    requires s != t
    ensures c.ResolveApiKey(s, env[ApiKeyVariable(t) := v]) == c.ResolveApiKey(s, env)
    ensures c.ResolveBaseUrl(s, defaultUrl, env[ApiKeyVariable(t) := v]) == c.ResolveBaseUrl(s, defaultUrl, env)
    ensures c.ResolveApiKey(s, env[BaseUrlVariable(t) := v]) == c.ResolveApiKey(s, env)
    ensures c.ResolveBaseUrl(s, defaultUrl, env[BaseUrlVariable(t) := v]) == c.ResolveBaseUrl(s, defaultUrl, env)
  {
    VariablesDistinct(s, t);
    VariablesDistinct(t, s);
    UnrelatedVariableIgnored(c, s, defaultUrl, env, ApiKeyVariable(t), v);
    UnrelatedVariableIgnored(c, s, defaultUrl, env, BaseUrlVariable(t), v);
  }

  // ---------------------------------------------------------------------------
  // The generic document: what the YAML parser returns
  // ---------------------------------------------------------------------------

  datatype Value =
    | Null
    | Bool(b: bool)
    | Int(i: int)
    | Str(s: string)
    | Mapping(entries: map<string, Value>)

  /** Python truthiness of a parsed document. */
  predicate TruthyValue(v: Value)
  {
    match v
    case Null => false
    case Bool(b) => b
    case Int(i) => i != 0
    case Str(t) => t != []
    case Mapping(m) => m != map[]
  }

  /** The ways loading a configuration fails. */
  datatype ConfigError =
    | FileNotFound(path: string)   // the named file does not exist
    | EmptyFile(path: string)      // the file parses to an empty document
    | Malformed(location: string)  // the file does not parse, or a part has the wrong shape

  const AccountKey: string := "afterdark_account"
  const SettingsKey: string := "settings"

  /** The top-level keys from_dict reads; every other key is ignored. */
  predicate KnownKey(k: string)
  {
    k == AccountKey || k == SettingsKey || exists s :: Name(s) == k
  }

  /** dict.get(field) on a section, read as an optional string. */
  function GetString(section: map<string, Value>, field: string, where: string): (r: Result<Option<string>, ConfigError>)
    ensures r.Err? ==> r.error.Malformed?
  {
    if field !in section then Ok(None)
    else match section[field]
      case Null => Ok(None)
      case Str(v) => Ok(Some(v))
      case _ => Err(Malformed(where + "." + field))
  }

  /** A service section: its `api_key` and `base_url`, absent ones None. */
  function DecodeService(v: Value, where: string): (r: Result<ServiceConfig, ConfigError>)
    ensures r.Err? ==> r.error.Malformed?
  {
    if !v.Mapping? then Err(Malformed(where))
    else
      var apiKey :- GetString(v.entries, "api_key", where);
      var baseUrl :- GetString(v.entries, "base_url", where);
      Ok(ServiceConfig(apiKey, baseUrl))
  }

  /** The section the document gives service `s`: empty when absent. */
  function DecodeSection(data: map<string, Value>, s: Service): (r: Result<ServiceConfig, ConfigError>)
    ensures r.Err? ==> r.error.Malformed?
  {
    if Name(s) in data then DecodeService(data[Name(s)], Name(s)) else Ok(EmptyService)
  }

  /** The shared account: None when the document has none. */
  function DecodeAccount(data: map<string, Value>): (r: Result<Option<AfterDarkAccount>, ConfigError>)
    ensures r.Err? ==> r.error.Malformed?
  {
    if AccountKey !in data then Ok(None)
    else
      var v := data[AccountKey];
      if !v.Mapping? then Err(Malformed(AccountKey))
      else
        var username :- GetString(v.entries, "username", AccountKey);
        var password :- GetString(v.entries, "password", AccountKey);
        var apiKey :- GetString(v.entries, "api_key", AccountKey);
        var accountId :- GetString(v.entries, "account_id", AccountKey);
        Ok(Some(AfterDarkAccount(username, password, apiKey, accountId)))
  }

  /** Timeout and TLS verification: the defaults unless `settings` gives them. */
  function DecodeSettings(data: map<string, Value>): (r: Result<(int, bool), ConfigError>)
    ensures r.Err? ==> r.error.Malformed?
  {
    if SettingsKey !in data then Ok((DefaultTimeout, true))
    else
      var v := data[SettingsKey];
      if !v.Mapping? then Err(Malformed(SettingsKey))
      else
        var timeout :-
          if "timeout" !in v.entries then Ok(DefaultTimeout)
          else if v.entries["timeout"].Int? then Ok(v.entries["timeout"].i)
          else Err(Malformed(SettingsKey + ".timeout"));
        var verifySsl :-
          if "verify_ssl" !in v.entries then Ok(true)
          else if v.entries["verify_ssl"].Bool? then Ok(v.entries["verify_ssl"].b)
          else Err(Malformed(SettingsKey + ".verify_ssl"));
        Ok((timeout, verifySsl))
  }

  /** The configuration a document describes: services in the library's order,
      then the account, then the settings; the first malformed part decides the
      error. */
  function DecodeConfig(data: map<string, Value>): (r: Result<Config, ConfigError>)
    ensures r.Err? ==> r.error.Malformed?
  {
    var darkship :- DecodeSection(data, Darkship);
    var darkstorage :- DecodeSection(data, Darkstorage);
    var shipshack :- DecodeSection(data, Shipshack);
    var models2go :- DecodeSection(data, Models2Go);
    var hostscience :- DecodeSection(data, Hostscience);
    var aiserve :- DecodeSection(data, Aiserve);
    var account :- DecodeAccount(data);
    var settings :- DecodeSettings(data);
    Ok(Config(darkship, darkstorage, shipshack, models2go, hostscience, aiserve,
              account, settings.0, settings.1))
  }

  /** When every part decodes, the configuration holds exactly the decoded
      parts. */
  lemma {:induction false} DecodeConfigParts(data: map<string, Value>)
    ensures DecodeConfig(data).Ok? <==>
              (forall s :: DecodeSection(data, s).Ok?) && DecodeAccount(data).Ok? && DecodeSettings(data).Ok?
    ensures DecodeConfig(data).Ok? ==>
              && (forall s :: DecodeConfig(data).value.Section(s) == DecodeSection(data, s).value)
              && DecodeConfig(data).value.afterdarkAccount == DecodeAccount(data).value
              && DecodeConfig(data).value.timeout == DecodeSettings(data).value.0
              && DecodeConfig(data).value.verifySsl == DecodeSettings(data).value.1
    ensures (forall s :: DecodeSection(data, s).Ok?) && DecodeAccount(data).Err? ==>
              DecodeConfig(data) == Err(DecodeAccount(data).error)
    ensures (forall s :: DecodeSection(data, s).Ok?) && DecodeAccount(data).Ok? && DecodeSettings(data).Err? ==>
              DecodeConfig(data) == Err(DecodeSettings(data).error)
  {
    if forall s :: DecodeSection(data, s).Ok? {
    } else {
      var s :| DecodeSection(data, s).Err?;
      match s
      case Darkship =>
      case Darkstorage =>
      case Shipshack =>
      case Models2Go =>
      case Hostscience =>
      case Aiserve =>
    }
  }

  /** The first service section that does not decode decides the error. */
  lemma FirstMalformedSection(data: map<string, Value>, i: nat)
    requires i < |AllServices|
    requires forall j :: 0 <= j < i ==> DecodeSection(data, AllServices[j]).Ok?
    requires DecodeSection(data, AllServices[i]).Err?
    ensures DecodeConfig(data) == Err(DecodeSection(data, AllServices[i]).error)
  {
    if i == 0 {
    } else if i == 1 {
      assert DecodeSection(data, AllServices[0]).Ok?;
    } else if i == 2 {
      assert DecodeSection(data, AllServices[0]).Ok? && DecodeSection(data, AllServices[1]).Ok?;
    } else if i == 3 {
      assert DecodeSection(data, AllServices[0]).Ok? && DecodeSection(data, AllServices[1]).Ok?;
      assert DecodeSection(data, AllServices[2]).Ok?;
    } else if i == 4 {
      assert DecodeSection(data, AllServices[0]).Ok? && DecodeSection(data, AllServices[1]).Ok?;
      assert DecodeSection(data, AllServices[2]).Ok? && DecodeSection(data, AllServices[3]).Ok?;
    } else {
      assert DecodeSection(data, AllServices[0]).Ok? && DecodeSection(data, AllServices[1]).Ok?;
      assert DecodeSection(data, AllServices[2]).Ok? && DecodeSection(data, AllServices[3]).Ok?;
      assert DecodeSection(data, AllServices[4]).Ok?;
    }
  }

  /** Config.from_dict: start from the defaults, replace the section of every
      service the document names, then the account and the settings. */
  method FromDict(data: map<string, Value>) returns (r: Result<Config, ConfigError>)
    ensures r == DecodeConfig(data)
  {
    AllServicesListsEachOnce();
    var config := DefaultConfig;
    for i := 0 to |AllServices|
      invariant forall j :: 0 <= j < i ==> DecodeSection(data, AllServices[j]).Ok?
      invariant forall j :: 0 <= j < i ==> config.Section(AllServices[j]) == DecodeSection(data, AllServices[j]).value
      invariant forall j :: i <= j < |AllServices| ==> config.Section(AllServices[j]) == EmptyService
      invariant config.afterdarkAccount.None? && config.timeout == DefaultTimeout && config.verifySsl
    {
      var s := AllServices[i];
      if Name(s) in data {
        var section := DecodeService(data[Name(s)], Name(s));
        if section.Err? {
          FirstMalformedSection(data, i);
          return Err(section.error);
        }
        config := config.WithSection(s, section.value);
      }
    }
    assert forall s :: DecodeSection(data, s).Ok? && config.Section(s) == DecodeSection(data, s).value by {
      forall s ensures DecodeSection(data, s).Ok? && config.Section(s) == DecodeSection(data, s).value {
        AllServicesListsEachOnce();
        assert s in AllServices;
        var j :| 0 <= j < |AllServices| && AllServices[j] == s;
      }
    }
    DecodeConfigParts(data);
    var account := DecodeAccount(data);
    if account.Err? {
      return Err(account.error);
    }
    config := config.(afterdarkAccount := account.value);
    var settings := DecodeSettings(data);
    if settings.Err? {
      return Err(settings.error);
    }
    config := config.(timeout := settings.value.0, verifySsl := settings.value.1);
    ConfigEquality(config, DecodeConfig(data).value);
    r := Ok(config);
  }

  /** Two configurations with the same sections, account and settings are equal. */
  lemma ConfigEquality(a: Config, b: Config)
    requires forall s :: a.Section(s) == b.Section(s)
    requires a.afterdarkAccount == b.afterdarkAccount && a.timeout == b.timeout && a.verifySsl == b.verifySsl
    ensures a == b
  {
    assert a.Section(Darkship) == b.Section(Darkship) && a.Section(Darkstorage) == b.Section(Darkstorage);
    assert a.Section(Shipshack) == b.Section(Shipshack) && a.Section(Models2Go) == b.Section(Models2Go);
    assert a.Section(Hostscience) == b.Section(Hostscience) && a.Section(Aiserve) == b.Section(Aiserve);
  }

  /** What from_dict promises: absent sections stay empty, an absent account
      stays None, and the timeout and TLS flag keep their defaults unless
      `settings` gives them; an empty document gives the default configuration. */
  lemma FromDictDefaults(data: map<string, Value>)
    requires DecodeConfig(data).Ok?
    ensures forall s :: Name(s) !in data ==> DecodeConfig(data).value.Section(s) == EmptyService
    ensures AccountKey !in data ==> DecodeConfig(data).value.afterdarkAccount.None?
    ensures SettingsKey !in data || "timeout" !in data[SettingsKey].entries ==>
              DecodeConfig(data).value.timeout == DefaultTimeout
    ensures SettingsKey !in data || "verify_ssl" !in data[SettingsKey].entries ==>
              DecodeConfig(data).value.verifySsl
    ensures data == map[] ==> DecodeConfig(data) == Ok(DefaultConfig)
  {
    DecodeConfigParts(data);
    if data == map[] {
      ConfigEquality(DecodeConfig(data).value, DefaultConfig);
    }
  }

  /** A service name is neither the account key nor the settings key. */
  lemma NameNotReserved(s: Service)
    ensures Name(s) != AccountKey && Name(s) != SettingsKey
  {
  }

  /** from_dict ignores top-level keys it does not know. */
  lemma UnknownKeyIgnored(data: map<string, Value>, k: string, v: Value)
    requires !KnownKey(k)
    ensures DecodeConfig(data[k := v]) == DecodeConfig(data)
  {
    var d := data[k := v];
    assert DecodeSection(d, Darkship) == DecodeSection(data, Darkship);
    assert DecodeSection(d, Darkstorage) == DecodeSection(data, Darkstorage);
    assert DecodeSection(d, Shipshack) == DecodeSection(data, Shipshack);
    assert DecodeSection(d, Models2Go) == DecodeSection(data, Models2Go);
    assert DecodeSection(d, Hostscience) == DecodeSection(data, Hostscience);
    assert DecodeSection(d, Aiserve) == DecodeSection(data, Aiserve);
    assert DecodeAccount(d) == DecodeAccount(data);
    assert DecodeSettings(d) == DecodeSettings(data);
  }

  // ---------------------------------------------------------------------------
  // to_dict
  // ---------------------------------------------------------------------------

  /** Whether to_dict writes a section for a service: when its key or its URL
      is non-empty. */
  predicate Emitted(sc: ServiceConfig)
  {
    Truthy(sc.apiKey) || Truthy(sc.baseUrl)
  }

  /** Writes an optional string field into a section, only when it is
      non-empty. */
  function WithField(m: map<string, Value>, field: string, o: Option<string>): (r: map<string, Value>)
    ensures r.Keys == if Truthy(o) then m.Keys + {field} else m.Keys
    ensures Truthy(o) ==> r[field] == Str(o.value)
    ensures forall k :: k in m && k != field ==> r[k] == m[k]
  {
    if Truthy(o) then m[field := Str(o.value)] else m
  }

  /** The document form of a service section. */
  function EncodeService(sc: ServiceConfig): map<string, Value>
  {
    WithField(WithField(map[], "api_key", sc.apiKey), "base_url", sc.baseUrl)
  }

  /** The document form of the account: its non-empty fields. */
  function EncodeAccount(a: AfterDarkAccount): map<string, Value>
  {
    var m := WithField(map[], "username", a.username);
    var m := WithField(m, "password", a.password);
    var m := WithField(m, "api_key", a.apiKey);
    WithField(m, "account_id", a.accountId)
  }

  function EncodeSettings(timeout: int, verifySsl: bool): Value
  {
    Mapping(map["timeout" := Int(timeout), "verify_ssl" := Bool(verifySsl)])
  }

  /** The entries to_dict writes for the services `ss`, in order: one for each
      emitted service. */
  function ServiceEntries(c: Config, ss: seq<Service>): map<string, Value>
  {
    if ss == [] then map[]
    else
      var prev := ServiceEntries(c, ss[..|ss| - 1]);
      var s := ss[|ss| - 1];
      if Emitted(c.Section(s)) then prev[Name(s) := Mapping(EncodeService(c.Section(s)))] else prev
  }

  /** The document to_dict produces. */
  function EncodeConfig(c: Config): map<string, Value>
  {
    var m := ServiceEntries(c, AllServices);
    var m := if c.afterdarkAccount.Some? then m[AccountKey := Mapping(EncodeAccount(c.afterdarkAccount.value))] else m;
    m[SettingsKey := EncodeSettings(c.timeout, c.verifySsl)]
  }

  /** The entries for `ss` hold exactly the emitted services of `ss`, under
      their names. */
  lemma {:induction false} ServiceEntriesAt(c: Config, ss: seq<Service>, s: Service)
    ensures Name(s) in ServiceEntries(c, ss) <==> s in ss && Emitted(c.Section(s))
    ensures Name(s) in ServiceEntries(c, ss) ==> ServiceEntries(c, ss)[Name(s)] == Mapping(EncodeService(c.Section(s)))
  {
    if ss != [] {
      var last := ss[|ss| - 1];
      ServiceEntriesAt(c, ss[..|ss| - 1], s);
      NameInjective(s, last);
      assert ss == ss[..|ss| - 1] + [last];
    }
  }

  /** Every key of the entries for `ss` is the name of a service. */
  lemma {:induction false} ServiceEntriesKeys(c: Config, ss: seq<Service>)
    ensures forall k :: k in ServiceEntries(c, ss) ==> exists s :: Name(s) == k
  {
    if ss != [] {
      ServiceEntriesKeys(c, ss[..|ss| - 1]);
    }
  }

  /** Config.to_dict: a section for every service with a non-empty key or URL,
      holding only its non-empty fields; the account when there is one; and
      always the settings. */
  method ToDict(c: Config) returns (result: map<string, Value>)
    ensures result == EncodeConfig(c)
  {
    result := map[];
    for i := 0 to |AllServices|
      invariant result == ServiceEntries(c, AllServices[..i])
    {
      var s := AllServices[i];
      var sc := c.Section(s);
      assert AllServices[..i + 1][..i] == AllServices[..i];
      if Truthy(sc.apiKey) || Truthy(sc.baseUrl) {
        var entry: map<string, Value> := map[];
        if Truthy(sc.apiKey) {
          entry := entry["api_key" := Str(sc.apiKey.value)];
        }
        if Truthy(sc.baseUrl) {
          entry := entry["base_url" := Str(sc.baseUrl.value)];
        }
        result := result[Name(s) := Mapping(entry)];
      }
    }
    assert AllServices[..|AllServices|] == AllServices;
    if c.afterdarkAccount.Some? {
      var a := c.afterdarkAccount.value;
      var entry: map<string, Value> := map[];
      if Truthy(a.username) {
        entry := entry["username" := Str(a.username.value)];
      }
      if Truthy(a.password) {
        entry := entry["password" := Str(a.password.value)];
      }
      if Truthy(a.apiKey) {
        entry := entry["api_key" := Str(a.apiKey.value)];
      }
      if Truthy(a.accountId) {
        entry := entry["account_id" := Str(a.accountId.value)];
      }
      result := result[AccountKey := Mapping(entry)];
    }
    result := result[SettingsKey := EncodeSettings(c.timeout, c.verifySsl)];
  }

  /** The keys of the service entries are service names, never the account or
      settings key. */
  lemma ServiceEntriesNotReserved(c: Config)
    ensures AccountKey !in ServiceEntries(c, AllServices) && SettingsKey !in ServiceEntries(c, AllServices)
  {
    ServiceEntriesKeys(c, AllServices);
    if AccountKey in ServiceEntries(c, AllServices) {
      var s :| Name(s) == AccountKey;
      NameNotReserved(s);
    }
    if SettingsKey in ServiceEntries(c, AllServices) {
      var s :| Name(s) == SettingsKey;
      NameNotReserved(s);
    }
  }

  /** What to_dict promises about a service: it appears exactly when its key or
      URL is non-empty, holding its section. */
  lemma EncodedService(c: Config, s: Service)
    ensures Name(s) in EncodeConfig(c) <==> Emitted(c.Section(s))
    ensures Name(s) in EncodeConfig(c) ==> EncodeConfig(c)[Name(s)] == Mapping(EncodeService(c.Section(s)))
  {
    AllServicesListsEachOnce();
    ServiceEntriesAt(c, AllServices, s);
    NameNotReserved(s);
  }

  /** What to_dict promises about the rest: the settings are always there; the
      account appears exactly when there is one; nothing but known keys is
      written. */
  lemma EncodeConfigShape(c: Config)
    ensures SettingsKey in EncodeConfig(c) && EncodeConfig(c)[SettingsKey] == EncodeSettings(c.timeout, c.verifySsl)
    ensures AccountKey in EncodeConfig(c) <==> c.afterdarkAccount.Some?
    ensures c.afterdarkAccount.Some? ==> EncodeConfig(c)[AccountKey] == Mapping(EncodeAccount(c.afterdarkAccount.value))
    ensures forall k :: k in EncodeConfig(c) ==> KnownKey(k)
  {
    ServiceEntriesNotReserved(c);
    ServiceEntriesKeys(c, AllServices);
  }

  // ---------------------------------------------------------------------------
  // Round trip
  // ---------------------------------------------------------------------------

  predicate NoneOrNonEmpty(o: Option<string>)
  {
    o.None? || o.value != []
  }

  /** Every optional string of the configuration is None or non-empty. */
  predicate NoEmptyStrings(c: Config)
  {
    && (forall s :: NoneOrNonEmpty(c.Section(s).apiKey) && NoneOrNonEmpty(c.Section(s).baseUrl))
    && (c.afterdarkAccount.Some? ==>
          var a := c.afterdarkAccount.value;
          NoneOrNonEmpty(a.username) && NoneOrNonEmpty(a.password)
          && NoneOrNonEmpty(a.apiKey) && NoneOrNonEmpty(a.accountId))
  }

  /** A section written by to_dict reads back as the section it came from. */
  lemma ServiceRoundTrip(sc: ServiceConfig, where: string)
    requires NoneOrNonEmpty(sc.apiKey) && NoneOrNonEmpty(sc.baseUrl)
    ensures DecodeService(Mapping(EncodeService(sc)), where) == Ok(sc)
  {
  }

  /** The account written by to_dict reads back as the account it came from. */
  lemma AccountRoundTrip(a: AfterDarkAccount)
    requires NoneOrNonEmpty(a.username) && NoneOrNonEmpty(a.password)
    requires NoneOrNonEmpty(a.apiKey) && NoneOrNonEmpty(a.accountId)
    ensures DecodeAccount(map[AccountKey := Mapping(EncodeAccount(a))]) == Ok(Some(a))
  {
  }

  /** from_dict(to_dict(c)) == c whenever c holds no empty string. */
  lemma {:induction false} RoundTrip(c: Config)
    requires NoEmptyStrings(c)
    ensures DecodeConfig(EncodeConfig(c)) == Ok(c)
  {
    var d := EncodeConfig(c);
    EncodeConfigShape(c);
    forall s ensures DecodeSection(d, s) == Ok(c.Section(s)) {
      EncodedService(c, s);
      if Emitted(c.Section(s)) {
        ServiceRoundTrip(c.Section(s), Name(s));
      }
    }
    if c.afterdarkAccount.Some? {
      AccountRoundTrip(c.afterdarkAccount.value);
      assert DecodeAccount(d) == DecodeAccount(map[AccountKey := d[AccountKey]]);
    }
    assert DecodeAccount(d) == Ok(c.afterdarkAccount);
    assert DecodeSettings(d) == Ok((c.timeout, c.verifySsl));
    DecodeConfigParts(d);
    ConfigEquality(DecodeConfig(d).value, c);
  }

  /** The round trip needs the condition: an empty key is written as nothing
      and read back as None. */
  lemma RoundTripLosesEmptyKey()
    ensures var c := DefaultConfig.WithSection(Darkship, ServiceConfig(Some(""), None));
            DecodeConfig(EncodeConfig(c)) != Ok(c)
  {
    var c := DefaultConfig.WithSection(Darkship, ServiceConfig(Some(""), None));
    EncodedService(c, Darkship);
    assert DecodeSection(EncodeConfig(c), Darkship) == Ok(EmptyService);
    DecodeConfigParts(EncodeConfig(c));
  }

  // ---------------------------------------------------------------------------
  // A mixed configuration
  // ---------------------------------------------------------------------------

  /** A document with an account key, a darkship key and a darkstorage URL. */
  const MixedDocument: map<string, Value> :=
    map[AccountKey := Mapping(map["api_key" := Str("master-key")]),
        "darkship" := Mapping(map["api_key" := Str("darkship-specific-key")]),
        "darkstorage" := Mapping(map["base_url" := Str("https://custom.darkstorage.io")])]

  /** The configuration the mixed document describes. */
  const MixedConfig: Config :=
    DefaultConfig.(darkship := ServiceConfig(Some("darkship-specific-key"), None),
                   darkstorage := ServiceConfig(None, Some("https://custom.darkstorage.io")),
                   afterdarkAccount := Some(AfterDarkAccount(None, None, Some("master-key"), None)))

  lemma MixedDocumentDecodes()
    ensures DecodeConfig(MixedDocument) == Ok(MixedConfig)
  {
    var d := MixedDocument;
    assert DecodeSection(d, Darkship) == Ok(MixedConfig.darkship);
    assert DecodeSection(d, Darkstorage) == Ok(MixedConfig.darkstorage);
    assert Name(Shipshack) !in d && Name(Models2Go) !in d && Name(Hostscience) !in d && Name(Aiserve) !in d;
    assert DecodeAccount(d) == Ok(MixedConfig.afterdarkAccount);
    assert SettingsKey !in d;
  }

  /** In the mixed configuration darkship uses its own key and every other
      service the account key, whatever the environment holds; darkstorage
      uses its custom URL and the others their defaults unless the
      environment overrides them. */
  lemma MixedConfigResolution(env: Environment)
    ensures MixedConfig.ResolveApiKey(Darkship, env) == Some("darkship-specific-key")
    ensures forall s :: s != Darkship ==> MixedConfig.ResolveApiKey(s, env) == Some("master-key")
    ensures MixedConfig.ResolveBaseUrl(Darkstorage, DefaultBaseUrl(Darkstorage), env) == "https://custom.darkstorage.io"
    ensures forall s :: s != Darkstorage && BaseUrlVariable(s) !in env ==>
              MixedConfig.ResolveBaseUrl(s, DefaultBaseUrl(s), env) == DefaultBaseUrl(s)
  {
    forall s | s != Darkship
      ensures MixedConfig.ResolveApiKey(s, env) == Some("master-key")
    {
      assert !Truthy(MixedConfig.Section(s).apiKey);
    }
    forall s | s != Darkstorage && BaseUrlVariable(s) !in env
      ensures MixedConfig.ResolveBaseUrl(s, DefaultBaseUrl(s), env) == DefaultBaseUrl(s)
    {
      assert !Truthy(MixedConfig.Section(s).baseUrl);
    }
  }

  // ---------------------------------------------------------------------------
  // Loading files
  // ---------------------------------------------------------------------------

  /** What the YAML parser makes of a file: a document, or a parse error. */
  datatype Parsed = Document(doc: Value) | Unparsable

  /** The files that exist, by path, with what they parse to. */
  type FileSystem = map<string, Parsed>

  /** Config.from_file: a missing file, an unparsable file, an empty document
      and a document that is not a mapping are errors; otherwise from_dict. */
  function FromFile(fs: FileSystem, path: string): (r: Result<Config, ConfigError>)
    ensures r == Err(FileNotFound(path)) <==> path !in fs
    ensures r == Err(EmptyFile(path)) <==> path in fs && fs[path].Document? && !TruthyValue(fs[path].doc)
    ensures r.Ok? ==> && path in fs && fs[path].Document? && fs[path].doc.Mapping? && fs[path].doc.entries != map[]
                      && r == DecodeConfig(fs[path].doc.entries)
    ensures path in fs && fs[path].Document? && fs[path].doc.Mapping? && fs[path].doc.entries != map[] ==>
              r == DecodeConfig(fs[path].doc.entries)
    ensures path in fs && fs[path].Unparsable? ==> r == Err(Malformed(path))
    ensures path in fs && fs[path].Document? && TruthyValue(fs[path].doc) && !fs[path].doc.Mapping? ==>
              r == Err(Malformed(path))
  {
    if path !in fs then Err(FileNotFound(path))
    else match fs[path]
      case Unparsable => Err(Malformed(path))
      case Document(doc) =>
        if !TruthyValue(doc) then Err(EmptyFile(path))
        else if !doc.Mapping? then Err(Malformed(path))
        else DecodeConfig(doc.entries)
  }

  /** `dir / name` on paths: one separator between the two, and an empty
      directory (the current one) adds nothing. */
  function JoinPath(dir: string, name: string): (p: string)
    ensures |p| == |dir| + |name| + (if dir == [] || dir[|dir| - 1] == '/' then 0 else 1)
    ensures |p| > |dir| + |name| ==> p[|dir|] == '/'
    ensures p[..|dir|] == dir && p[|p| - |name|..] == name
  {
    if dir == [] || dir[|dir| - 1] == '/' then dir + name else dir + "/" + name
  }

  /** The places from_default_locations looks, in order: the working directory,
      then `~/.aftership`, then `~/.config/aftership`, `.yaml` before `.yml`. */
  function SearchPaths(cwd: string, home: string): (paths: seq<string>)
    ensures |paths| == 6
  {
    [JoinPath(cwd, "aftership.yaml"),
     JoinPath(cwd, "aftership.yml"),
     JoinPath(JoinPath(home, ".aftership"), "config.yaml"),
     JoinPath(JoinPath(home, ".aftership"), "config.yml"),
     JoinPath(JoinPath(JoinPath(home, ".config"), "aftership"), "config.yaml"),
     JoinPath(JoinPath(JoinPath(home, ".config"), "aftership"), "config.yml")]
  }

  /** The first of `paths` that exists. */
  function FirstExisting(paths: seq<string>, fs: FileSystem): (r: Option<string>)
    ensures r.Some? ==> r.value in paths && r.value in fs
  {
    if paths == [] then None
    else if paths[0] in fs then Some(paths[0])
    else FirstExisting(paths[1..], fs)
  }

  /** FirstExisting finds an existing path with none before it, and finds
      nothing only when no path exists. */
  lemma {:induction false} FirstExistingIsFirst(paths: seq<string>, fs: FileSystem)
    ensures FirstExisting(paths, fs).None? <==> forall i :: 0 <= i < |paths| ==> paths[i] !in fs
    ensures FirstExisting(paths, fs).Some? ==>
              exists k :: && 0 <= k < |paths| && paths[k] == FirstExisting(paths, fs).value && paths[k] in fs
                          && forall j :: 0 <= j < k ==> paths[j] !in fs
  {
    if paths != [] && paths[0] !in fs {
      FirstExistingIsFirst(paths[1..], fs);
      if FirstExisting(paths, fs).Some? {
        var k :| && 0 <= k < |paths[1..]| && paths[1..][k] == FirstExisting(paths, fs).value && paths[1..][k] in fs
                 && forall j :: 0 <= j < k ==> paths[1..][j] !in fs;
        assert paths[k + 1] == paths[1..][k];
        assert forall j :: 1 <= j < k + 1 ==> paths[j] == paths[1..][j - 1];
      } else {
        assert forall i :: 1 <= i < |paths| ==> paths[i] == paths[1..][i - 1];
      }
    } else if paths != [] {
      assert paths[0] == FirstExisting(paths, fs).value;
    }
  }

  /** Config.from_default_locations: loads the first search path that exists,
      with from_file's errors, and gives None when none exists. */
  method FromDefaultLocations(fs: FileSystem, cwd: string, home: string) returns (r: Option<Result<Config, ConfigError>>)
    ensures var found := FirstExisting(SearchPaths(cwd, home), fs);
            r == if found.None? then None else Some(FromFile(fs, found.value))
  {
    r := LoadFirstExisting(fs, SearchPaths(cwd, home));
  }

  /** The search loop of from_default_locations over any list of paths. */
  method LoadFirstExisting(fs: FileSystem, paths: seq<string>) returns (r: Option<Result<Config, ConfigError>>)
    ensures var found := FirstExisting(paths, fs);
            r == if found.None? then None else Some(FromFile(fs, found.value))
  {
    for i := 0 to |paths|
      invariant FirstExisting(paths, fs) == FirstExisting(paths[i..], fs)
    {
      assert paths[i..][1..] == paths[i + 1..];
      if paths[i] in fs {
        return Some(FromFile(fs, paths[i]));
      }
    }
    return None;
  }

  /** A configuration in the working directory wins over any in the home
      directory. */
  lemma WorkingDirectoryFirst(fs: FileSystem, cwd: string, home: string)
    requires JoinPath(cwd, "aftership.yaml") in fs || JoinPath(cwd, "aftership.yml") in fs
    ensures FirstExisting(SearchPaths(cwd, home), fs)
            == Some(if JoinPath(cwd, "aftership.yaml") in fs then JoinPath(cwd, "aftership.yaml") else JoinPath(cwd, "aftership.yml"))
  {
  }
}
