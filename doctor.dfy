/**
 * The `doctor` command: the ordered table of checks it reports (the
 * configuration file, one line per provider's credentials, whether any
 * provider is usable, and optionally a connection test per configured
 * provider), whether any check failed, and whether it exits with status 1.
 *
 * The configuration and the path the configuration manager answers are
 * `Result`s (an `Err` is a thrown error). The command reads two
 * environments: its own `env` (injectable) for the credential checks, and
 * the process environment that the provider manager reads when it lists
 * the configured providers; the provider manager also loads the
 * configuration again, so that load is a second `Result`.
 */
module Doctor {
  import opened Wrappers
  import opened Text
  import opened Config
  import opened Providers

  datatype CheckResult = CheckResult(name: string, status: bool, message: string)

  const ConfigFileName := "Configuration file"
  const AvailabilityName := "Provider availability"
  const NotConfigured := "Not configured"
  const ConfigMissing := CheckResult(ConfigFileName, false, "Not found or invalid")

  // ---------------------------------------------------------------------
  // The credential checks

  /** Check 2: the OpenAI key, from the file or `OPENAI_API_KEY`. */
  function OpenAICheck(config: Config, env: Env): (r: CheckResult)
    ensures r.name == "OpenAI API Key"
    ensures r.status <==> Truthy(config.openai.apiKey) || Truthy(env.openaiApiKey)
    ensures r.message == "Valid format" <==>
              (Truthy(config.openai.apiKey) && StartsWith(config.openai.apiKey.value, "sk-")) ||
              (!Truthy(config.openai.apiKey) && Truthy(env.openaiApiKey) && StartsWith(env.openaiApiKey.value, "sk-"))
    ensures r.status && r.message != "Valid format" ==> r.message == "Set (custom format)"
    ensures !r.status ==> r.message == NotConfigured
  {
    var key := Or(config.openai.apiKey, env.openaiApiKey);
    if Truthy(key) then
      CheckResult("OpenAI API Key", true, if StartsWith(key.value, "sk-") then "Valid format" else "Set (custom format)")
    else CheckResult("OpenAI API Key", false, NotConfigured)
  }

  /** Check 3: the Google key, from the file or `GOOGLE_API_KEY`. */
  function GoogleCheck(config: Config, env: Env): (r: CheckResult)
    ensures r.name == "Google API Key"
    ensures r.status <==> Truthy(config.google.apiKey) || Truthy(env.googleApiKey)
    ensures r.message == (if r.status then "Configured" else NotConfigured)
  {
    if Truthy(Or(config.google.apiKey, env.googleApiKey)) then CheckResult("Google API Key", true, "Configured")
    else CheckResult("Google API Key", false, NotConfigured)
  }

  /** The Azure key the doctor sees: the file's, else `AZURE_API_KEY`. */
  function AzureKey(config: Config, env: Env): Option<string> {
    Or(config.azure.apiKey, env.azureApiKey)
  }

  /** The Azure base URL the doctor sees: the file's, else `AZURE_BASE_URL`, else the legacy `AZURE_ENDPOINT`. */
  function AzureBaseUrl(config: Config, env: Env): Option<string> {
    Or(Or(config.azure.baseURL, env.azureBaseUrl), env.azureEndpoint)
  }

  /** Check 4: Azure passes with a key and a base URL, and says which one is missing otherwise. */
  function AzureCheck(config: Config, env: Env): (r: CheckResult)
    ensures r.name == "Azure OpenAI"
    ensures var hasKey := Truthy(config.azure.apiKey) || Truthy(env.azureApiKey);
            var hasBase := Truthy(config.azure.baseURL) || Truthy(env.azureBaseUrl) || Truthy(env.azureEndpoint);
            && (r.status <==> hasKey && hasBase)
            && (r.status ==> r.message == "API Key and baseURL configured")
            && (hasKey && !hasBase ==> r.message == "Missing baseURL")
            && (!hasKey && hasBase ==> r.message == "Missing API key")
            && (!hasKey && !hasBase ==> r.message == NotConfigured)
  {
    var key := AzureKey(config, env);
    var base := AzureBaseUrl(config, env);
    if Truthy(key) && Truthy(base) then CheckResult("Azure OpenAI", true, "API Key and baseURL configured")
    else if Truthy(key) || Truthy(base) then
      CheckResult("Azure OpenAI", false, if Truthy(key) then "Missing baseURL" else "Missing API key")
    else CheckResult("Azure OpenAI", false, NotConfigured)
  }

  /** Check 5: the xAI key, from the file or `XAI_API_KEY`. */
  function XaiCheck(config: Config, env: Env): (r: CheckResult)
    ensures r.name == "xAI API Key"
    ensures r.status <==> Truthy(config.xai.apiKey) || Truthy(env.xaiApiKey)
    ensures r.message == (if r.status then "Configured" else NotConfigured)
  {
    if Truthy(Or(config.xai.apiKey, env.xaiApiKey)) then CheckResult("xAI API Key", true, "Configured")
    else CheckResult("xAI API Key", false, NotConfigured)
  }

  /** `hasAnyProvider`: some provider has what the doctor considers complete credentials. */
  predicate HasAnyProvider(config: Config, env: Env) {
    Truthy(Or(config.openai.apiKey, env.openaiApiKey)) ||
    Truthy(Or(config.google.apiKey, env.googleApiKey)) ||
    (Truthy(AzureKey(config, env)) && Truthy(AzureBaseUrl(config, env))) ||
    Truthy(Or(config.xai.apiKey, env.xaiApiKey))
  }

  /** Check 6. */
  function AvailabilityCheck(config: Config, env: Env): (r: CheckResult)
    ensures r.name == AvailabilityName
    ensures r.status <==> HasAnyProvider(config, env)
    ensures r.message == if r.status then "At least one provider configured" else "No providers configured"
  {
    var any := HasAnyProvider(config, env);
    CheckResult(AvailabilityName, any, if any then "At least one provider configured" else "No providers configured")
  }

  /** Checks 2 to 6, in the order they are pushed. */
  function CredentialChecks(config: Config, env: Env): (r: seq<CheckResult>)
    ensures |r| == 5
    ensures r[0].name == "OpenAI API Key" && r[1].name == "Google API Key" && r[2].name == "Azure OpenAI" &&
            r[3].name == "xAI API Key" && r[4].name == AvailabilityName
    ensures r[4].status <==> r[0].status || r[1].status || r[2].status || r[3].status
  {
    [OpenAICheck(config, env), GoogleCheck(config, env), AzureCheck(config, env), XaiCheck(config, env),
     AvailabilityCheck(config, env)]
  }

  /** The availability line passes exactly when one of the four provider lines passes. */
  lemma AvailabilityIsAnyProviderCheck(config: Config, env: Env)
    ensures AvailabilityCheck(config, env).status <==>
            OpenAICheck(config, env).status || GoogleCheck(config, env).status ||
            AzureCheck(config, env).status || XaiCheck(config, env).status
    ensures AvailabilityCheck(config, env).message ==
            if AvailabilityCheck(config, env).status then "At least one provider configured" else "No providers configured"
  {
  }

  /**
   * The doctor counts the legacy `AZURE_ENDPOINT` as a base URL; the
   * provider manager does not, so with the same file and environment the
   * doctor can pass Azure while the manager leaves it out.
   */
  lemma AzureEndpointOnlyCountsForDoctor(config: Config, env: Env)
    ensures AzureCheck(config, env).status <==>
            AzureConfigured(config, env) ||
            (Truthy(AzureKey(config, env)) && !Truthy(Or(config.azure.baseURL, env.azureBaseUrl)) &&
             Truthy(env.azureEndpoint))
    ensures var e := Env(None, None, Some("key"), None, Some("https://example.openai.azure.com"), None);
            var c := Config(Unset, Unset, Unset, Unset);
            AzureCheck(c, e).status && !AzureConfigured(c, e)
  {
  }

  // ---------------------------------------------------------------------
  // Connection tests

  /** One connection-test line: `getProvider` then `listModels`, either of which may throw. */
  function ConnectionCheck(pm: ProviderManager, name: string, listModels: ProviderKind -> ModelListing): (r: CheckResult)
    reads pm
    ensures r.name == name + " connection"
    ensures r.status <==> pm.GetProvider(name).Ok? && listModels(pm.GetProvider(name).value).Models?
  {
    match pm.GetProvider(name)
    case Err(e) => CheckResult(name + " connection", false, e)
    case Ok(p) =>
      match listModels(p)
      case Models(m) =>
        CheckResult(name + " connection", true,
                    "Provider initialized successfully (" + NatToString(|m|) + " models available)")
      case Threw(msg) => CheckResult(name + " connection", false, msg.GetOr("Connection failed"))
  }

  function ConnectionChecks(pm: ProviderManager, names: seq<string>, listModels: ProviderKind -> ModelListing): (r: seq<CheckResult>)
    reads pm
    ensures |r| == |names|
    ensures forall k :: 0 <= k < |names| ==> r[k] == ConnectionCheck(pm, names[k], listModels)
  {
    seq(|names|, k requires 0 <= k < |names| reads pm => ConnectionCheck(pm, names[k], listModels))
  }

  // ---------------------------------------------------------------------
  // The whole table

  /**
   * The results `runDoctorWithDeps` collects. A failed configuration load,
   * or a failed path lookup, throws before the first push; a failed load
   * inside `getConfiguredProviders` throws after checks 1 to 6 were pushed.
   */
  function DoctorResults(test: bool, config: Result<Config, string>, configPath: Result<string, string>, env: Env,
                         pm: ProviderManager, providerConfig: Result<Config, string>, processEnv: Env,
                         listModels: ProviderKind -> ModelListing): (r: seq<CheckResult>)
    reads pm
    ensures |r| >= 1 && r[0].name == ConfigFileName
    ensures r[0].status <==> config.Ok? && configPath.Ok?
    ensures !r[0].status ==> |r| == 1
    ensures r[0].status && !(test && HasAnyProvider(config.value, env)) ==> |r| == 6
  {
    if config.Err? || configPath.Err? then [ConfigMissing]
    else
      var checks := [CheckResult(ConfigFileName, true, "Found at " + configPath.value)] + CredentialChecks(config.value, env);
      if test && HasAnyProvider(config.value, env) then checks + TestLines(pm, providerConfig, processEnv, listModels)
      else checks
  }

  /** The lines of the connection tests: one per configured provider, or the failed-load line. */
  function TestLines(pm: ProviderManager, providerConfig: Result<Config, string>, processEnv: Env,
                     listModels: ProviderKind -> ModelListing): (r: seq<CheckResult>)
    reads pm
    ensures providerConfig.Err? ==> r == [ConfigMissing]
    ensures providerConfig.Ok? ==>
              var configured := ConfiguredProviders(providerConfig.value, processEnv);
              |r| == |configured| && forall k :: 0 <= k < |r| ==> r[k].name == configured[k] + " connection"
  {
    if providerConfig.Err? then [ConfigMissing]
    else ConnectionChecks(pm, ConfiguredProviders(providerConfig.value, processEnv), listModels)
  }

  /** `results.find(r => r.name === name)?.status` */
  function FindStatus(results: seq<CheckResult>, name: string): (r: Option<bool>)
    ensures r.None? <==> forall k :: 0 <= k < |results| ==> results[k].name != name
    ensures r.Some? ==> exists k :: 0 <= k < |results| && results[k].name == name && results[k].status == r.value &&
                                    forall j :: 0 <= j < k ==> results[j].name != name
    decreases |results|
  {
    if results == [] then None
    else if results[0].name == name then Some(results[0].status)
    else
      var r := FindStatus(results[1..], name);
      assert forall k :: 1 <= k < |results| ==> results[k] == results[1..][k - 1];
      if r.Some? then
        var k :| 0 <= k < |results[1..]| && results[1..][k].name == name && results[1..][k].status == r.value &&
                 forall j :: 0 <= j < k ==> results[1..][j].name != name;
        assert results[k + 1] == results[1..][k];
        assert forall j :: 0 <= j < k + 1 ==> results[j].name != name by {
          forall j | 0 <= j < k + 1
            ensures results[j].name != name
          {
            if j > 0 {
              assert results[j] == results[1..][j - 1];
            }
          }
        }
        r
      else r
  }

  /** Check 2 as the command computes it: the key it looked at and the line it pushes. */
  method OpenAIEntry(c: Config, env: Env) returns (openaiKey: Option<string>, entry: CheckResult)
    ensures openaiKey == Or(c.openai.apiKey, env.openaiApiKey)
    ensures entry == OpenAICheck(c, env)
  {
    openaiKey := Or(c.openai.apiKey, env.openaiApiKey);
    if Truthy(openaiKey) {
      entry := CheckResult("OpenAI API Key", true,
                           if StartsWith(openaiKey.value, "sk-") then "Valid format" else "Set (custom format)");
    } else {
      entry := CheckResult("OpenAI API Key", false, NotConfigured);
    }
  }

  /** Check 3 as the command computes it. */
  method GoogleEntry(c: Config, env: Env) returns (googleKey: Option<string>, entry: CheckResult)
    ensures googleKey == Or(c.google.apiKey, env.googleApiKey)
    ensures entry == GoogleCheck(c, env)
  {
    googleKey := Or(c.google.apiKey, env.googleApiKey);
    if Truthy(googleKey) {
      entry := CheckResult("Google API Key", true, "Configured");
    } else {
      entry := CheckResult("Google API Key", false, NotConfigured);
    }
  }

  /** Check 4 as the command computes it: the three-way Azure rule. */
  method AzureEntry(c: Config, env: Env) returns (azureKey: Option<string>, azureBaseURL: Option<string>, entry: CheckResult)
    ensures azureKey == AzureKey(c, env) && azureBaseURL == AzureBaseUrl(c, env)
    ensures entry == AzureCheck(c, env)
  {
    azureKey := Or(c.azure.apiKey, env.azureApiKey);
    azureBaseURL := Or(Or(c.azure.baseURL, env.azureBaseUrl), env.azureEndpoint);
    if Truthy(azureKey) && Truthy(azureBaseURL) {
      entry := CheckResult("Azure OpenAI", true, "API Key and baseURL configured");
    } else if Truthy(azureKey) || Truthy(azureBaseURL) {
      entry := CheckResult("Azure OpenAI", false, if Truthy(azureKey) then "Missing baseURL" else "Missing API key");
    } else {
      entry := CheckResult("Azure OpenAI", false, NotConfigured);
    }
  }

  /** Check 5 as the command computes it. */
  method XaiEntry(c: Config, env: Env) returns (xaiKey: Option<string>, entry: CheckResult)
    ensures xaiKey == Or(c.xai.apiKey, env.xaiApiKey)
    ensures entry == XaiCheck(c, env)
  {
    xaiKey := Or(c.xai.apiKey, env.xaiApiKey);
    if Truthy(xaiKey) {
      entry := CheckResult("xAI API Key", true, "Configured");
    } else {
      entry := CheckResult("xAI API Key", false, NotConfigured);
    }
  }

  /** Checks 2 to 6 of `runDoctorWithDeps`, pushed onto `results`; also returns `hasAnyProvider`. */
  method PushCredentialChecks(results: seq<CheckResult>, c: Config, env: Env)
    returns (r: seq<CheckResult>, hasAnyProvider: bool)
    ensures r == results + CredentialChecks(c, env)
    ensures hasAnyProvider == HasAnyProvider(c, env)
  {
    var openaiKey, openaiEntry := OpenAIEntry(c, env);
    var googleKey, googleEntry := GoogleEntry(c, env);
    var azureKey, azureBaseURL, azureEntry := AzureEntry(c, env);
    var xaiKey, xaiEntry := XaiEntry(c, env);
    hasAnyProvider := Truthy(openaiKey) || Truthy(googleKey) || (Truthy(azureKey) && Truthy(azureBaseURL)) ||
                      Truthy(xaiKey);
    r := results + [openaiEntry, googleEntry, azureEntry, xaiEntry];
    r := r + [CheckResult(AvailabilityName, hasAnyProvider,
                          if hasAnyProvider then "At least one provider configured" else "No providers configured")];
  }

  /** The connection-test loop: one line per configured provider, pushed in order. */
  method PushConnectionChecks(results: seq<CheckResult>, pm: ProviderManager, configured: seq<string>,
                              listModels: ProviderKind -> ModelListing)
    returns (r: seq<CheckResult>)
    ensures r == results + ConnectionChecks(pm, configured, listModels)
  {
    r := results;
    for i := 0 to |configured|
      invariant r == results + ConnectionChecks(pm, configured[..i], listModels)
    {
      var providerName := configured[i];
      var entry: CheckResult;
      var provider := pm.GetProvider(providerName);
      if provider.Err? {
        entry := CheckResult(providerName + " connection", false, provider.error);
      } else {
        var listing := listModels(provider.value);
        if listing.Models? {
          entry := CheckResult(providerName + " connection", true,
                               "Provider initialized successfully (" + NatToString(|listing.models|) +
                               " models available)");
        } else {
          entry := CheckResult(providerName + " connection", false, listing.message.GetOr("Connection failed"));
        }
      }
      assert entry == ConnectionCheck(pm, configured[i], listModels);
      assert ConnectionChecks(pm, configured[..i + 1], listModels) ==
             ConnectionChecks(pm, configured[..i], listModels) + [entry];
      r := r + [entry];
    }
    assert configured[..|configured|] == configured;
  }

  /** The `hasErrors` loop: whether some result failed. */
  method AnyFailed(results: seq<CheckResult>) returns (hasErrors: bool)
    ensures hasErrors <==> exists k :: 0 <= k < |results| && !results[k].status
  {
    hasErrors := false;
    for i := 0 to |results|
      invariant hasErrors <==> exists k :: 0 <= k < i && !results[k].status
    {
      if !results[i].status {
        hasErrors := true;
      }
    }
  }

  /** The connection tests: the configured list, or the failed-load line when it throws. */
  method PushProviderTests(results: seq<CheckResult>, pm: ProviderManager, providerConfig: Result<Config, string>,
                           processEnv: Env, listModels: ProviderKind -> ModelListing)
    returns (r: seq<CheckResult>)
    ensures r == results + TestLines(pm, providerConfig, processEnv, listModels)
  {
    var listed := pm.GetConfiguredProviders(providerConfig, processEnv);
    if listed.Err? {
      r := results + [ConfigMissing];
    } else {
      r := PushConnectionChecks(results, pm, listed.value, listModels);
    }
  }

  /** The pushes of `runDoctorWithDeps`, up to and including the connection tests. */
  method CollectResults(test: bool, config: Result<Config, string>, configPath: Result<string, string>, env: Env,
                        pm: ProviderManager, providerConfig: Result<Config, string>, processEnv: Env,
                        listModels: ProviderKind -> ModelListing)
    returns (results: seq<CheckResult>)
    ensures results == DoctorResults(test, config, configPath, env, pm, providerConfig, processEnv, listModels)
  {
    results := [];
    if config.Err? || configPath.Err? {
      results := results + [ConfigMissing];
    } else {
      results := results + [CheckResult(ConfigFileName, true, "Found at " + configPath.value)];
      ghost var fileLine := results;
      var hasAnyProvider;
      results, hasAnyProvider := PushCredentialChecks(results, config.value, env);
      ghost var checks := results;
      if test && hasAnyProvider {
        results := PushProviderTests(results, pm, providerConfig, processEnv, listModels);
      }
      assert fileLine == [CheckResult(ConfigFileName, true, "Found at " + configPath.value)];
      assert checks == fileLine + CredentialChecks(config.value, env);
    }
  }

  /**
   * `runDoctorWithDeps`: push the checks, then scan the results for a
   * failure, then decide the exit status (`true` means `process.exit(1)`).
   */
  method RunDoctor(test: bool, config: Result<Config, string>, configPath: Result<string, string>, env: Env,
                   pm: ProviderManager, providerConfig: Result<Config, string>, processEnv: Env,
                   listModels: ProviderKind -> ModelListing)
    returns (results: seq<CheckResult>, hasErrors: bool, exitWithError: bool)
    ensures results == DoctorResults(test, config, configPath, env, pm, providerConfig, processEnv, listModels)
    ensures hasErrors <==> exists k :: 0 <= k < |results| && !results[k].status
    ensures exitWithError <==> FindStatus(results, AvailabilityName) != Some(true)
  {
    results := CollectResults(test, config, configPath, env, pm, providerConfig, processEnv, listModels);
    hasErrors := AnyFailed(results);
    exitWithError := FindStatus(results, AvailabilityName) != Some(true);
  }

  // ---------------------------------------------------------------------
  // Properties of the table

  /** A configuration that cannot be loaded, or whose path cannot be read, gives the single failed file line. */
  lemma ConfigFailureIsOneLine(test: bool, config: Result<Config, string>, configPath: Result<string, string>,
                               env: Env, pm: ProviderManager, providerConfig: Result<Config, string>,
                               processEnv: Env, listModels: ProviderKind -> ModelListing)
    requires config.Err? || configPath.Err?
    ensures DoctorResults(test, config, configPath, env, pm, providerConfig, processEnv, listModels) == [ConfigMissing]
    ensures FindStatus([ConfigMissing], ConfigFileName) == Some(false)
  {
  }

  /**
   * With a loaded configuration the table starts with the file line and the
   * five checks; connection lines follow only when testing was asked for and
   * some provider is available, one per configured provider, in order.
   */
  lemma ConnectionLinesOnlyWhenTesting(test: bool, config: Config, path: string, env: Env, pm: ProviderManager,
                                       providerConfig: Result<Config, string>, processEnv: Env,
                                       listModels: ProviderKind -> ModelListing)
    ensures var rs := DoctorResults(test, Ok(config), Ok(path), env, pm, providerConfig, processEnv, listModels);
            && |rs| >= 6
            && rs[0] == CheckResult(ConfigFileName, true, "Found at " + path)
            && rs[1..6] == CredentialChecks(config, env)
            && (!(test && HasAnyProvider(config, env)) ==> |rs| == 6)
            && (test && HasAnyProvider(config, env) && providerConfig.Err? ==> rs[6..] == [ConfigMissing])
            && (test && HasAnyProvider(config, env) && providerConfig.Ok? ==>
                  var configured := ConfiguredProviders(providerConfig.value, processEnv);
                  && |rs| == 6 + |configured|
                  && forall k :: 0 <= k < |configured| ==> rs[6 + k].name == configured[k] + " connection")
  {
    var rs := DoctorResults(test, Ok(config), Ok(path), env, pm, providerConfig, processEnv, listModels);
    var checks := [CheckResult(ConfigFileName, true, "Found at " + path)] + CredentialChecks(config, env);
    assert rs[..6] == checks;
    assert checks[1..6] == CredentialChecks(config, env);
  }

  /** A connection line passes exactly when that provider's `listModels` returns, on a freshly built manager. */
  lemma ConnectionStatusOnFreshManager(pm: ProviderManager, name: string, listModels: ProviderKind -> ModelListing)
    requires Fresh(pm)
    requires name in Registry
    ensures ConnectionCheck(pm, name, listModels).status <==> listModels(RegistryMap[name]).Models?
  {
    GetProviderRegistered(pm, name);
  }

  /**
   * The exit decision: status 1 exactly when the configuration or its path
   * could not be read, or no provider is available.
   */
  lemma {:induction false} ExitDecision(test: bool, config: Result<Config, string>, configPath: Result<string, string>,
                                        env: Env, pm: ProviderManager, providerConfig: Result<Config, string>,
                                        processEnv: Env, listModels: ProviderKind -> ModelListing)
    ensures var rs := DoctorResults(test, config, configPath, env, pm, providerConfig, processEnv, listModels);
            FindStatus(rs, AvailabilityName) != Some(true) <==>
            !(config.Ok? && configPath.Ok? && HasAnyProvider(config.value, env))
  {
    var rs := DoctorResults(test, config, configPath, env, pm, providerConfig, processEnv, listModels);
    if config.Ok? && configPath.Ok? {
      var checks := [CheckResult(ConfigFileName, true, "Found at " + configPath.value)] + CredentialChecks(config.value, env);
      assert rs[..|checks|] == checks;
      AvailabilityIsSixth(checks, config.value, env, configPath.value);
      FindStatusInPrefix(rs, checks, AvailabilityName, 5);
    } else {
      assert rs == [ConfigMissing];
    }
  }

  /** The availability line is the sixth line, and no earlier line bears its name. */
  lemma AvailabilityIsSixth(checks: seq<CheckResult>, config: Config, env: Env, path: string)
    requires checks == [CheckResult(ConfigFileName, true, "Found at " + path)] + CredentialChecks(config, env)
    ensures |checks| == 6 && checks[5] == AvailabilityCheck(config, env)
    ensures forall j :: 0 <= j < 5 ==> checks[j].name != AvailabilityName
  {
    assert checks[1..] == CredentialChecks(config, env);
  }

  /** A name first found at index `k` of a prefix is found there in the whole sequence. */
  lemma {:induction false} FindStatusInPrefix(rs: seq<CheckResult>, prefix: seq<CheckResult>, name: string, k: nat)
    requires |prefix| <= |rs| && rs[..|prefix|] == prefix
    requires k < |prefix| && prefix[k].name == name
    requires forall j :: 0 <= j < k ==> prefix[j].name != name
    ensures FindStatus(rs, name) == Some(prefix[k].status)
    decreases k
  {
    if k > 0 {
      assert rs[1..][..|prefix[1..]|] == prefix[1..];
      FindStatusInPrefix(rs[1..], prefix[1..], name, k - 1);
    }
  }
}
