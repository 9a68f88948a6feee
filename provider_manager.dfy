/**
 * The provider manager: a registry of the four AI providers, the list of
 * providers that have credentials, and the rule that picks the provider a
 * request goes to.
 *
 * The provider objects themselves (their SDK clients) are not modelled; a
 * registry entry records which kind of provider it holds, and what a
 * provider's `listModels` answers is a parameter.
 */
module Providers {
  import opened Wrappers
  import opened Text
  import opened Config
  import opened OrderedSet
  import opened Sequences

  datatype ProviderKind = OpenAI | Gemini | AzureOpenAI | Grok

  /**
   * What one call of a provider's `listModels` does: return its models, or
   * throw; `message` is the thrown `Error`'s message, `None` when the thrown
   * value is not an `Error`.
   */
  datatype ModelListing = Models(models: seq<string>) | Threw(message: Option<string>)

  /** The names `initializeProviders` registers, in registration order. */
  const Registry: seq<string> := ["openai", "gemini", "azure", "grok"]

  const RegistryMap: map<string, ProviderKind> :=
    map["openai" := OpenAI, "gemini" := Gemini, "azure" := AzureOpenAI, "grok" := Grok]

  const UnknownProviderPrefix := "Unknown provider: "
  const AvailableProvidersInfix := ". Available providers: "
  const NoProvidersConfigured := "No AI providers configured. Run 'ultra-mcp config' to set up API keys."

  /** The registry, as the four `set` calls build it. */
  lemma RegistryInPushOrder()
    ensures [] + ["openai"] + ["gemini"] + ["azure"] + ["grok"] == Registry
  {
  }

  // ---------------------------------------------------------------------
  // Which providers have credentials

  predicate OpenAIConfigured(config: Config, env: Env) {
    Truthy(Or(config.openai.apiKey, env.openaiApiKey))
  }

  predicate GeminiConfigured(config: Config, env: Env) {
    Truthy(Or(config.google.apiKey, env.googleApiKey))
  }

  /** Azure needs a key AND a base URL, each from the file or its environment variable. */
  predicate AzureConfigured(config: Config, env: Env) {
    Truthy(Or(config.azure.apiKey, env.azureApiKey)) && Truthy(Or(config.azure.baseURL, env.azureBaseUrl))
  }

  predicate GrokConfigured(config: Config, env: Env) {
    Truthy(Or(config.xai.apiKey, env.xaiApiKey))
  }

  /** Whether the registered provider `name` has what it needs. */
  predicate IsConfigured(name: string, config: Config, env: Env) {
    (name == "openai" && OpenAIConfigured(config, env)) ||
    (name == "gemini" && GeminiConfigured(config, env)) ||
    (name == "azure" && AzureConfigured(config, env)) ||
    (name == "grok" && GrokConfigured(config, env))
  }

  /** One conditional `push` of the name `n` after the names pushed before it. */
  function PushIf(b: bool, before: seq<string>, n: string): seq<string> {
    if b then before + [n] else before
  }

  lemma PushIfFacts(b: bool, before: seq<string>, n: string, names: seq<string>)
    requires IsSubsequence(before, names) && NoDuplicates(before) && n !in names
    ensures IsSubsequence(PushIf(b, before, n), names + [n])
    ensures NoDuplicates(PushIf(b, before, n))
    ensures forall y :: y in PushIf(b, before, n) <==> (b && y == n) || y in before
  {
    SubsequenceAppend(n, before, names);
    SubsequenceElements(before, names);
  }

  /**
   * The list `getConfiguredProviders` builds: exactly the configured
   * providers, each once, in registration order.
   */
  function ConfiguredProviders(config: Config, env: Env): (r: seq<string>)
    ensures forall n :: n in r <==> IsConfigured(n, config, env)
    ensures IsSubsequence(r, Registry)
    ensures NoDuplicates(r)
  {
    var o := PushIf(OpenAIConfigured(config, env), [], "openai");
    var g := PushIf(GeminiConfigured(config, env), o, "gemini");
    var a := PushIf(AzureConfigured(config, env), g, "azure");
    var r := PushIf(GrokConfigured(config, env), a, "grok");
    var names := [] + ["openai"];
    PushIfFacts(OpenAIConfigured(config, env), [], "openai", []);
    PushIfFacts(GeminiConfigured(config, env), o, "gemini", names);
    PushIfFacts(AzureConfigured(config, env), g, "azure", names + ["gemini"]);
    PushIfFacts(GrokConfigured(config, env), a, "grok", names + ["gemini"] + ["azure"]);
    assert names + ["gemini"] + ["azure"] + ["grok"] == Registry;
    r
  }

  // ---------------------------------------------------------------------
  // The first configured preference

  /** The first entry of `preferred` that is in `configured`, if any. */
  function FirstConfigured(preferred: seq<string>, configured: seq<string>): (r: Option<string>)
    ensures r.None? <==> forall k :: 0 <= k < |preferred| ==> preferred[k] !in configured
    ensures r.Some? ==> r.value in configured
    ensures r.Some? ==> exists i :: 0 <= i < |preferred| && preferred[i] == r.value &&
                                    forall k :: 0 <= k < i ==> preferred[k] !in configured
    decreases |preferred|
  {
    if preferred == [] then None
    else if preferred[0] in configured then Some(preferred[0])
    else
      var r := FirstConfigured(preferred[1..], configured);
      assert forall k :: 1 <= k < |preferred| ==> preferred[k] == preferred[1..][k - 1];
      if r.Some? then
        var i :| 0 <= i < |preferred[1..]| && preferred[1..][i] == r.value &&
                 forall k :: 0 <= k < i ==> preferred[1..][k] !in configured;
        assert preferred[i + 1] == r.value;
        assert forall k :: 0 <= k < i + 1 ==> preferred[k] !in configured by {
          forall k | 0 <= k < i + 1
            ensures preferred[k] !in configured
          {
            if k > 0 {
              assert preferred[k] == preferred[1..][k - 1];
            }
          }
        }
        r
      else r
  }

  /**
   * The choice `getPreferredProvider` makes from the configured list: azure
   * if it is there, else the first configured preference, else the first
   * configured provider, else the error.
   */
  function PreferredProvider(configured: seq<string>, preferred: Option<seq<string>>): (r: Result<string, string>)
    ensures r.Err? <==> configured == []
    ensures r.Err? ==> r.error == NoProvidersConfigured
    ensures r.Ok? ==> r.value in configured
    ensures "azure" in configured ==> r == Ok("azure")
  {
    if "azure" in configured then Ok("azure")
    else
      var fromPreferred := if preferred.Some? then FirstConfigured(preferred.value, configured) else None;
      if fromPreferred.Some? then Ok(fromPreferred.value)
      else if |configured| > 0 then Ok(configured[0])
      else Err(NoProvidersConfigured)
  }

  /** Without azure, the first configured entry of the preference list wins, in list order. */
  lemma PreferenceOrderWins(configured: seq<string>, preferred: seq<string>, i: nat)
    requires "azure" !in configured
    requires i < |preferred| && preferred[i] in configured
    requires forall k :: 0 <= k < i ==> preferred[k] !in configured
    ensures PreferredProvider(configured, Some(preferred)) == Ok(preferred[i])
  {
    var r := FirstConfigured(preferred, configured);
    var j :| 0 <= j < |preferred| && preferred[j] == r.value &&
             forall k :: 0 <= k < j ==> preferred[k] !in configured;
  }

  /** Without azure and with no configured preference, the first configured provider wins. */
  lemma FirstConfiguredFallback(configured: seq<string>, preferred: Option<seq<string>>)
    requires "azure" !in configured && configured != []
    requires preferred.Some? ==> forall k :: 0 <= k < |preferred.value| ==> preferred.value[k] !in configured
    ensures PreferredProvider(configured, preferred) == Ok(configured[0])
  {
  }

  // ---------------------------------------------------------------------
  // The manager

  /** `provider.listModels()` caught: a provider that throws lists no models. */
  function ModelsOf(l: ModelListing): (r: seq<string>)
    ensures l.Threw? ==> r == []
    ensures l.Models? ==> r == l.models
  {
    match l
    case Models(m) => m
    case Threw(_) => []
  }

  /**
   * `ProviderManager`. Its `Map<string, AIProvider>` is the pair of
   * `names` (the keys in insertion order) and `providers` (the entries).
   */
  class ProviderManager {
    var names: seq<string>
    var providers: map<string, ProviderKind>

    ghost predicate Valid()
      reads this
    {
      NoDuplicates(names) && forall n :: n in providers <==> n in names
    }

    /** `new ProviderManager(configManager)`: an empty map, then `initializeProviders`. */
    constructor ()
      ensures Valid()
      ensures names == Registry && providers == RegistryMap
    {
      names := [];
      providers := map[];
      new;
      InitializeProviders();
      AddAllDistinct([], Registry);
      assert [] + Registry == Registry;
    }

    /** `this.providers.set(name, p)`: a new key goes last, an existing key keeps its place. */
    method Set(name: string, p: ProviderKind)
      requires Valid()
      modifies this
      ensures Valid()
      ensures names == Add(old(names), name)
      ensures providers == old(providers)[name := p]
    {
      if name !in names {
        names := names + [name];
      }
      providers := providers[name := p];
    }

    method InitializeProviders()
      requires Valid()
      modifies this
      ensures Valid()
      ensures names == AddAll(old(names), Registry)
      ensures providers == old(providers)["openai" := OpenAI]["gemini" := Gemini]["azure" := AzureOpenAI]["grok" := Grok]
    {
      ghost var n0 := names;
      ghost var pushed: seq<string> := [];
      Set("openai", OpenAI);
      AddAllSnoc(n0, pushed, "openai");
      pushed := pushed + ["openai"];
      Set("gemini", Gemini);
      AddAllSnoc(n0, pushed, "gemini");
      pushed := pushed + ["gemini"];
      Set("azure", AzureOpenAI);
      AddAllSnoc(n0, pushed, "azure");
      pushed := pushed + ["azure"];
      Set("grok", Grok);
      AddAllSnoc(n0, pushed, "grok");
      pushed := pushed + ["grok"];
      RegistryInPushOrder();
    }

    /** `getProvider(name)`: the registered provider, or the error naming every registered key. */
    function GetProvider(name: string): (r: Result<ProviderKind, string>)
      reads this
      ensures r.Ok? <==> name in providers
      ensures r.Ok? ==> r.value == providers[name]
      ensures r.Err? ==> r.error == UnknownProviderPrefix + name + AvailableProvidersInfix + Join(names, ", ")
    {
      if name in providers then Ok(providers[name])
      else Err(UnknownProviderPrefix + name + AvailableProvidersInfix + Join(names, ", "))
    }

    /** `listProviders()`: the registered names, in registration order. */
    function ListProviders(): (r: seq<string>)
      reads this
      requires Valid()
      ensures NoDuplicates(r)
      ensures forall n :: n in r <==> GetProvider(n).Ok?
    {
      names
    }

    /** `getAvailableModels()`: one entry per registered provider; a provider that throws gets `[]`. */
    method GetAvailableModels(listModels: ProviderKind -> ModelListing) returns (models: map<string, seq<string>>)
      requires Valid()
      ensures models.Keys == providers.Keys
      ensures forall n :: n in providers ==> models[n] == ModelsOf(listModels(providers[n]))
    {
      models := map[];
      for i := 0 to |names|
        invariant forall n :: n in models <==> n in names[..i]
        invariant forall n :: n in models ==> models[n] == ModelsOf(listModels(providers[n]))
      {
        var name := names[i];
        var listing := listModels(providers[name]);
        match listing
        case Models(m) =>
          models := models[name := m];
        case Threw(_) =>
          models := models[name := []];
      }
      assert names[..|names|] == names;
    }

    /**
     * `getConfiguredProviders()`: loading the configuration may throw; otherwise
     * each provider with credentials is pushed, in registration order.
     */
    method GetConfiguredProviders(config: Result<Config, string>, env: Env) returns (r: Result<seq<string>, string>)
      ensures config.Err? ==> r == Err(config.error)
      ensures config.Ok? ==> r == Ok(ConfiguredProviders(config.value, env))
    {
      if config.Err? {
        return Err(config.error);
      }
      var c := config.value;
      var configured: seq<string> := [];
      if Truthy(Or(c.openai.apiKey, env.openaiApiKey)) {
        configured := configured + ["openai"];
      }
      if Truthy(Or(c.google.apiKey, env.googleApiKey)) {
        configured := configured + ["gemini"];
      }
      if Truthy(Or(c.azure.apiKey, env.azureApiKey)) && Truthy(Or(c.azure.baseURL, env.azureBaseUrl)) {
        configured := configured + ["azure"];
      }
      if Truthy(Or(c.xai.apiKey, env.xaiApiKey)) {
        configured := configured + ["grok"];
      }
      return Ok(configured);
    }

    /**
     * `getPreferredProvider(preferredProviders)`: the configured list, then
     * azure, the preference list scanned in order, the first configured
     * provider, or the error.
     */
    method GetPreferredProvider(config: Result<Config, string>, env: Env, preferred: Option<seq<string>>)
      returns (r: Result<string, string>)
      ensures config.Err? ==> r == Err(config.error)
      ensures config.Ok? ==> r == PreferredProvider(ConfiguredProviders(config.value, env), preferred)
    {
      var listed := GetConfiguredProviders(config, env);
      if listed.Err? {
        return Err(listed.error);
      }
      var configured := listed.value;
      if "azure" in configured {
        return Ok("azure");
      }
      if preferred.Some? {
        var ps := preferred.value;
        for i := 0 to |ps|
          invariant forall k :: 0 <= k < i ==> ps[k] !in configured
        {
          if ps[i] in configured {
            PreferenceOrderWins(configured, ps, i);
            return Ok(ps[i]);
          }
        }
      }
      if |configured| > 0 {
        return Ok(configured[0]);
      }
      return Err(NoProvidersConfigured);
    }
  }

  // ---------------------------------------------------------------------
  // Properties of a freshly built manager

  /** A manager as its constructor leaves it. */
  predicate Fresh(m: ProviderManager)
    reads m
  {
    m.names == Registry && m.providers == RegistryMap
  }

  lemma JoinRegistry()
    ensures Join(Registry, ", ") == "openai, gemini, azure, grok"
  {
    var sep := ", ";
    assert Registry[1..] == ["gemini", "azure", "grok"];
    assert ["gemini", "azure", "grok"][1..] == ["azure", "grok"];
    assert ["azure", "grok"][1..] == ["grok"];
    assert Join(["grok"], sep) == "grok";
    assert Join(["azure", "grok"], sep) == "azure" + sep + "grok";
    assert Join(["gemini", "azure", "grok"], sep) == "gemini" + sep + ("azure" + sep + "grok");
  }

  /** `getProvider` succeeds exactly for the four registered names. */
  lemma GetProviderRegistered(m: ProviderManager, name: string)
    requires Fresh(m)
    ensures m.GetProvider(name).Ok? <==> name in Registry
    ensures m.GetProvider(name).Err? ==>
              m.GetProvider(name).error ==
              UnknownProviderPrefix + name + AvailableProvidersInfix + "openai, gemini, azure, grok"
  {
    JoinRegistry();
  }

  /** `listProviders` lists the four names in registration order. */
  lemma ListProvidersRegistry(m: ProviderManager)
    requires Fresh(m)
    ensures m.Valid()
    ensures m.ListProviders() == ["openai", "gemini", "azure", "grok"]
  {
  }

  /** Whatever provider is preferred, the registry can hand it out. */
  lemma PreferredIsRegistered(m: ProviderManager, config: Config, env: Env, preferred: Option<seq<string>>)
    requires Fresh(m)
    ensures var r := PreferredProvider(ConfiguredProviders(config, env), preferred);
            r.Ok? ==> m.GetProvider(r.value).Ok?
  {
    var configured := ConfiguredProviders(config, env);
    var r := PreferredProvider(configured, preferred);
    if r.Ok? {
      SubsequenceElements(configured, Registry);
    }
  }

  /** Azure is configured only with a key and a base URL, each from the file or the environment. */
  lemma AzureNeedsKeyAndBaseUrl(config: Config, env: Env)
    ensures "azure" in ConfiguredProviders(config, env) <==>
            (Truthy(config.azure.apiKey) || Truthy(env.azureApiKey)) &&
            (Truthy(config.azure.baseURL) || Truthy(env.azureBaseUrl))
  {
  }
}
