/**
 * The configuration record read by the provider manager, the doctor command
 * and the interactive configurator, with the environment variables that stand
 * in for it.
 */
module Config {
  import opened Wrappers

  /** One provider's section of the configuration file; a missing section has both fields undefined. */
  datatype ProviderConfig = ProviderConfig(apiKey: Option<string>, baseURL: Option<string>)

  const Unset := ProviderConfig(None, None)

  datatype Config = Config(openai: ProviderConfig, google: ProviderConfig, azure: ProviderConfig, xai: ProviderConfig)

  /** The sections of the configuration file, named as `setApiKey` and `setBaseURL` name them. */
  datatype Section = OpenAISection | GoogleSection | AzureSection | XaiSection

  function SectionOf(c: Config, s: Section): ProviderConfig {
    match s
    case OpenAISection => c.openai
    case GoogleSection => c.google
    case AzureSection => c.azure
    case XaiSection => c.xai
  }

  function WithSection(c: Config, s: Section, p: ProviderConfig): (r: Config)
    ensures SectionOf(r, s) == p
    ensures forall t :: t != s ==> SectionOf(r, t) == SectionOf(c, t)
  {
    match s
    case OpenAISection => c.(openai := p)
    case GoogleSection => c.(google := p)
    case AzureSection => c.(azure := p)
    case XaiSection => c.(xai := p)
  }

  /** The environment variables the core reads (`process.env` or an injected copy). */
  datatype Env = Env(
    openaiApiKey: Option<string>,   // OPENAI_API_KEY
    googleApiKey: Option<string>,   // GOOGLE_API_KEY
    azureApiKey: Option<string>,    // AZURE_API_KEY
    azureBaseUrl: Option<string>,   // AZURE_BASE_URL
    azureEndpoint: Option<string>,  // AZURE_ENDPOINT (legacy)
    xaiApiKey: Option<string>       // XAI_API_KEY
  )

  /** JavaScript truthiness of a possibly undefined string: defined and not empty. */
  predicate Truthy(v: Option<string>) {
    v.Some? && v.value != ""
  }

  /** The value of `a || b`: `a` when it is truthy, otherwise `b`. */
  function Or(a: Option<string>, b: Option<string>): (r: Option<string>)
    ensures Truthy(r) <==> Truthy(a) || Truthy(b)
    ensures r == a || r == b
  {
    if Truthy(a) then a else b
  }
}
