/**
 * The interactive configurator's data logic: how a stored API key is
 * masked for display, and how the answers to the "Configure API Keys"
 * prompts change the configuration. The prompts themselves are inputs: an
 * answer is `None` when the prompt returned nothing (`undefined`), and the
 * optional Azure and xAI blocks are `None` when the user declined them.
 */
module InteractiveConfig {
  import opened Wrappers
  import opened Text
  import opened Config

  /** The initial text of the key prompt when a key is already stored. */
  const CurrentValueHidden := "(current value hidden)"

  // ---------------------------------------------------------------------
  // Masking

  /** `maskApiKey`: short keys are hidden entirely; longer ones show four characters at each end. */
  function MaskApiKey(apiKey: string): (r: string)
    ensures |apiKey| <= 8 ==> r == "****"
    ensures |apiKey| > 8 ==> |r| == 12 && r[..4] == apiKey[..4] && r[4..8] == "****" && r[8..] == apiKey[|apiKey| - 4..]
  {
    if |apiKey| <= 8 then "****" else apiKey[..4] + "****" + apiKey[|apiKey| - 4..]
  }

  /**
   * The mask depends only on the first and last four characters: keys that
   * differ only in positions 4 to length-5 mask alike.
   */
  lemma MaskHidesMiddle(k1: string, k2: string)
    requires |k1| == |k2|
    requires |k1| > 8 ==> k1[..4] == k2[..4] && k1[|k1| - 4..] == k2[|k2| - 4..]
    ensures MaskApiKey(k1) == MaskApiKey(k2)
  {
    if |k1| > 8 {
      var m1, m2 := MaskApiKey(k1), MaskApiKey(k2);
      assert m1 == m1[..4] + m1[4..8] + m1[8..];
      assert m2 == m2[..4] + m2[4..8] + m2[8..];
    }
  }

  // ---------------------------------------------------------------------
  // The update rule

  /** What an answer to the key prompt does to the stored key. */
  datatype KeyUpdate = KeepKey | ClearKey | SetKey(key: string)

  /**
   * An empty or missing answer, or the untouched placeholder, keeps the key;
   * `clear` in any letter case removes it; anything else replaces it.
   */
  function ApiKeyUpdate(answer: Option<string>): (r: KeyUpdate)
    ensures r.KeepKey? <==> !Truthy(answer) || answer.value == CurrentValueHidden
    ensures r.ClearKey? <==> Truthy(answer) && answer.value != CurrentValueHidden && LowerAscii(answer.value) == "clear"
    ensures r.SetKey? ==> answer == Some(r.key) && r.key != "" && LowerAscii(r.key) != "clear"
  {
    if Truthy(answer) && answer.value != CurrentValueHidden then
      if LowerAscii(answer.value) == "clear" then ClearKey else SetKey(answer.value)
    else KeepKey
  }

  /**
   * Whether and how the base URL is written: only when an answer came back
   * and differs from the value read before the prompts; an empty answer is
   * written as undefined. `None` means no write.
   */
  function BaseUrlUpdate(current: Option<string>, answer: Option<string>): (r: Option<Option<string>>)
    ensures r.Some? <==> answer.Some? && answer != current
    ensures r.Some? ==> (r.value == None <==> answer.value == "")
    ensures r.Some? && r.value.Some? ==> r.value == answer
  {
    if answer.Some? && answer != current then Some(if answer.value == "" then None else answer)
    else None
  }

  /** The two answers of one provider's prompt pair. */
  datatype Answers = Answers(apiKey: Option<string>, baseURL: Option<string>)

  /** One provider's section after its answers. */
  function UpdateSection(p: ProviderConfig, a: Answers): (r: ProviderConfig)
    ensures r.apiKey == p.apiKey || r.apiKey == None || r.apiKey == a.apiKey
    ensures r.baseURL == p.baseURL || r.baseURL == None || r.baseURL == a.baseURL
  {
    var key := match ApiKeyUpdate(a.apiKey)
               case KeepKey => p.apiKey
               case ClearKey => None
               case SetKey(k) => Some(k);
    var url := match BaseUrlUpdate(p.baseURL, a.baseURL)
               case None => p.baseURL
               case Some(v) => v;
    ProviderConfig(key, url)
  }

  /** The key rule for one section, stated on the answer itself: which answers keep, clear or set the key. */
  lemma KeyRule(p: ProviderConfig, a: Answers)
    ensures var r := UpdateSection(p, a);
            && (a.apiKey.None? || a.apiKey == Some("") || a.apiKey == Some(CurrentValueHidden) ==> r.apiKey == p.apiKey)
            && (a.apiKey.Some? && a.apiKey.value != CurrentValueHidden && LowerAscii(a.apiKey.value) == "clear" ==>
                  r.apiKey == None)
            && ((a.apiKey.Some? && a.apiKey.value != "" && a.apiKey.value != CurrentValueHidden &&
                 LowerAscii(a.apiKey.value) != "clear") ==> r.apiKey == a.apiKey)
  {
    if a.apiKey.Some? && LowerAscii(a.apiKey.value) == "clear" {
      assert a.apiKey.value != "";
    }
  }

  /** The base-URL rule for one section: written only when answered and changed, an empty answer as undefined. */
  lemma BaseUrlRule(p: ProviderConfig, a: Answers)
    ensures var r := UpdateSection(p, a);
            && (a.baseURL.None? || a.baseURL == p.baseURL ==> r.baseURL == p.baseURL)
            && (a.baseURL == Some("") && p.baseURL != Some("") ==> r.baseURL == None)
            && (a.baseURL.Some? && a.baseURL.value != "" && a.baseURL != p.baseURL ==> r.baseURL == a.baseURL)
  {
  }

  /** The section a configuration's answers go to; declined optional blocks give `None`. */
  function AnswersFor(s: Section, openai: Answers, google: Answers, azure: Option<Answers>, xai: Option<Answers>): Option<Answers> {
    match s
    case OpenAISection => Some(openai)
    case GoogleSection => Some(google)
    case AzureSection => azure
    case XaiSection => xai
  }

  /** A section after its block: updated by its answers, or left alone when the block was declined. */
  function Answered(p: ProviderConfig, a: Option<Answers>): ProviderConfig {
    match a
    case None => p
    case Some(x) => UpdateSection(p, x)
  }

  /** `configureApiKeys` as a transformer: each section gets its own answers, a declined block nothing. */
  function ApplyAnswers(c: Config, openai: Answers, google: Answers, azure: Option<Answers>, xai: Option<Answers>): (r: Config)
    ensures forall s :: SectionOf(r, s) == Answered(SectionOf(c, s), AnswersFor(s, openai, google, azure, xai))
  {
    Config(Answered(c.openai, Some(openai)), Answered(c.google, Some(google)), Answered(c.azure, azure), Answered(c.xai, xai))
  }

  /**
   * One provider's answers never change another provider's fields: the
   * sections other than `s` depend only on their own answers.
   */
  lemma SectionsIndependent(c: Config, s: Section, openai: Answers, google: Answers, azure: Option<Answers>,
                            xai: Option<Answers>, openai': Answers, google': Answers, azure': Option<Answers>,
                            xai': Option<Answers>)
    requires forall t :: t != s ==> AnswersFor(t, openai, google, azure, xai) == AnswersFor(t, openai', google', azure', xai')
    ensures forall t :: t != s ==>
              SectionOf(ApplyAnswers(c, openai, google, azure, xai), t) ==
              SectionOf(ApplyAnswers(c, openai', google', azure', xai'), t)
  {
    forall t | t != s
      ensures SectionOf(ApplyAnswers(c, openai, google, azure, xai), t) ==
              SectionOf(ApplyAnswers(c, openai', google', azure', xai'), t)
    {
      assert AnswersFor(t, openai, google, azure, xai) == AnswersFor(t, openai', google', azure', xai');
    }
  }

  // ---------------------------------------------------------------------
  // The configuration manager as `configureApiKeys` drives it

  /**
   * The stored configuration, with the two setters the configurator calls.
   * Each setter is taken to replace exactly its one field of one section.
   */
  class ConfigStore {
    var config: Config

    constructor (initial: Config)
      ensures config == initial
    {
      config := initial;
    }

    /** `configManager.setApiKey(section, key)` */
    method SetApiKey(s: Section, key: Option<string>)
      modifies this
      ensures config == WithSection(old(config), s, SectionOf(old(config), s).(apiKey := key))
    {
      config := WithSection(config, s, SectionOf(config, s).(apiKey := key));
    }

    /** `configManager.setBaseURL(section, url)` */
    method SetBaseURL(s: Section, url: Option<string>)
      modifies this
      ensures config == WithSection(old(config), s, SectionOf(old(config), s).(baseURL := url))
    {
      config := WithSection(config, s, SectionOf(config, s).(baseURL := url));
    }

    /**
     * One provider's block of `configureApiKeys`: the key rule, then the
     * base-URL rule against `initial`, the section as read before any prompt.
     */
    method ConfigureSection(s: Section, a: Answers, initial: ProviderConfig)
      requires SectionOf(config, s) == initial
      modifies this
      ensures config == WithSection(old(config), s, UpdateSection(initial, a))
    {
      if Truthy(a.apiKey) && a.apiKey.value != CurrentValueHidden {
        if LowerAscii(a.apiKey.value) == "clear" {
          SetApiKey(s, None);
        } else {
          SetApiKey(s, a.apiKey);
        }
      }
      if a.baseURL.Some? && a.baseURL != initial.baseURL {
        SetBaseURL(s, if a.baseURL.value == "" then None else a.baseURL);
      }
      assert SectionOf(config, s) == UpdateSection(initial, a);
      assert forall t :: t != s ==> SectionOf(config, t) == SectionOf(old(config), t);
      SameSections(config, WithSection(old(config), s, UpdateSection(initial, a)));
    }

    /** `configureApiKeys`: the four blocks in order, Azure and xAI only when confirmed. */
    method ConfigureApiKeys(openai: Answers, google: Answers, azure: Option<Answers>, xai: Option<Answers>)
      modifies this
      ensures config == ApplyAnswers(old(config), openai, google, azure, xai)
    {
      var currentConfig := config;
      ConfigureSection(OpenAISection, openai, currentConfig.openai);
      ConfigureSection(GoogleSection, google, currentConfig.google);
      if azure.Some? {
        ConfigureSection(AzureSection, azure.value, currentConfig.azure);
      }
      if xai.Some? {
        ConfigureSection(XaiSection, xai.value, currentConfig.xai);
      }
      SameSections(config, ApplyAnswers(currentConfig, openai, google, azure, xai));
    }
  }

  /** Two configurations with the same four sections are equal. */
  lemma SameSections(c: Config, d: Config)
    requires forall s :: SectionOf(c, s) == SectionOf(d, s)
    ensures c == d
  {
    assert SectionOf(c, OpenAISection) == SectionOf(d, OpenAISection);
    assert SectionOf(c, GoogleSection) == SectionOf(d, GoogleSection);
    assert SectionOf(c, AzureSection) == SectionOf(d, AzureSection);
    assert SectionOf(c, XaiSection) == SectionOf(d, XaiSection);
  }
}
