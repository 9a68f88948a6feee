# ultra-mcp core, modelled in Dafny

This project models the core decision and data logic of ultra-mcp, an MCP server that routes requests to AI providers (OpenAI, Gemini, Azure OpenAI, xAI Grok) and runs semantic search over a project's embedded code chunks. The model covers five parts:

- **Vector search** (`vector_search.dfy`).
  - `searchVectors` first tries the native nearest-neighbour index.
  - After *any* error from the index query, it falls back to a full scan. The scan scores each chunk by `1 - cosineSimilarity`, sorts stably by ascending distance and keeps the first `limit`.
  - It then converts each distance to `similarity = 1 - distance` and keeps the results at or above the threshold.
  - `getRelatedFiles` reduces the hits to their file paths through an insertion-ordered `Set`.
  - `cosineSimilarity` has a length guard, one accumulation loop and a zero-norm rule.
- **Provider selection** (`provider_manager.dfy`).
  - The `ProviderManager` class keeps a registry of four providers.
  - `getConfiguredProviders` lists the providers that have credentials, in registry order.
  - `getPreferredProvider` picks azure first, then the caller's first configured preference, then the first configured provider, and otherwise fails.
- **The `doctor` command** (`doctor.dfy`).
  - It builds an ordered table of checks: the configuration file, four credential lines with the three-way Azure rule, and "Provider availability".
  - When asked, it adds one connection-test line per configured provider.
  - It then scans the table for failures and decides whether to exit with status 1.
- **The interactive configurator** (`interactive_config.dfy`).
  - It models `maskApiKey`.
  - It models the API-key and base-URL update rule that `configureApiKeys` applies to each provider section, both as a pure transformer and as the sequence of setter calls on a configuration store.
- **URL detection** (`url_detection.dfy`).
  - Both regular expressions of `URL_PATTERNS` are written out as matchers, with the global-search scan over them.
  - `extractUrls` has a protocol mode and a protocol-free mode, and deduplicates in first-seen order.
  - `hasUrls` is modelled, and `filterValidUrls` is modelled over an abstract `isValidUrl`.

Shared pieces:

- `wrappers.dfy`: `Option` and `Result`.
- `ordered_set.dfy`: JavaScript's insertion-ordered `Set` as a duplicate-free sequence (`Add`, `AddAll`, `Dedup`).
- `sequences.dfy`: subsequences and `filter`.
- `text.dfy`: JavaScript `trim`, `\s`, `startsWith`, ASCII lower-casing, number formatting and `join`.
- `config.dfy`: the configuration record, the environment variables, and JavaScript truthiness and `||` on optional strings.

How the model represents things:

- A thrown error is an `Err` value.
- Anything the code obtains from outside is a parameter. This covers configuration loads, environment variables, database answers, the embedding, a provider's `listModels`, the square root and the `URL` constructor's verdict.
- A method that changes state is proved against a function of its inputs or old state. The properties the source promises are proved about that function.

Letter case is folded for ASCII letters only (`LowerAscii`). That is exact where the source folds case:

- `toLowerCase() === 'clear'` holds only for strings made of the letters of `clear` in either case, since no other character lower-cases to one of them.
- The `i` flag of a regular expression without the `u` flag never maps a non-ASCII character to an ASCII one.

The fallback follows the code:

- The `catch` at `src/vector/search.ts:58` falls back to the full scan after any error of the indexed query.
- The comment at `src/vector/search.ts:59` names only a missing vector extension.
- `VectorSearch.IndexFailureFallsBack` states what the code does.

## Model

| member | source | states |
|---|---|---|
| VectorSearch.Cosine | src/vector/search.ts:121-144 | fails, with "Vectors must have the same length", exactly when the two lengths differ |
| VectorSearch.CosineSimilarity | src/vector/search.ts:121-144 | the accumulation loop of dot product and squared norms, then square roots and the zero-norm rule, returns exactly `Cosine` |
| VectorSearch.CosineSymmetric | src/vector/search.ts:126-143 | swapping the two vectors gives the same similarity, or the same error |
| VectorSearch.ZeroVectorScoresZero | src/vector/search.ts:136-141 | when either vector is all zeros (and the square root maps 0 to 0), the similarity is exactly 0 |
| VectorSearch.ScoreChunks | src/vector/search.ts:76-87 | fails exactly when some chunk's embedding length differs from the query's; otherwise one candidate per chunk, in scan order, with distance `1 - cosine` |
| VectorSearch.SortByDistance | src/vector/search.ts:90-91 | the result is sorted by ascending distance, is a permutation of the input, and keeps the input order among candidates at equal distance (a stable sort) |
| VectorSearch.StableSortIsUnique | src/vector/search.ts:90-91 | any sorted ordering that is stable at each distance equals `SortByDistance`, so the result does not depend on which stable sort the runtime uses |
| VectorSearch.FallbackIsStableSortPrefix | src/vector/search.ts:76-92 | with matching lengths the fallback candidates are sorted, are a prefix of the stable sort of every scored chunk, and number `min(limit, chunks)` for a non-negative limit |
| VectorSearch.SliceEnd | src/vector/search.ts:92 | where `slice(0, limit)` stops: never past the length, at `limit` when it lies within the length, and `-limit` before the end for a negative limit |
| VectorSearch.Slice | src/vector/search.ts:92 | `slice(0, limit)` is a prefix of its input, of length `min(limit, length)` for a non-negative limit |
| VectorSearch.FallbackCandidates | src/vector/search.ts:63-92 | the fallback fails exactly when an embedding has the wrong length; otherwise its candidates are sorted by distance, no more than the chunks, and no more than a non-negative limit |
| VectorSearch.Candidates | src/vector/search.ts:39-93 | the index's rows when its query succeeds; a failure exactly when the index query failed and then the scan failed (with the scan's error) or an embedding has the wrong length |
| VectorSearch.Converted | src/vector/search.ts:96-102 | one result per candidate in candidate order, with similarity `1 - distance` and the relpath, chunk and id carried over; `VectorSearch.ConvertedRanking` adds that a list sorted by distance is ranked by similarity |
| VectorSearch.ToSearchResult | src/vector/search.ts:97-102 | similarity plus distance is 1 |
| VectorSearch.AboveThreshold | src/vector/search.ts:103 | an order-preserving subsequence holding exactly the results whose similarity is at least the threshold, each as many times as in the input, and no other |
| VectorSearch.SearchVectors | src/vector/search.ts:20-107 | embedding and database errors propagate unchanged, and every returned result meets the threshold; its other properties are in `SearchErrors`, `ResultsMeetThreshold`, `FallbackResultsRanked`, `IndexedResultsRanked`, `NoMatchIsEmpty` and `IndexFailureFallsBack` |
| VectorSearch.SearchErrors | src/vector/search.ts:24-106 | embedding and database errors propagate unwrapped; otherwise the search fails only when the index query failed and the scan failed or an embedding has the wrong length, with the "Vector search failed: " prefix |
| VectorSearch.ResultsMeetThreshold | src/vector/search.ts:96-103 | every result meets the threshold and is `1 - distance` of some candidate; the results are an order-preserving subsequence of the converted candidates, so there are no more of them than candidates |
| VectorSearch.FallbackResultsRanked | src/vector/search.ts:58-103 | on the fallback path the search succeeds, the similarities are non-increasing, and a non-negative limit bounds the result count |
| VectorSearch.IndexedResultsRanked | src/vector/search.ts:39-103 | on the indexed path the same ranking and bound hold whenever the index returns its rows sorted and limited |
| VectorSearch.NoMatchIsEmpty | src/vector/search.ts:96-103 | when no candidate reaches the threshold the search returns the empty list, not an error |
| VectorSearch.IndexFailureFallsBack | src/vector/search.ts:58-93 | after any index error the search gives exactly what the fallback scan gives |
| VectorSearch.AddRelpaths | src/vector/search.ts:113-118 | the loop adds each result's relpath to the set in order |
| VectorSearch.GetRelatedFiles | src/vector/search.ts:109-119 | a search error propagates; otherwise the result is the deduplicated list of result relpaths |
| VectorSearch.RelatedFilesAreDistinct | src/vector/search.ts:113-118 | each relpath of the results appears exactly once, nothing else appears, in order of first occurrence |
| Providers.ConfiguredProviders | src/providers/manager.ts:52-74 | a name is listed iff that provider has credentials; the list is a duplicate-free subsequence of openai, gemini, azure, grok |
| Providers.AzureNeedsKeyAndBaseUrl | src/providers/manager.ts:64-67 | azure is configured iff it has a key (file or AZURE_API_KEY) and a base URL (file or AZURE_BASE_URL) |
| Providers.FirstConfigured | src/providers/manager.ts:85-91 | returns the earliest preference that is configured, and nothing exactly when no preference is configured |
| Providers.PreferredProvider | src/providers/manager.ts:76-99 | fails with the "No AI providers configured" message iff nothing is configured; azure wins whenever it is configured; any answer is configured |
| Providers.PreferenceOrderWins | src/providers/manager.ts:85-91 | without azure, the first configured entry of the preference list is chosen |
| Providers.FirstConfiguredFallback | src/providers/manager.ts:94-96 | without azure and without a configured preference, the first configured provider is chosen |
| Providers.ModelsOf | src/providers/manager.ts:41-46 | a provider whose `listModels` throws contributes `[]`; otherwise its own model list |
| Providers.ProviderManager.constructor | src/providers/manager.ts:12-15 | a new manager holds exactly the four registered providers, keyed in registration order |
| Providers.ProviderManager.Set | src/providers/manager.ts:17-23 | setting a key maps it to the provider; a new key goes last and an existing key keeps its place |
| Providers.ProviderManager.InitializeProviders | src/providers/manager.ts:17-23 | the four `set` calls add openai, gemini, azure, grok in that order and map each to its provider kind |
| Providers.ProviderManager.GetProvider | src/providers/manager.ts:25-31 | succeeds exactly for registered names with that provider; otherwise the error "Unknown provider: …. Available providers: …" listing the keys |
| Providers.ProviderManager.ListProviders | src/providers/manager.ts:33-35 | the keys are duplicate-free, and a name is listed iff `getProvider` succeeds for it |
| Providers.ProviderManager.GetAvailableModels | src/providers/manager.ts:37-50 | one entry per registered provider: its model list, or `[]` when `listModels` throws |
| Providers.ProviderManager.GetConfiguredProviders | src/providers/manager.ts:52-74 | a configuration-load error propagates; otherwise the pushes build exactly `ConfiguredProviders` |
| Providers.ProviderManager.GetPreferredProvider | src/providers/manager.ts:76-99 | a load error propagates; otherwise the early-return loop gives exactly `PreferredProvider` of the configured list |
| Providers.GetProviderRegistered | src/providers/manager.ts:19-31 | on a fresh manager `getProvider` succeeds iff the name is one of the four, and the error lists "openai, gemini, azure, grok" |
| Providers.ListProvidersRegistry | src/providers/manager.ts:17-35 | a fresh manager lists openai, gemini, azure, grok in that order |
| Providers.PreferredIsRegistered | src/providers/manager.ts:76-99 | a fresh manager can hand out whatever provider is preferred |
| Doctor.DoctorResults | src/commands/doctor-injectable.ts:39-162 | the table starts with the "Configuration file" line, which passes iff the configuration and its path were read; when it fails it is the only line, and without testing there are six lines; `ConnectionLinesOnlyWhenTesting` and `ExitDecision` state the rest |
| Doctor.TestLines | src/commands/doctor-injectable.ts:131-162 | one "<provider> connection" line per configured provider, in order, or the failed file line when the provider manager's configuration load throws |
| Doctor.CredentialChecks | src/commands/doctor-injectable.ts:50-128 | five lines, named as checks 2 to 6 in push order; the availability line passes iff one of the four provider lines passes |
| Doctor.AvailabilityCheck | src/commands/doctor-injectable.ts:122-128 | check 6 is named "Provider availability", passes iff `hasAnyProvider`, and has the matching message |
| Doctor.OpenAICheck | src/commands/doctor-injectable.ts:50-64 | passes iff a file or env key exists; the message is "Valid format" iff the key used starts with `sk-`, otherwise "Set (custom format)" or "Not configured" |
| Doctor.GoogleCheck | src/commands/doctor-injectable.ts:66-80 | passes iff a file or env key exists, with "Configured" or "Not configured" |
| Doctor.AzureCheck | src/commands/doctor-injectable.ts:82-104 | passes iff a key and a base URL (file, AZURE_BASE_URL or AZURE_ENDPOINT) exist; with one of them the message is "Missing baseURL" when the key is there, else "Missing API key"; with neither it is "Not configured" |
| Doctor.XaiCheck | src/commands/doctor-injectable.ts:106-120 | passes iff a file or env key exists, with "Configured" or "Not configured" |
| Doctor.AvailabilityIsAnyProviderCheck | src/commands/doctor-injectable.ts:122-128 | the availability line passes iff one of the four provider lines passes, with the matching message |
| Doctor.AzureEndpointOnlyCountsForDoctor | src/commands/doctor-injectable.ts:83-86 | the doctor's Azure rule is the manager's rule plus the AZURE_ENDPOINT alternative; there is a concrete environment where the doctor passes Azure but the manager leaves it out |
| Doctor.ConnectionCheck | src/commands/doctor-injectable.ts:136-153 | a connection line is named "<provider> connection" and passes iff `getProvider` succeeds and `listModels` returns |
| Doctor.ConnectionChecks | src/commands/doctor-injectable.ts:136-153 | one connection line per configured provider, in order |
| Doctor.FindStatus | src/commands/doctor-injectable.ts:205 | the status of the first result with that name, and nothing iff no result has it |
| Doctor.OpenAIEntry | src/commands/doctor-injectable.ts:50-64 | the statements compute the key `config || env` and exactly the OpenAI line |
| Doctor.GoogleEntry | src/commands/doctor-injectable.ts:66-80 | the statements compute the key and exactly the Google line |
| Doctor.AzureEntry | src/commands/doctor-injectable.ts:82-104 | the statements compute the key, the three-source base URL and exactly the Azure line |
| Doctor.XaiEntry | src/commands/doctor-injectable.ts:106-120 | the statements compute the key and exactly the xAI line |
| Doctor.PushCredentialChecks | src/commands/doctor-injectable.ts:50-128 | pushes checks 2 to 6 in order and computes `hasAnyProvider` |
| Doctor.PushConnectionChecks | src/commands/doctor-injectable.ts:136-153 | the loop pushes one connection line per configured provider, in order |
| Doctor.AnyFailed | src/commands/doctor-injectable.ts:167-173 | `hasErrors` is true iff some result has status false |
| Doctor.PushProviderTests | src/commands/doctor-injectable.ts:131-162 | the connection lines, or the failed file line when listing the configured providers throws |
| Doctor.CollectResults | src/commands/doctor-injectable.ts:39-162 | the pushes build exactly the result table `DoctorResults` |
| Doctor.RunDoctor | src/commands/doctor-injectable.ts:39-207 | the table, `hasErrors` iff some line failed, and exit 1 iff the availability line is missing or false |
| Doctor.ConfigFailureIsOneLine | src/commands/doctor-injectable.ts:42-162 | when the configuration or its path cannot be read, the table is the single failed "Configuration file" line |
| Doctor.ConnectionLinesOnlyWhenTesting | src/commands/doctor-injectable.ts:130-154 | the table is the file line and checks 2 to 6; connection lines follow only when testing and some provider is available, one per configured provider in order, or the failed file line when the provider manager's load throws |
| Doctor.ConnectionStatusOnFreshManager | src/commands/doctor-injectable.ts:137-152 | on a freshly built manager a registered provider's line passes iff its `listModels` returns |
| Doctor.ExitDecision | src/commands/doctor-injectable.ts:204-207 | exit 1 iff the configuration or its path could not be read or no provider is available |
| InteractiveConfig.MaskApiKey | src/config/interactive.ts:248-253 | keys of length at most 8 become `****`; longer ones are 12 characters: the first four, `****`, the last four |
| InteractiveConfig.MaskHidesMiddle | src/config/interactive.ts:252 | keys that differ only in positions 4 to length-5 mask alike, so the middle never shows |
| InteractiveConfig.ApiKeyUpdate | src/config/interactive.ts:66-74 | keep iff the answer is missing, empty or the placeholder; clear iff it is `clear` in any ASCII letter case; otherwise set to the verbatim answer |
| InteractiveConfig.BaseUrlUpdate | src/config/interactive.ts:76-79 | written iff an answer came back and differs from the value read before the prompts; an empty answer is written as undefined |
| InteractiveConfig.UpdateSection | src/config/interactive.ts:66-79 | a section's key and base URL after its answers are each the old value, undefined, or the answer; `KeyRule` and `BaseUrlRule` say which |
| InteractiveConfig.KeyRule | src/config/interactive.ts:66-74 | in a section: missing, empty or placeholder keeps the key; `clear` removes it; any other answer is stored verbatim |
| InteractiveConfig.BaseUrlRule | src/config/interactive.ts:76-79 | in a section: an unchanged or missing answer keeps the base URL; an empty one unsets it; a new one is stored |
| InteractiveConfig.ApplyAnswers | src/config/interactive.ts:43-190 | each section is updated by its own answers only; a declined Azure or xAI block leaves that section as it was |
| InteractiveConfig.SectionsIndependent | src/config/interactive.ts:97-190 | changing one provider's answers never changes another provider's section |
| InteractiveConfig.ConfigStore.constructor | src/config/interactive.ts:44 | the store starts with the loaded configuration |
| InteractiveConfig.ConfigStore.SetApiKey | src/config/interactive.ts:68-71 | replaces the key of one section and nothing else |
| InteractiveConfig.ConfigStore.SetBaseURL | src/config/interactive.ts:77 | replaces the base URL of one section and nothing else |
| InteractiveConfig.ConfigStore.ConfigureSection | src/config/interactive.ts:66-79 | the setter calls of one provider block leave exactly `UpdateSection` of the initial section in place and the other sections untouched |
| InteractiveConfig.ConfigStore.ConfigureApiKeys | src/config/interactive.ts:43-190 | the four blocks, with Azure and xAI only when confirmed, leave exactly `ApplyAnswers` of the configuration read at the start |
| UrlDetection.AllowedRun | src/utils/url-detection.ts:8 | the longest run of characters outside `\s<>"{}|\^`[]` from a position: none inside it excluded, and it stops at an excluded character or the end |
| UrlDetection.SchemeEnd | src/utils/url-detection.ts:8 | where `https?://` ends, within the text |
| UrlDetection.SegmentEnd | src/utils/url-detection.ts:10 | one `label.` segment ends just after a dot |
| UrlDetection.DomainFrom | src/utils/url-detection.ts:10 | the backtracking end of `(label.)+[a-zA-Z]{2,}`: at least two letters after the last segment |
| UrlDetection.DomainEnd | src/utils/url-detection.ts:10 | a domain match ends after its start and within the text |
| UrlDetection.PathEnd | src/utils/url-detection.ts:10 | the optional path never shrinks the match and stays within the text |
| UrlDetection.MatchAt | src/utils/url-detection.ts:6-11 | a match of either pattern ends after its start and within the text |
| UrlDetection.Spans | src/utils/url-detection.ts:24 | the global search yields real matches, in increasing, non-overlapping order |
| UrlDetection.SpansCoverMatches | src/utils/url-detection.ts:24 | no match is skipped: every position where a match could start lies inside a found match |
| UrlDetection.SpansIffSomeMatch | src/utils/url-detection.ts:24 | `text.match` finds something iff the pattern matches at some position |
| UrlDetection.Normalize | src/utils/url-detection.ts:36-40 | the result always starts with `http` |
| UrlDetection.ExtractedUrls | src/utils/url-detection.ts:19-47 | the result has no duplicates and holds exactly the strings the loops add to the set |
| UrlDetection.HasUrls | src/utils/url-detection.ts:55-57 | `hasUrls` holds iff the loops add at least one string |
| UrlDetection.AddTrimmed | src/utils/url-detection.ts:26 | the loop adds each trimmed match to the set, in order |
| UrlDetection.AddNormalized | src/utils/url-detection.ts:33-41 | the loop adds each trimmed match, prefixed with `https://` unless it starts with `http`, in order |
| UrlDetection.ExtractUrls | src/utils/url-detection.ts:19-47 | the loops over the patterns and their matches give exactly the deduplicated candidate list `ExtractedUrls` |
| UrlDetection.FilterValidUrls | src/utils/url-detection.ts:78-80 | the order-preserving subsequence of exactly the URLs accepted by `isValidUrl`, each kept as many times as it occurs in the input |
| UrlDetection.UrlMatchShape | src/utils/url-detection.ts:8 | a protocol match starts with a scheme in some letter case, contains no excluded character, and ends at an excluded character or the end of the text |
| UrlDetection.ProtocolResultsShape | src/utils/url-detection.ts:22-27 | in protocol mode every result has a scheme, no whitespace or excluded character, and is a whole greedy match of the text |
| UrlDetection.ResultsDistinctInFirstSeenOrder | src/utils/url-detection.ts:20-46 | in either mode the results are distinct, are exactly the added strings, and are in order of first addition |
| UrlDetection.LooseResultsStartWithHttp | src/utils/url-detection.ts:35-40 | without the protocol requirement every result starts with `http` |
| UrlDetection.ProtocolResultsAlsoLoose | src/utils/url-detection.ts:22-44 | a protocol-mode result spelt with lower-case `http` is also found without the requirement |
| UrlDetection.HasUrlsIffSomeMatch | src/utils/url-detection.ts:55-57 | `hasUrls` in protocol mode holds iff some position starts a scheme followed by an allowed character |
| UrlDetection.HasUrlsLooseIffSomeMatch | src/utils/url-detection.ts:28-57 | `hasUrls` without the protocol requirement holds iff one of the two patterns matches at some position |
| UrlDetection.NormalizeHttpHost | src/utils/url-detection.ts:36 | a bare host starting with `http` (httpbin.org) gets no scheme, as the case-sensitive test is written |
| UrlDetection.NormalizeUpperCaseScheme | src/utils/url-detection.ts:36-37 | an upper-case `HTTP://` is not recognised and gets a second scheme |

## Left out

- Floating point: numbers are reals, and nothing models Float32 storage or IEEE rounding. `Math.sqrt` is the parameter `sqrt`, and no property about `cos(a, a)` being about 1 is stated.
- VectorSearch.ZeroVectorScoresZero: assumes `sqrt(0) == 0`, which `Math.sqrt` guarantees.
- Decoding of stored embeddings: `bufferToFloat32Array` and the Buffer/Uint8Array conversion are left out. A scanned chunk carries its decoded vector.
- The SQL text, the VSS virtual table and the libsql client are left out. The database's answers to the two queries are the `Store` value.
- `getVectorDB` and `provider.getEmbedding` are external. The model takes their outcomes as `Result` parameters.
- The native index's own ordering is not modelled. The indexed path is proved ranked only under the assumption that the index sorts and limits its rows, in `VectorSearch.IndexedResultsRanked`.
- Logging, `console` and `chalk` output are left out. So are the doctor's summary and recommendations, which only print.
- The real `process.exit` is left out: the doctor returns its exit decision as a boolean.
- The `prompts` interaction is left out: answers are parameters.
- The recursion back into `runInteractiveConfig` after configuring is left out. So are `viewConfiguration`, `resetConfiguration` and the main menu.
- `process.env` is left out: environment variables are the `Env` parameter. The doctor's injected environment and the process environment read by the provider manager are separate parameters.
- src/config/manager.ts is not part of this model. `setApiKey`, `setBaseURL` and `getConfig` are taken to replace or read exactly one field of one section.
- Provider SDK objects are not modelled: a registry entry is its `ProviderKind`, and `listModels` is a parameter.
- The `URL` constructor behind `isValidUrl` is the parameter `isValidUrl`.
- Providers.ProviderManager.GetAvailableModels: returns a map, so the key order of the returned `Record` is not stated. The entries are.
- InteractiveConfig.MaskApiKey: counts characters, where JavaScript's `length` and `substring` count UTF-16 code units. The two agree for keys without characters outside the Basic Multilingual Plane.
- The interleaving of `await`s is not modelled: each command runs sequentially.
