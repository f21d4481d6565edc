# Apertus provider and configuration-table codecs of bifrost, in Dafny

bifrost is an LLM gateway. It puts many model providers behind one API. This project models two parts of it.

**The Apertus provider.** Apertus is an OpenAI-compatible provider. Each of its keys may carry its own endpoint. It comes in two copies:

- the `apertus` package (`core/providers/apertus/apertus.go`), modelled by module `Apertus`;
- the older flat `providers` package (`core/providers/apertus.go`), modelled by module `Providers`.

Both copies share the following behaviour, modelled in `ApertusCommon`:

- The constructor normalises the configured base URL in place. An empty URL becomes `https://api.openai.com`, then trailing slashes are trimmed.
- `getBaseURL` prefers the key's slash-trimmed endpoint over the provider's base URL.
- Each entry point first asks the policy gate. It then either calls the shared OpenAI-compatible handler with a target URL, or, for speech and transcription, calls a temporary OpenAI provider aimed at the key's base URL.
- `ListModels` makes no network call. It lists the distinct model names of all keys.

The two copies differ as follows:

- In the newer copy, `GetRequestPath` may replace the default path; it sees the request context and the custom provider configuration. The raw-response flag also comes from `ShouldSendBackRawResponse`, which sees the request context. The newer copy prefixes model IDs with the provider identity and marks them owned by `system`.
- The older copy uses fixed paths, its own raw-response flag and raw model IDs.

`ApertusVersions` proves that the two copies agree when no path override applies and the context does not override the raw-response flag.

An entry point is modelled up to the call it makes. `Dispatch` yields either the gate's rejection or the call: which handler, the request context, the URL, the request, the credentials, the headers, the identity and the raw-response flag. The blocking `Speech` and `Transcription` are methods. They take the temporary OpenAI provider as a function, hand it the request context, and overwrite the identity it reports on the error and on a non-nil response. The streaming variants hand back what the delegate returns, unchanged.

**The configuration tables** (`framework/configstore/tables`). Their gorm hooks flatten in-memory settings into stored columns (`BeforeSave`) and rebuild the settings after a read (`AfterFind`):

- `TableKey` (module `TablesKey`): a key's model list and its Azure, Vertex, Bedrock and Apertus settings become nullable columns. An empty string field is stored as NULL. A nil model list is stored as `"[]"`. A group is rebuilt only under its own condition.
- `TableProvider` (module `TablesProvider`): network, concurrency, proxy and custom-provider settings become JSON text columns. A custom provider configuration without a base provider type is rejected.
- `TableClientConfig` (module `TablesClientConfig`): the Prometheus labels and allowed origins become JSON list columns.

Each table is a class whose hooks update its fields in place. Each hook is proved against a function on values (`Save`, `Find`), and the round trips are lemmas about those functions.

## How external pieces are represented

- The provider helpers are fields of the datatype `ProviderUtils.Utils`, and any function is allowed there. These are `CheckOperationAllowed`, `GetRequestPath`, `GetProviderName` and `ShouldSendBackRawResponse`.
- The temporary OpenAI provider is a function parameter of the audio methods.
- The JSON serialisers (`encoding/json`, and `sonic`, which writes the Bedrock deployments) are `Json.Codec` values: a total `marshal` and an `unmarshal` that may fail.
- The round trip every JSON library promises is a precondition of the lemmas that need it, not an assumption:
  - `Json.Lawful`: a codec reads back what it writes;
  - `Json.Compatible`: `encoding/json` reads back what `sonic` writes;
  - `Json.LawfulList`: the empty slice is written as `"[]"`.
- A Go nil pointer, slice or map is `None`.

## Behaviour worth knowing

- A configured base URL or key endpoint made only of slashes trims to `""` (`core/providers/apertus/apertus.go:47`, `:67`). `ApertusCommon.NormalizeBaseUrl` states exactly when the result is empty.
- The streaming audio entry points return the delegate's stream and error unpatched, so they report whatever identity the temporary OpenAI provider sets (`core/providers/apertus/apertus.go:298-319`, `:352-372`).
- No per-key model-name mapping exists: of the Apertus settings, only the endpoint is stored (`framework/configstore/tables/key.go:43-44`).
- `ListModels` output order is map-iteration order, not sorted (`core/providers/apertus/apertus.go:89-101`). The model specifies a duplicate-free sequence whose elements are the configured names.

## Model

| member | source | states |
|---|---|---|
| Strings.TrimRight | core/providers/apertus/apertus.go:67 | the result is a prefix of the input; every dropped character is in the cutset; the result does not end in a cutset character |
| Strings.TrimRightIsTheRightTrim | core/providers/apertus/apertus.go:47 | TrimRight meets the definition of a right trim, and is the only string that does |
| Strings.TrimRightEmptyIff | core/providers/apertus/apertus.go:47 | the trim is empty exactly when every character is in the cutset |
| Strings.TrimRightKeepsTrimmed | core/providers/apertus/apertus.go:67 | a string not ending in a cutset character is unchanged |
| Strings.TrimRightDropsTail | core/providers/apertus/apertus.go:67 | appending cutset characters does not change the trim |
| ApertusCommon.NormalizeBaseUrl | core/providers/apertus/apertus.go:44-47 | the normalised base URL never ends in '/'; an empty setting becomes https://api.openai.com; otherwise it is the right trim of the setting; it is empty exactly when the setting is non-empty and all slashes |
| ApertusCommon.TempConfig | core/providers/apertus/apertus.go:272-282 | the temporary OpenAI configuration is the provider's network configuration with the key's base URL, and the provider's raw-response flag |
| ApertusCommon.ErrorWithProvider | core/providers/apertus/apertus.go:287-290 | the patched error reports the given identity and keeps its message, request type and latency |
| ApertusCommon.ResponseWithProvider | core/providers/apertus/apertus.go:291-293 | the patched response reports the given identity and keeps its body, request type and latency |
| ApertusCommon.ConfiguredModelsMembership | core/providers/apertus/apertus.go:89-95 | a name is configured exactly when some key lists it |
| ApertusCommon.CollectModels | core/providers/apertus/apertus.go:89-101 | the collected names are duplicate-free; a name is collected exactly when some key lists it; their count is the number of distinct configured names |
| ApertusCommon.PrefixedByNothing | core/providers/apertus.go:102-108 | with an empty prefix the listed IDs are the names themselves |
| ApertusCommon.ListingDescribesModels | core/providers/apertus/apertus.go:103-111 | one entry per collected name, IDs exactly the prefixed configured names, pairwise distinct, each with the given owner |
| Apertus.ApertusProvider.constructor | core/providers/apertus/apertus.go:29-57 | the caller's configuration is normalised in place (base URL only) and copied; the stored base URL has no trailing slash |
| Apertus.ApertusProvider.GetProviderKey | core/providers/apertus/apertus.go:59-61 | the reported identity is the naming helper's answer for the Apertus base type and the custom provider configuration, the same for every key and request |
| Apertus.ApertusProvider.Gate | core/providers/apertus/apertus.go:83-85 | the gate is asked about the Apertus base type (not the reported identity) with the custom provider configuration and the request type |
| Apertus.ApertusProvider.GetBaseUrl | core/providers/apertus/apertus.go:65-70 | with a non-empty key endpoint, the right trim of it; otherwise the stored base URL unchanged; never a trailing slash once constructed |
| Apertus.ApertusProvider.BuildRequestUrl | core/providers/apertus/apertus.go:74-77 | the URL is the key's slash-trimmed endpoint, or else the stored base URL, followed by the path `GetRequestPath` gives for the context, default path, custom configuration and request type |
| Apertus.ApertusProvider.Dispatch | core/providers/apertus/apertus.go:126-264 | rejected exactly when the gate objects, with the gate's error verbatim; otherwise the shared handler of the operation with URL = base URL + the overridable default path, the request context, bearer credentials for streams, the provider's headers and identity and the context's raw-response flag; or, for audio, the temporary OpenAI provider at the key's base URL with the request context |
| Apertus.ApertusProvider.ListModels | core/providers/apertus/apertus.go:82-123 | a gate rejection is returned as is; otherwise one entry per distinct configured name, ID = identity + "/" + name, owned by "system", reported with the provider identity, ListModelsRequest and latency 0 |
| Apertus.ApertusProvider.Speech | core/providers/apertus/apertus.go:266-296 | the gate's rejection, else the delegate's outcome at the key's base URL for the request context, with the error or the non-nil response reporting the provider identity |
| Apertus.ApertusProvider.SpeechStream | core/providers/apertus/apertus.go:298-319 | the gate's rejection, else the delegate's stream and error exactly, identity not patched |
| Apertus.ApertusProvider.Transcription | core/providers/apertus/apertus.go:321-350 | as Speech, for transcription |
| Apertus.ApertusProvider.TranscriptionStream | core/providers/apertus/apertus.go:352-372 | as SpeechStream, for transcription |
| Apertus.TargetUrlResolution | core/providers/apertus/apertus.go:65-77 | a shared-handler target is the trimmed key endpoint plus the path when the key has an endpoint, else the stored base URL plus the path |
| Apertus.CustomEndpointResolution | core/providers/apertus/apertus.go:65-77 | a key endpoint "host/" yields the target host + path whatever the provider's base URL |
| Apertus.DefaultBaseUrlScenario | core/providers/apertus/apertus.go:44-77 | a provider configured with an empty base URL sends chat completions of an endpoint-less key to https://api.openai.com/v1/chat/completions |
| Providers.ApertusProvider.constructor | core/providers/apertus.go:31-62 | as the newer constructor |
| Providers.ApertusProvider.GetProviderKey | core/providers/apertus.go:65-67 | as the newer GetProviderKey |
| Providers.ApertusProvider.Gate | core/providers/apertus.go:82-84 | as the newer Gate |
| Providers.ApertusProvider.GetBaseUrl | core/providers/apertus.go:71-76 | as the newer getBaseURL |
| Providers.ApertusProvider.Dispatch | core/providers/apertus.go:123-260 | as the newer Dispatch, with URL = base URL + fixed path and the provider's own raw-response flag; the request context is handed on but changes neither |
| Providers.ApertusProvider.ListModels | core/providers/apertus.go:81-120 | one entry per distinct configured name, ID = the raw name, no owner; the IDs are exactly the configured names |
| Providers.ApertusProvider.Speech | core/providers/apertus.go:262-292 | as the newer Speech |
| Providers.ApertusProvider.SpeechStream | core/providers/apertus.go:294-315 | as the newer SpeechStream |
| Providers.ApertusProvider.Transcription | core/providers/apertus.go:317-346 | as the newer Transcription |
| Providers.ApertusProvider.TranscriptionStream | core/providers/apertus.go:348-368 | as the newer TranscriptionStream |
| ApertusVersions.VersionsAgreeWithoutOverrides | core/providers/apertus.go:123-260 | both copies plan the same call when configured alike, with no path override and no raw-response override |
| ListColumn.EncodeList | framework/configstore/tables/key.go:59-67 | a nil list is written as "[]", which is the encoding of the empty list; under a lawful codec the column is never empty |
| ListColumn.DecodeList | framework/configstore/tables/key.go:161-165 | an empty column keeps the prior list; a non-empty one is decoded |
| ListColumn.ListRoundTrip | framework/configstore/tables/clientconfig.go:36-75 | a written list is read back exactly, in order; a nil one as the empty list; whatever the prior value |
| TablesKey.Save | framework/configstore/tables/key.go:57-158 | an absent group leaves every column of it NULL; the endpoint, Vertex, access-key and secret-key columns are never "" |
| TablesKey.Find | framework/configstore/tables/key.go:160-245 | a group whose columns are absent keeps its prior field, even after an error; on success a non-empty models column is decoded into the list, an Azure group with an endpoint is rebuilt with its API version and decoded deployments, a stored Vertex group from its columns (NULL as ""), a stored Bedrock group from its columns with decoded deployments, and an Apertus endpoint becomes the Apertus config |
| TablesKey.AzureRoundTrip | framework/configstore/tables/key.go:69-189 | an Azure config with an endpoint is rebuilt equal |
| TablesKey.AzureWithoutEndpointIsNotRebuilt | framework/configstore/tables/key.go:70-75 | an Azure config with empty endpoint is not rebuilt although its API version is written |
| TablesKey.VertexRoundTrip | framework/configstore/tables/key.go:92-207 | a Vertex config is rebuilt equal unless all its fields are empty; then, or when absent, it is not rebuilt |
| TablesKey.BedrockRoundTrip | framework/configstore/tables/key.go:114-234 | a Bedrock config is rebuilt equal unless nothing of it is stored; deployments written by sonic are read by encoding/json |
| TablesKey.ApertusRoundTrip | framework/configstore/tables/key.go:147-242 | an Apertus config with an endpoint is rebuilt equal; otherwise it is not rebuilt |
| TablesKey.KeyRoundTrip | framework/configstore/tables/key.go:57-245 | save then fresh read gives the normalised settings, without error |
| TablesKey.SameRowRoundTrip | framework/configstore/tables/key.go:57-245 | both hooks on the same row lose nothing but the nil-ness of the model list |
| TablesKey.FindFailsIff | framework/configstore/tables/key.go:160-245 | AfterFind fails exactly when the models, a rebuilt Azure group's deployments or a rebuilt Bedrock group's deployments do not decode, with the first such error |
| TablesKey.TableKey.BeforeSave | framework/configstore/tables/key.go:57-158 | the columns become Save of the settings, which are unchanged |
| TablesKey.TableKey.SaveModelsColumn | framework/configstore/tables/key.go:59-67 | the models column is written, nothing else |
| TablesKey.TableKey.SaveAzureColumns | framework/configstore/tables/key.go:69-90 | the Azure columns are written, nothing else |
| TablesKey.TableKey.SaveVertexColumns | framework/configstore/tables/key.go:92-112 | the Vertex columns are written, nothing else |
| TablesKey.TableKey.SaveBedrockColumns | framework/configstore/tables/key.go:114-145 | the Bedrock columns are written, nothing else |
| TablesKey.TableKey.SaveApertusColumn | framework/configstore/tables/key.go:147-155 | the Apertus column is written, nothing else |
| TablesKey.TableKey.AfterFind | framework/configstore/tables/key.go:160-245 | the settings and error become Find of the columns and prior settings; the columns are unchanged |
| TablesKey.TableKey.LoadModels | framework/configstore/tables/key.go:161-165 | the model list is decoded or the error returned, nothing else changes |
| TablesKey.TableKey.LoadAzure | framework/configstore/tables/key.go:167-189 | the Azure config is rebuilt or the error returned, nothing else changes |
| TablesKey.TableKey.LoadVertex | framework/configstore/tables/key.go:191-207 | the Vertex config is rebuilt when a column is non-NULL |
| TablesKey.TableKey.LoadBedrock | framework/configstore/tables/key.go:209-234 | the Bedrock config is rebuilt or the error returned, nothing else changes |
| TablesKey.TableKey.LoadApertus | framework/configstore/tables/key.go:236-242 | the Apertus config is rebuilt when its endpoint is non-NULL |
| TablesKey.SaveAndReload | framework/configstore/tables/key.go:57-245 | a key saved and read into a fresh row comes back normalised without error |
| TablesProvider.Save | framework/configstore/tables/provider.go:43-81 | BeforeSave fails exactly for a custom config with empty base provider type, with that message and the custom column untouched; every present setting's column holds its encoding, the custom one only when accepted |
| TablesProvider.Find | framework/configstore/tables/provider.go:84-118 | an empty column keeps its prior setting, even after an error; on success every non-empty column decodes to its setting |
| TablesProvider.NilSettingKeepsColumn | framework/configstore/tables/provider.go:44-78 | a nil setting leaves its column as it was |
| TablesProvider.PresentSettingsRestored | framework/configstore/tables/provider.go:43-118 | after a save, a read that succeeds gives back every present setting, and with all four present it cannot fail |
| TablesProvider.DecodesWritten | framework/configstore/tables/provider.go:44-78 | every written column is non-empty and decodes to its setting |
| TablesProvider.ProviderRoundTrip | framework/configstore/tables/provider.go:43-118 | a new row saved and read fresh gives back exactly its settings |
| TablesProvider.ClearedSettingComesBack | framework/configstore/tables/provider.go:44-91 | a network config cleared to nil over a stored column is read back from that column |
| TablesProvider.FindFailsIff | framework/configstore/tables/provider.go:84-118 | AfterFind fails exactly when a non-empty column does not decode |
| TablesProvider.TableProvider.BeforeSave | framework/configstore/tables/provider.go:43-81 | columns and error become Save of the prior columns and settings; the settings are unchanged |
| TablesProvider.TableProvider.AfterFind | framework/configstore/tables/provider.go:84-118 | settings and error become Find of the columns and prior settings; the columns are unchanged |
| TablesProvider.SaveAndReload | framework/configstore/tables/provider.go:43-118 | a new row is rejected exactly when its custom config lacks a base provider type, else read back exactly |
| TablesClientConfig.Save | framework/configstore/tables/clientconfig.go:36-58 | both columns are non-empty under a lawful codec, so a read always rebuilds both lists |
| TablesClientConfig.Find | framework/configstore/tables/clientconfig.go:61-75 | an empty column keeps its prior list; on success every non-empty column decodes to its list; a labels error leaves both lists as they were |
| TablesClientConfig.ClientConfigRoundTrip | framework/configstore/tables/clientconfig.go:36-75 | both lists come back in order, nil ones as empty lists |
| TablesClientConfig.FindFailsIff | framework/configstore/tables/clientconfig.go:61-75 | AfterFind fails exactly when a non-empty column does not decode |
| TablesClientConfig.TableClientConfig.BeforeSave | framework/configstore/tables/clientconfig.go:36-58 | the columns become Save of the lists, which are unchanged |
| TablesClientConfig.TableClientConfig.AfterFind | framework/configstore/tables/clientconfig.go:61-75 | lists and error become Find of the columns and prior lists; the columns are unchanged |
| TablesClientConfig.SaveAndReload | framework/configstore/tables/clientconfig.go:36-75 | a configuration saved and read into a fresh row gives back both lists, nil ones empty, without error |

## Left out

- HTTP clients (fasthttp and net/http), timeouts, connection limits and proxy setup in the constructors: I/O plumbing.
- `config.CheckAndSetDefaults()` at the start of the constructors: the `schemas` package is not part of this model.
- The shared OpenAI handlers, `NewOpenAIProvider`, streaming channels and the `postHookRunner`: foreign calls and concurrency. An entry point is modelled up to the call it makes, and the audio delegate is a function parameter.
- The provider helpers (`CheckOperationAllowed`, `GetRequestPath`, `GetProviderName`, `ShouldSendBackRawResponse`, `ConfigureProxy`): their source is not part of this model, so they are arbitrary functions.
- Logger calls: side channels with no logic.
- Request and response bodies: type parameters, never inspected.
- Update in place through shared pointers: the delegate's error or response is patched as a value, and pointer aliasing between the caller and the provider is not captured. Likewise `TablesKey.TableKey.BeforeSave` copies values where `framework/configstore/tables/key.go:71`, `:94`, `:99`, `:104`, `:116`, `:121` and `:149` point a column at the config's own field (`k.AzureEndpoint = &k.AzureKeyConfig.Endpoint`), so a later change to one is not seen in the other.
- Errors from `json.Marshal`/`sonic.Marshal`: marshalling is total for the types stored here, so those early returns of `BeforeSave` are not modelled.
- Partial writes by a failing `json.Unmarshal` into an existing slice: a failed decode leaves the field unchanged.
- The plain columns (IDs, names, key value, `Weight` float, timestamps, booleans and integers of the client configuration) and gorm tags and `TableName`: not transformed by the hooks.
- `framework/configstore/tables/vectorstore.go`: a plain data struct with no behaviour.
- Model-name mapping and an "effective model name": absent from the code.
- ApertusCommon.CollectModels: the order of the collected names is not specified, because Go's map iteration order is unspecified.
