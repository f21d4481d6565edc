/** What the two copies of the Apertus provider share: the base-URL normalisation done by their
    constructors, the request shapes with their default paths and shared handlers, the dispatch
    plan an entry point produces, and the collection of configured model names. */
module ApertusCommon {
  import opened Wrappers
  import opened Strings
  import opened Schemas
  import opened ProviderUtils

  /** The base URL used when the provider configuration leaves it empty. */
  const DefaultBaseUrl: string := "https://api.openai.com"

  /** The constructors' normalisation of the configured base URL: the default when empty,
      then trailing slashes trimmed. */
  function NormalizeBaseUrl(configured: string): (baseUrl: string)
    ensures !EndsWith(baseUrl, '/')
    ensures configured == "" ==> baseUrl == DefaultBaseUrl
    ensures configured != "" ==> IsRightTrimmed(configured, "/", baseUrl)
    ensures baseUrl == "" <==> configured != "" && AllIn(configured, "/")
  {
    var withDefault := if configured == "" then DefaultBaseUrl else configured;
    TrimRightEmptyIff(withDefault, "/");
    TrimRight(withDefault, "/")
  }

  /** The key overrides the provider's base URL with a non-empty Apertus endpoint. */
  predicate HasEndpoint(key: Key) {
    key.apertusKeyConfig.Some? && key.apertusKeyConfig.value.endpoint != ""
  }

  /** The provider entry points other than model listing. */
  datatype Operation =
    | TextCompletion | TextCompletionStream
    | ChatCompletion | ChatCompletionStream
    | Responses | ResponsesStream
    | Embedding
    | Speech | SpeechStream
    | Transcription | TranscriptionStream

  /** The request type each entry point presents to the policy gate and the path overrides. */
  function RequestTypeOf(op: Operation): RequestType {
    match op
    case TextCompletion => TextCompletionRequest
    case TextCompletionStream => TextCompletionStreamRequest
    case ChatCompletion => ChatCompletionRequest
    case ChatCompletionStream => ChatCompletionStreamRequest
    case Responses => ResponsesRequest
    case ResponsesStream => ResponsesStreamRequest
    case Embedding => EmbeddingRequest
    case Speech => SpeechRequest
    case SpeechStream => SpeechStreamRequest
    case Transcription => TranscriptionRequest
    case TranscriptionStream => TranscriptionStreamRequest
  }

  /** Entry points implemented through a temporary OpenAI provider rather than a shared handler. */
  predicate IsDelegated(op: Operation) {
    op.Speech? || op.SpeechStream? || op.Transcription? || op.TranscriptionStream?
  }

  predicate IsStreaming(op: Operation) {
    op.TextCompletionStream? || op.ChatCompletionStream? || op.ResponsesStream?
    || op.SpeechStream? || op.TranscriptionStream?
  }

  /** The path appended to the base URL for the entry points served by a shared handler. */
  function DefaultPath(op: Operation): string
    requires !IsDelegated(op)
  {
    match op
    case TextCompletion | TextCompletionStream => "/v1/completions"
    case ChatCompletion | ChatCompletionStream => "/v1/chat/completions"
    case Responses | ResponsesStream => "/v1/responses"
    case Embedding => "/v1/embeddings"
  }

  /** The OpenAI-compatible shared handlers. */
  datatype Handler =
    | HandleTextCompletionRequest | HandleTextCompletionStreaming
    | HandleChatCompletionRequest | HandleChatCompletionStreaming
    | HandleResponsesRequest | HandleResponsesStreaming
    | HandleEmbeddingRequest

  function HandlerFor(op: Operation): Handler
    requires !IsDelegated(op)
  {
    match op
    case TextCompletion => HandleTextCompletionRequest
    case TextCompletionStream => HandleTextCompletionStreaming
    case ChatCompletion => HandleChatCompletionRequest
    case ChatCompletionStream => HandleChatCompletionStreaming
    case Responses => HandleResponsesRequest
    case ResponsesStream => HandleResponsesStreaming
    case Embedding => HandleEmbeddingRequest
  }

  /** How the key reaches a shared handler: blocking handlers take the key itself,
      streaming handlers an Authorization header built from its secret. */
  datatype Credentials = KeyCredential(key: Key) | AuthHeaders(headers: map<string, string>)

  function CredentialsFor(op: Operation, key: Key): Credentials {
    if IsStreaming(op) then AuthHeaders(map["Authorization" := "Bearer " + key.value])
    else KeyCredential(key)
  }

  /** The configuration given to the temporary OpenAI provider. */
  datatype OpenAIConfig = OpenAIConfig(networkConfig: NetworkConfig, sendBackRawResponse: bool)

  /** The temporary provider's configuration: the resolved base URL, with headers, timeout and
      retry settings copied from the Apertus provider's own network configuration. */
  function TempConfig(baseUrl: string, networkConfig: NetworkConfig, sendBackRawResponse: bool): (c: OpenAIConfig)
    ensures c.networkConfig == networkConfig.(baseUrl := baseUrl)
    ensures c.sendBackRawResponse == sendBackRawResponse
  {
    OpenAIConfig(
      NetworkConfig(
        baseUrl,
        networkConfig.extraHeaders,
        networkConfig.defaultRequestTimeoutInSeconds,
        networkConfig.maxRetries,
        networkConfig.retryBackoffInitial,
        networkConfig.retryBackoffMax),
      sendBackRawResponse)
  }

  /** Where an admitted request goes; the request context is handed on as it is. */
  datatype Target<R> =
    | SharedHandler(
        handler: Handler,
        ctx: Context,
        url: string,
        request: R,
        credentials: Credentials,
        extraHeaders: map<string, string>,
        provider: ModelProvider,
        sendBackRawResponse: bool)
    | TemporaryOpenAI(config: OpenAIConfig, ctx: Context, key: Key, request: R)

  /** An entry point's plan: the gate's rejection, or the call it makes. */
  datatype Dispatched<R> = Rejected(error: BifrostError) | Call(target: Target<R>)

  /** What a delegate call returns: Go's (value, error) pair. */
  datatype Reply<T> = Reply(value: Option<T>, err: Option<BifrostError>)

  /** The error with its reported provider overwritten. */
  function ErrorWithProvider(e: BifrostError, provider: ModelProvider): (r: BifrostError)
    ensures r.extraFields.provider == provider
    ensures r.message == e.message
    ensures r.extraFields.requestType == e.extraFields.requestType
    ensures r.extraFields.latency == e.extraFields.latency
  {
    e.(extraFields := e.extraFields.(provider := provider))
  }

  /** The response with its reported provider overwritten. */
  function ResponseWithProvider<P>(resp: Response<P>, provider: ModelProvider): (r: Response<P>)
    ensures r.extraFields.provider == provider
    ensures r.body == resp.body
    ensures r.extraFields.requestType == resp.extraFields.requestType
    ensures r.extraFields.latency == resp.extraFields.latency
  {
    resp.(extraFields := resp.extraFields.(provider := provider))
  }

  /** No string occurs twice. */
  predicate Distinct(s: seq<string>) {
    forall i, j | 0 <= i < j < |s| :: s[i] != s[j]
  }

  /** The elements of a list of names. */
  function Elements(names: seq<string>): set<string> {
    set m | m in names
  }

  /** The model names configured on the keys, as a set. */
  function ConfiguredModels(keys: seq<Key>): set<string> {
    if keys == [] then {}
    else ConfiguredModels(keys[..|keys| - 1]) + Elements(keys[|keys| - 1].models)
  }

  /** A name is configured exactly when some key lists it. */
  lemma {:induction false} ConfiguredModelsMembership(keys: seq<Key>, m: string)
    ensures m in ConfiguredModels(keys) <==> exists k :: k in keys && m in k.models
  {
    if keys != [] {
      var init := keys[..|keys| - 1];
      ConfiguredModelsMembership(init, m);
      if exists k :: k in keys && m in k.models {
        var k :| k in keys && m in k.models;
        if k != keys[|keys| - 1] {
          assert k in init;
        }
      }
      assert forall k :: k in init ==> k in keys;
    }
  }

  /** The two ListModels loops that gather the configured names into a set and read the set
      back into a slice; the slice's order is the set's iteration order, which is unspecified. */
  method CollectModels(keys: seq<Key>) returns (models: seq<string>)
    ensures Distinct(models)
    ensures forall m :: m in models <==> m in ConfiguredModels(keys)
    ensures |models| == |ConfiguredModels(keys)|
  {
    var modelSet: map<string, bool> := map[];
    for k := 0 to |keys|
      invariant modelSet.Keys == ConfiguredModels(keys[..k])
    {
      var key := keys[k];
      for j := 0 to |key.models|
        invariant modelSet.Keys == ConfiguredModels(keys[..k]) + Elements(key.models[..j])
      {
        assert key.models[..j + 1] == key.models[..j] + [key.models[j]];
        modelSet := modelSet[key.models[j] := true];
      }
      assert key.models[..|key.models|] == key.models;
      assert keys[..k + 1][..k] == keys[..k];
    }
    assert keys[..|keys|] == keys;

    models := [];
    var rest := modelSet.Keys;
    while rest != {}
      invariant Distinct(models)
      invariant rest <= modelSet.Keys
      invariant forall m :: m in models <==> m in modelSet.Keys && m !in rest
      invariant |models| + |rest| == |modelSet.Keys|
      decreases |rest|
    {
      var m :| m in rest;
      models := models + [m];
      rest := rest - {m};
    }
  }

  /** The IDs of a listing. */
  function Ids(data: seq<Model>): set<string> {
    set i | 0 <= i < |data| :: data[i].id
  }

  /** The names with a prefix put in front of each. */
  function Prefixed(prefix: string, names: set<string>): set<string> {
    set m | m in names :: prefix + m
  }

  /** `data` lists the names `names`, one entry each, as IDs `prefix + name` with the given
      owner, and no ID occurs twice. */
  ghost predicate ListsModels(data: seq<Model>, names: set<string>, prefix: string, ownedBy: Option<string>) {
    && |data| == |names|
    && (forall i | 0 <= i < |data| :: data[i].ownedBy == ownedBy)
    && Ids(data) == Prefixed(prefix, names)
    && (forall i, j | 0 <= i < j < |data| :: data[i].id != data[j].id)
  }

  /** A common prefix can be cancelled: prefixed IDs are equal only for equal names. */
  lemma PrefixCancels(prefix: string, a: string, b: string)
    ensures prefix + a == prefix + b ==> a == b
  {
    if prefix + a == prefix + b {
      assert a == (prefix + a)[|prefix|..];
      assert b == (prefix + b)[|prefix|..];
    }
  }

  /** With an empty prefix the IDs are the names themselves. */
  lemma PrefixedByNothing(names: set<string>)
    ensures Prefixed("", names) == names
  {
    forall m | m in names ensures m in Prefixed("", names) {
      assert "" + m == m;
    }
    forall id | id in Prefixed("", names) ensures id in names {
      var m :| m in names && id == "" + m;
      assert "" + m == m;
    }
  }

  /** The listing built entry by entry from the collected names lists exactly the
      configured names. */
  lemma ListingDescribesModels(keys: seq<Key>, models: seq<string>, prefix: string, ownedBy: Option<string>, data: seq<Model>)
    requires Distinct(models)
    requires forall m :: m in models <==> m in ConfiguredModels(keys)
    requires |models| == |ConfiguredModels(keys)|
    requires |data| == |models|
    requires forall j | 0 <= j < |data| :: data[j] == Model(prefix + models[j], ownedBy)
    ensures ListsModels(data, ConfiguredModels(keys), prefix, ownedBy)
  {
    var names := ConfiguredModels(keys);
    forall id | id in Ids(data) ensures id in Prefixed(prefix, names) {
      var i :| 0 <= i < |data| && data[i].id == id;
      assert models[i] in models;
    }
    forall id | id in Prefixed(prefix, names) ensures id in Ids(data) {
      var m :| m in names && id == prefix + m;
      var i :| 0 <= i < |models| && models[i] == m;
      assert data[i].id == id;
    }
    forall i, j | 0 <= i < j < |data| ensures data[i].id != data[j].id {
      PrefixCancels(prefix, models[i], models[j]);
    }
  }
}
