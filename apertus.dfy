/** The Apertus provider of the `apertus` package: an OpenAI-compatible provider whose keys
    may each carry their own endpoint, and whose request paths may be overridden per request
    type. Network calls are not made here; an entry point yields the plan of the call. */
module Apertus {
  import opened Wrappers
  import opened Strings
  import opened Schemas
  import opened ProviderUtils
  import opened ApertusCommon

  class ApertusProvider {
    /** The provider helpers, which are not part of this model. */
    const utils: Utils
    const networkConfig: NetworkConfig
    const sendBackRawResponse: bool
    const customProviderConfig: Option<CustomProviderConfig>

    /** What the constructor establishes: the stored base URL has no trailing slash. */
    ghost predicate Valid() {
      !EndsWith(networkConfig.baseUrl, '/')
    }

    /** NewApertusProvider: normalises the base URL in the caller's configuration, in place,
        and keeps a copy of the configuration. */
    constructor (config: ProviderConfig, utils: Utils)
      modifies config
      ensures config.networkConfig == old(config.networkConfig).(baseUrl := NormalizeBaseUrl(old(config.networkConfig.baseUrl)))
      ensures config.sendBackRawResponse == old(config.sendBackRawResponse)
      ensures config.customProviderConfig == old(config.customProviderConfig)
      ensures networkConfig == config.networkConfig
      ensures sendBackRawResponse == config.sendBackRawResponse
      ensures customProviderConfig == config.customProviderConfig
      ensures this.utils == utils
      ensures Valid()
    {
      if config.networkConfig.baseUrl == "" {
        config.networkConfig := config.networkConfig.(baseUrl := DefaultBaseUrl);
      }
      config.networkConfig := config.networkConfig.(baseUrl := TrimRight(config.networkConfig.baseUrl, "/"));
      this.utils := utils;
      networkConfig := config.networkConfig;
      sendBackRawResponse := config.sendBackRawResponse;
      customProviderConfig := config.customProviderConfig;
    }

    /** GetProviderKey: the identity this provider reports, which the naming helper derives
        from the Apertus base type and the custom provider configuration alone. The naming
        helper is not part of this model, so the contract is the arguments it is given. */
    function GetProviderKey(): (name: ModelProvider)
      ensures name == utils.getProviderName(Apertus, customProviderConfig)
    {
      utils.getProviderName(Apertus, customProviderConfig)
    }

    /** The policy gate's verdict on a request type: asked about the Apertus base type, not
        the reported identity, together with the custom provider configuration. The gate is
        not part of this model, so the contract is the arguments it is given. */
    function Gate(requestType: RequestType): (verdict: Option<BifrostError>)
      ensures verdict == utils.checkOperationAllowed(Apertus, customProviderConfig, requestType)
    {
      utils.checkOperationAllowed(Apertus, customProviderConfig, requestType)
    }

    /** getBaseURL: the key's endpoint wins, slash-trimmed, over the provider's base URL. */
    function GetBaseUrl(key: Key): (url: string)
      ensures HasEndpoint(key) ==> IsRightTrimmed(key.apertusKeyConfig.value.endpoint, "/", url)
      ensures !HasEndpoint(key) ==> url == networkConfig.baseUrl
      ensures Valid() ==> !EndsWith(url, '/')
    {
      if key.apertusKeyConfig.Some? && key.apertusKeyConfig.value.endpoint != "" then
        TrimRight(key.apertusKeyConfig.value.endpoint, "/")
      else
        networkConfig.baseUrl
    }

    /** buildRequestURL: the key's base URL followed by the (possibly overridden) request path. */
    function BuildRequestUrl(ctx: Context, key: Key, defaultPath: string, requestType: RequestType): (url: string)
      ensures var path := utils.getRequestPath(ctx, defaultPath, customProviderConfig, requestType);
        && (HasEndpoint(key) ==> url == TrimRight(key.apertusKeyConfig.value.endpoint, "/") + path)
        && (!HasEndpoint(key) ==> url == networkConfig.baseUrl + path)
    {
      GetBaseUrl(key) + utils.getRequestPath(ctx, defaultPath, customProviderConfig, requestType)
    }

    /** The entry points TextCompletion ... TranscriptionStream up to the call they make:
        the gate first, then the shared handler with the built URL, or for the audio entry
        points a temporary OpenAI provider aimed at the key's base URL. */
    function Dispatch<R>(ctx: Context, op: Operation, key: Key, request: R): (d: Dispatched<R>)
      ensures d.Rejected? <==> Gate(RequestTypeOf(op)).Some?
      ensures d.Rejected? ==> d.error == Gate(RequestTypeOf(op)).value
      ensures d.Call? && !IsDelegated(op) ==>
        d.target == SharedHandler(
          HandlerFor(op),
          ctx,
          GetBaseUrl(key) + utils.getRequestPath(ctx, DefaultPath(op), customProviderConfig, RequestTypeOf(op)),
          request,
          CredentialsFor(op, key),
          networkConfig.extraHeaders,
          GetProviderKey(),
          utils.shouldSendBackRawResponse(ctx, sendBackRawResponse))
      ensures d.Call? && IsDelegated(op) ==>
        d.target == TemporaryOpenAI(TempConfig(GetBaseUrl(key), networkConfig, sendBackRawResponse), ctx, key, request)
    {
      match Gate(RequestTypeOf(op))
      case Some(err) => Rejected(err)
      case None =>
        if IsDelegated(op) then
          Call(TemporaryOpenAI(TempConfig(GetBaseUrl(key), networkConfig, sendBackRawResponse), ctx, key, request))
        else
          Call(SharedHandler(
            HandlerFor(op),
            ctx,
            BuildRequestUrl(ctx, key, DefaultPath(op), RequestTypeOf(op)),
            request,
            CredentialsFor(op, key),
            networkConfig.extraHeaders,
            GetProviderKey(),
            utils.shouldSendBackRawResponse(ctx, sendBackRawResponse)))
    }

    /** ListModels: no network call; one entry per distinct configured model name, prefixed
        with the provider identity and owned by "system". */
    method ListModels(keys: seq<Key>) returns (response: Option<ListModelsResponse>, err: Option<BifrostError>)
      ensures Gate(ListModelsRequest).Some? ==> response.None? && err == Gate(ListModelsRequest)
      ensures Gate(ListModelsRequest).None? ==> err.None? && response.Some?
      ensures response.Some? ==>
        && response.value.extraFields == ExtraFields(GetProviderKey(), ListModelsRequest, 0)
        && ListsModels(response.value.data, ConfiguredModels(keys), GetProviderKey() + "/", Some("system"))
    {
      var gate := Gate(ListModelsRequest);
      if gate.Some? {
        return None, gate;
      }
      var providerName := GetProviderKey();
      var models := CollectModels(keys);

      var modelInfos := new Model[|models|](_ => Model("", None));
      var ownedBy := "system";
      for i := 0 to |models|
        invariant forall j | 0 <= j < i :: modelInfos[j] == Model(providerName + "/" + models[j], Some(ownedBy))
      {
        modelInfos[i] := Model(providerName + "/" + models[i], Some(ownedBy));
      }

      var data := modelInfos[..];
      ListingDescribesModels(keys, models, providerName + "/", Some(ownedBy), data);
      response := Some(ListModelsResponse(data, ExtraFields(providerName, ListModelsRequest, 0)));
      err := None;
    }

    /** Speech: served by a temporary OpenAI provider; the identity it reports is overwritten
        with this provider's on an error and on a non-nil response. */
    method Speech<R, P>(ctx: Context, key: Key, request: R, openAI: (OpenAIConfig, Context, Key, R) -> Reply<Response<P>>)
      returns (response: Option<Response<P>>, err: Option<BifrostError>)
      ensures Gate(SpeechRequest).Some? ==> response.None? && err == Gate(SpeechRequest)
      ensures Gate(SpeechRequest).None? ==>
        var reply := openAI(TempConfig(GetBaseUrl(key), networkConfig, sendBackRawResponse), ctx, key, request);
        && (reply.err.Some? ==> response.None? && err == Some(ErrorWithProvider(reply.err.value, GetProviderKey())))
        && (reply.err.None? ==> err.None? && response.Some? == reply.value.Some?)
        && (reply.err.None? && reply.value.Some? ==> response.value == ResponseWithProvider(reply.value.value, GetProviderKey()))
      ensures Gate(SpeechRequest).None? ==>
        && (err.Some? ==> err.value.extraFields.provider == GetProviderKey())
        && (response.Some? ==> response.value.extraFields.provider == GetProviderKey())
    {
      var plan := Dispatch(ctx, Operation.Speech, key, request);
      if plan.Rejected? {
        return None, Some(plan.error);
      }
      var reply := openAI(plan.target.config, ctx, key, request);
      if reply.err.Some? {
        var e := reply.err.value;
        e := e.(extraFields := e.extraFields.(provider := GetProviderKey()));
        return None, Some(e);
      }
      response := reply.value;
      if response.Some? {
        var r := response.value;
        r := r.(extraFields := r.extraFields.(provider := GetProviderKey()));
        response := Some(r);
      }
      err := None;
    }

    /** SpeechStream: the temporary OpenAI provider's stream and error are returned as they
        are, with no identity patch. */
    method SpeechStream<R, S>(ctx: Context, key: Key, request: R, openAI: (OpenAIConfig, Context, Key, R) -> Reply<S>)
      returns (stream: Option<S>, err: Option<BifrostError>)
      ensures Gate(SpeechStreamRequest).Some? ==> stream.None? && err == Gate(SpeechStreamRequest)
      ensures Gate(SpeechStreamRequest).None? ==>
        Reply(stream, err) == openAI(TempConfig(GetBaseUrl(key), networkConfig, sendBackRawResponse), ctx, key, request)
    {
      var plan := Dispatch(ctx, Operation.SpeechStream, key, request);
      if plan.Rejected? {
        return None, Some(plan.error);
      }
      var reply := openAI(plan.target.config, ctx, key, request);
      stream, err := reply.value, reply.err;
    }

    /** Transcription: as Speech, for the transcription request type. */
    method Transcription<R, P>(ctx: Context, key: Key, request: R, openAI: (OpenAIConfig, Context, Key, R) -> Reply<Response<P>>)
      returns (response: Option<Response<P>>, err: Option<BifrostError>)
      ensures Gate(TranscriptionRequest).Some? ==> response.None? && err == Gate(TranscriptionRequest)
      ensures Gate(TranscriptionRequest).None? ==>
        var reply := openAI(TempConfig(GetBaseUrl(key), networkConfig, sendBackRawResponse), ctx, key, request);
        && (reply.err.Some? ==> response.None? && err == Some(ErrorWithProvider(reply.err.value, GetProviderKey())))
        && (reply.err.None? ==> err.None? && response.Some? == reply.value.Some?)
        && (reply.err.None? && reply.value.Some? ==> response.value == ResponseWithProvider(reply.value.value, GetProviderKey()))
      ensures Gate(TranscriptionRequest).None? ==>
        && (err.Some? ==> err.value.extraFields.provider == GetProviderKey())
        && (response.Some? ==> response.value.extraFields.provider == GetProviderKey())
    {
      var plan := Dispatch(ctx, Operation.Transcription, key, request);
      if plan.Rejected? {
        return None, Some(plan.error);
      }
      var reply := openAI(plan.target.config, ctx, key, request);
      if reply.err.Some? {
        var e := reply.err.value;
        e := e.(extraFields := e.extraFields.(provider := GetProviderKey()));
        return None, Some(e);
      }
      response := reply.value;
      if response.Some? {
        var r := response.value;
        r := r.(extraFields := r.extraFields.(provider := GetProviderKey()));
        response := Some(r);
      }
      err := None;
    }

    /** TranscriptionStream: as SpeechStream, for the transcription request type. */
    method TranscriptionStream<R, S>(ctx: Context, key: Key, request: R, openAI: (OpenAIConfig, Context, Key, R) -> Reply<S>)
      returns (stream: Option<S>, err: Option<BifrostError>)
      ensures Gate(TranscriptionStreamRequest).Some? ==> stream.None? && err == Gate(TranscriptionStreamRequest)
      ensures Gate(TranscriptionStreamRequest).None? ==>
        Reply(stream, err) == openAI(TempConfig(GetBaseUrl(key), networkConfig, sendBackRawResponse), ctx, key, request)
    {
      var plan := Dispatch(ctx, Operation.TranscriptionStream, key, request);
      if plan.Rejected? {
        return None, Some(plan.error);
      }
      var reply := openAI(plan.target.config, ctx, key, request);
      stream, err := reply.value, reply.err;
    }
  }


  /** The target of a shared-handler entry point: the key's endpoint, slash-trimmed, whatever
      the provider's base URL is; otherwise the provider's base URL; then the request path. */
  lemma TargetUrlResolution<R>(p: ApertusProvider, ctx: Context, op: Operation, key: Key, request: R)
    requires !IsDelegated(op) && p.Gate(RequestTypeOf(op)).None?
    ensures var path := p.utils.getRequestPath(ctx, DefaultPath(op), p.customProviderConfig, RequestTypeOf(op));
      var d := p.Dispatch(ctx, op, key, request);
      && d.Call? && d.target.SharedHandler?
      && (HasEndpoint(key) ==> d.target.url == TrimRight(key.apertusKeyConfig.value.endpoint, "/") + path)
      && (!HasEndpoint(key) ==> d.target.url == p.networkConfig.baseUrl + path)
  {
  }

  /** A key whose endpoint is a host followed by one slash sends a shared-handler request
      to that host followed by the request path, whatever the provider's base URL is. */
  lemma CustomEndpointResolution<R>(p: ApertusProvider, ctx: Context, op: Operation, host: string, key: Key, request: R)
    requires !IsDelegated(op) && p.Gate(RequestTypeOf(op)).None?
    requires host != [] && host[|host|-1] != '/'
    requires key.apertusKeyConfig == Some(ApertusKeyConfig(host + "/"))
    ensures p.Dispatch(ctx, op, key, request).target.url
      == host + p.utils.getRequestPath(ctx, DefaultPath(op), p.customProviderConfig, RequestTypeOf(op))
  {
    TrimRightDropsTail(host, "/", "/");
    TrimRightKeepsTrimmed(host, "/");
    TargetUrlResolution(p, ctx, op, key, request);
  }

  /** A provider configured with an empty base URL, and a key without endpoint, sends chat
      completions to the OpenAI default when no path override applies. */
  method DefaultBaseUrlScenario<R>(utils: Utils, ctx: Context, request: R) returns (url: string)
    requires utils.checkOperationAllowed(Apertus, None, ChatCompletionRequest).None?
    requires utils.getRequestPath(ctx, "/v1/chat/completions", None, ChatCompletionRequest) == "/v1/chat/completions"
    ensures url == "https://api.openai.com/v1/chat/completions"
  {
    var config := new ProviderConfig(NetworkConfig("", map[], 30, 0, 0, 0), false, None);
    var provider := new ApertusProvider(config, utils);
    TrimRightKeepsTrimmed(DefaultBaseUrl, "/");
    assert provider.networkConfig.baseUrl == DefaultBaseUrl;
    var key := Key("key-1", "secret", ["gpt-4o"], None);
    var plan := provider.Dispatch(ctx, ChatCompletion, key, request);
    TargetUrlResolution(provider, ctx, ChatCompletion, key, request);
    url := plan.target.url;
  }
}
