/** The data types of the `schemas` package that the core reads and writes. Only the fields
    the core touches are kept. */
module Schemas {
  import opened Wrappers

  /** A provider identity as reported in responses and errors. */
  type ModelProvider = string

  /** The identity of the Apertus provider. */
  const Apertus: ModelProvider := "apertus"

  /** The operation kinds the policy gate and the path overrides are keyed by. */
  datatype RequestType =
    | ListModelsRequest
    | TextCompletionRequest | TextCompletionStreamRequest
    | ChatCompletionRequest | ChatCompletionStreamRequest
    | ResponsesRequest | ResponsesStreamRequest
    | EmbeddingRequest
    | SpeechRequest | SpeechStreamRequest
    | TranscriptionRequest | TranscriptionStreamRequest

  /** Metadata attached to every response and error. */
  datatype ExtraFields = ExtraFields(provider: ModelProvider, requestType: RequestType, latency: int)

  /** An error as handed back to callers. */
  datatype BifrostError = BifrostError(message: string, extraFields: ExtraFields)

  /** A response whose body is of type `P` (speech audio, a transcript, ...). */
  datatype Response<P> = Response(body: P, extraFields: ExtraFields)

  /** One entry of a model listing. */
  datatype Model = Model(id: string, ownedBy: Option<string>)

  /** The answer to a model-listing request. */
  datatype ListModelsResponse = ListModelsResponse(data: seq<Model>, extraFields: ExtraFields)

  /** The network part of a provider configuration, with the fields the core copies. */
  datatype NetworkConfig = NetworkConfig(
    baseUrl: string,
    extraHeaders: map<string, string>,
    defaultRequestTimeoutInSeconds: int,
    maxRetries: int,
    retryBackoffInitial: int,
    retryBackoffMax: int)

  /** Concurrency limits of a provider. */
  datatype ConcurrencyAndBufferSize = ConcurrencyAndBufferSize(concurrency: int, bufferSize: int)

  /** Proxy settings of a provider, kept as setting name to value. */
  datatype ProxyConfig = ProxyConfig(settings: map<string, string>)

  /** Configuration of a custom provider built on a standard one; `settings` stands for
      its fields other than the base provider type. */
  datatype CustomProviderConfig = CustomProviderConfig(baseProviderType: ModelProvider, settings: map<string, string>)

  /** A provider's configuration as handed to a provider constructor, which updates it in place. */
  class ProviderConfig {
    var networkConfig: NetworkConfig
    var sendBackRawResponse: bool
    var customProviderConfig: Option<CustomProviderConfig>

    constructor (networkConfig: NetworkConfig, sendBackRawResponse: bool, customProviderConfig: Option<CustomProviderConfig>)
      ensures this.networkConfig == networkConfig
      ensures this.sendBackRawResponse == sendBackRawResponse
      ensures this.customProviderConfig == customProviderConfig
    {
      this.networkConfig := networkConfig;
      this.sendBackRawResponse := sendBackRawResponse;
      this.customProviderConfig := customProviderConfig;
    }
  }

  /** Per-key Azure settings. */
  datatype AzureKeyConfig = AzureKeyConfig(endpoint: string, deployments: Option<map<string, string>>, apiVersion: Option<string>)

  /** Per-key Vertex settings. */
  datatype VertexKeyConfig = VertexKeyConfig(projectId: string, region: string, authCredentials: string)

  /** Per-key Bedrock settings. */
  datatype BedrockKeyConfig = BedrockKeyConfig(
    accessKey: string,
    secretKey: string,
    sessionToken: Option<string>,
    region: Option<string>,
    arn: Option<string>,
    deployments: Option<map<string, string>>)

  /** Per-key Apertus settings: only an endpoint overriding the provider's base URL. */
  datatype ApertusKeyConfig = ApertusKeyConfig(endpoint: string)

  /** An API key as the providers see it. */
  datatype Key = Key(id: string, value: string, models: seq<string>, apertusKeyConfig: Option<ApertusKeyConfig>)
}
