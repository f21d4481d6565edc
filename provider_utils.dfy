/** The provider helpers the Apertus providers call but whose code is not part of this model
    (`CheckOperationAllowed`, `GetRequestPath`, `GetProviderName`, `ShouldSendBackRawResponse`).
    They are carried as function values, so every property proved holds whatever they do. */
module ProviderUtils {
  import opened Wrappers
  import opened Schemas

  /** The request-scoped context; only the helpers read it. */
  datatype Context = Context(values: map<string, string>)

  datatype Utils = Utils(
    /** The policy gate: `Some(err)` rejects the operation. */
    checkOperationAllowed: (ModelProvider, Option<CustomProviderConfig>, RequestType) -> Option<BifrostError>,
    /** The request path to use: the given default path or a configured override. */
    getRequestPath: (Context, string, Option<CustomProviderConfig>, RequestType) -> string,
    /** The identity a provider reports, given its standard identity and custom configuration. */
    getProviderName: (ModelProvider, Option<CustomProviderConfig>) -> ModelProvider,
    /** Whether raw upstream payloads are echoed back, given the provider-level flag. */
    shouldSendBackRawResponse: (Context, bool) -> bool)
}
