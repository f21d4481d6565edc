/** How the two copies of the Apertus provider relate. */
module ApertusVersions {
  import opened ProviderUtils
  import opened ApertusCommon
  import Apertus
  import Providers

  /** The two copies plan the same call for every entry point when they hold the same
      configuration, no request-path override applies and the raw-response setting is not
      overridden by the request context. */
  lemma VersionsAgreeWithoutOverrides<R>(p: Apertus.ApertusProvider, q: Providers.ApertusProvider, ctx: Context, op: Operation, key: Schemas.Key, request: R)
    requires p.utils == q.utils && p.networkConfig == q.networkConfig
    requires p.sendBackRawResponse == q.sendBackRawResponse && p.customProviderConfig == q.customProviderConfig
    requires !IsDelegated(op) ==>
      p.utils.getRequestPath(ctx, DefaultPath(op), p.customProviderConfig, RequestTypeOf(op)) == DefaultPath(op)
    requires p.utils.shouldSendBackRawResponse(ctx, p.sendBackRawResponse) == p.sendBackRawResponse
    ensures p.Dispatch(ctx, op, key, request) == q.Dispatch(ctx, op, key, request)
  {
  }
}
