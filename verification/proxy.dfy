/**
 The data model of cache-empty notifications: requests, responses, errors,
 contexts, and the abstract proxy through which a backend is called.
 */
module Proxy {
  import opened Wrappers

  /** What `ctx.Err()` reports once a context is done. */
  datatype CtxCause = Canceled | DeadlineExceeded

  /** A Go `error` value: either a context error or any other failure. */
  datatype Error = ContextError(cause: CtxCause) | Failure(message: string)

  /** The sentinel error the handler declares; the handler itself never returns it. */
  const ErrLockTimeout: Error := Failure("timeout waiting for cache empty lock")

  /**
   A caller's context. `id` identifies the context (it may carry values a
   backend looks at); `cause` is `Some` once the context is done.
   */
  datatype Context = Context(id: nat, cause: Option<CtxCause>) {
    /** `ctx.Err()`: nil while the context is live. */
    function Err(): (e: Option<Error>)
      ensures e.Some? <==> cause.Some?
      ensures e.Some? ==> e.value.ContextError? && e.value.cause == cause.value
    {
      if cause.Some? then Some(ContextError(cause.value)) else None
    }
  }

  /** The notification sent to a backend: only the channel name. */
  datatype NotifyRequest = NotifyRequest(channel: string)

  /** The backend's verdict; the zero value has `populated == false`. */
  datatype NotifyResult = NotifyResult(populated: bool)

  /** A response whose `result` pointer may be nil. */
  datatype NotifyResponse = NotifyResponse(result: Option<NotifyResult>)

  /** The response synthesized when no backend is configured: a non-nil, zero-valued result. */
  const EmptyResponse: NotifyResponse := NotifyResponse(Some(NotifyResult(false)))

  /** What one proxy call yields: a (possibly nil) response, or a non-nil error. */
  datatype CallResult = Answered(response: Option<NotifyResponse>) | Failed(error: Error)

  /** The backend call behind a proxy, as a function of the caller's context and the request. */
  type ProxyFn = (Context, NotifyRequest) -> CallResult

  /**
   A value satisfying the `CacheEmptyProxy` interface: the call itself and
   the three static properties used for logging and request building.
   */
  datatype CacheEmptyProxy = CacheEmptyProxy(
    call: ProxyFn,
    protocol: string,
    useBase64: bool,
    includeMeta: bool)

  /** Registered proxies by name; `None` is a nil entry. */
  type Registry = map<string, Option<CacheEmptyProxy>>

  /** The `(response, error)` pair returned by the handler. */
  datatype Reply = Reply(response: Option<NotifyResponse>, error: Option<Error>)

  /** True when no registered proxy ever fails with error `e`, whatever it is asked. */
  ghost predicate NeverFailsWith(registry: Registry, e: Error) {
    forall name, ctx, req | name in registry && registry[name].Some? ::
      registry[name].value.call(ctx, req) != Failed(e)
  }
}
