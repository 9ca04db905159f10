/**
 * What one request meets at run time. Collaborators are duck-typed in the
 * source (`pipe['use']`, `interceptor['in']`, …); here each object's hooks, as
 * they behave on the request at hand, are given by a `Hooks` value, with None
 * for a hook the object does not have. Asynchronous hooks are awaited, so a
 * hook either produces a value or throws.
 */
module Requests {
  import opened Wrappers
  import opened JsValues
  import opened Registries
  import opened Heaps
  import opened Routes

  /** A hook that returned (or resolved to) a value, or threw (or rejected). */
  datatype Step<T> = Done(value: T) | Raised(thrown: Thrown)

  /**
   * What `controller[handler](req, res)` gives back: a plain value, a promise
   * that resolves to a value, or a throw or rejected promise.
   */
  datatype HandlerResult =
    | Returned(value: Value)
    | Resolved(value: Value)
    | Threw(thrown: Thrown)

  /** What a user middleware does: calls `next()`, ends without calling it, or throws. */
  datatype MiddlewareResult = CallsNext | Stops | Throws(thrown: Thrown)

  datatype Hooks = Hooks(
    useHook: InstId -> Option<Step<Value>>,
    inHook: InstId -> Option<Step<Value>>,
    outHook: InstId -> Option<Value -> Step<Value>>,
    catchHook: InstId -> Option<(Value, Value) -> Step<Value>>,
    middleware: MiddlewareId -> MiddlewareResult,
    validation: Options -> Step<Value>,
    handle: (InstId, string) -> HandlerResult)

  /** One hook invocation, recorded in order. */
  datatype Call =
    | UseCall(pipe: InstId)
    | InCall(interceptor: InstId)
    | MiddlewareCall(middleware: MiddlewareId)
    | ValidateCall(options: Options)
    | HandlerCall(controller: InstId, name: string)
    | OutCall(interceptor: InstId)
    | CatchCall(filter: InstId)

  /** A stage's result together with the hooks it invoked. */
  datatype Run<T> = Run(result: T, calls: seq<Call>)

  /** Puts `c` in front of the calls a later stage made. */
  function After<T>(c: Call, r: Run<T>): Run<T> {
    Run(r.result, [c] + r.calls)
  }

  /**
   * How a request ends: `res.status(s).json(b)`, `res.status(s).send(b)`,
   * nothing written by the chain, or an error propagated out of the chain.
   */
  datatype Outcome =
    | Json(status: Value, body: Value)
    | Text(status: Value, body: Value)
    | NoResponse
    | Unhandled(thrown: Thrown)
}
