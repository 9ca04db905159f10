/**
 * The handler chain registered for a leaf, run once per request: the group's
 * pipes, its interceptors' `in` hooks, the group's middlewares, the leaf's
 * validation, the handler, the interceptors' `out` hooks and the choice
 * between a text and a JSON response; a throw at any stage goes to the error
 * translator.
 */
module Pipeline {
  import opened Wrappers
  import opened JsValues
  import opened Registries
  import opened Heaps
  import opened Routes
  import opened Requests
  import opened ErrorTranslator

  /** The `use` hook calls made by `pipes` that have one, in order. */
  function Used(pipes: seq<InstId>, h: Hooks): seq<Call>
    decreases |pipes|
  {
    if pipes == [] then []
    else if h.useHook(pipes[0]).Some? then [UseCall(pipes[0])] + Used(pipes[1..], h)
    else Used(pipes[1..], h)
  }

  /** The `in` hook calls made by `interceptors` that have one, in order. */
  function Entered(interceptors: seq<InstId>, h: Hooks): seq<Call>
    decreases |interceptors|
  {
    if interceptors == [] then []
    else if h.inHook(interceptors[0]).Some? then [InCall(interceptors[0])] + Entered(interceptors[1..], h)
    else Entered(interceptors[1..], h)
  }

  /** The `out` hook calls made by `interceptors` that have one, in order. */
  function Exited(interceptors: seq<InstId>, h: Hooks): seq<Call>
    decreases |interceptors|
  {
    if interceptors == [] then []
    else if h.outHook(interceptors[0]).Some? then [OutCall(interceptors[0])] + Exited(interceptors[1..], h)
    else Exited(interceptors[1..], h)
  }

  /** `applyPipes`: every pipe that has `use`, in registry order, until one throws. */
  function PipesRun(pipes: seq<InstId>, h: Hooks): (r: Run<Step<()>>)
    ensures forall i | 0 <= i < |r.calls| :: r.calls[i].UseCall?
    ensures r.calls <= Used(pipes, h)
    decreases |pipes|
  {
    if pipes == [] then Run(Done(()), [])
    else
      match h.useHook(pipes[0])
      case None => PipesRun(pipes[1..], h)
      case Some(Raised(t)) => Run(Raised(t), [UseCall(pipes[0])])
      case Some(Done(_)) => After(UseCall(pipes[0]), PipesRun(pipes[1..], h))
  }

  /**
   * `applyInterceptorsIn`: every interceptor that has `in`, in registry order;
   * false at the first falsy result, true when none was falsy.
   */
  function InboundRun(interceptors: seq<InstId>, h: Hooks): (r: Run<Step<bool>>)
    ensures forall i | 0 <= i < |r.calls| :: r.calls[i].InCall?
    ensures r.calls <= Entered(interceptors, h)
    decreases |interceptors|
  {
    if interceptors == [] then Run(Done(true), [])
    else
      match h.inHook(interceptors[0])
      case None => InboundRun(interceptors[1..], h)
      case Some(Raised(t)) => Run(Raised(t), [InCall(interceptors[0])])
      case Some(Done(v)) =>
        if !Truthy(v) then Run(Done(false), [InCall(interceptors[0])])
        else After(InCall(interceptors[0]), InboundRun(interceptors[1..], h))
  }

  /** `applyInterceptorsOut`: the `out` hooks folded over the message in registry order. */
  function OutboundRun(interceptors: seq<InstId>, message: Value, h: Hooks): (r: Run<Step<Value>>)
    ensures forall i | 0 <= i < |r.calls| :: r.calls[i].OutCall?
    ensures r.calls <= Exited(interceptors, h)
    decreases |interceptors|
  {
    if interceptors == [] then Run(Done(message), [])
    else
      match h.outHook(interceptors[0])
      case None => OutboundRun(interceptors[1..], message, h)
      case Some(f) =>
        match f(message)
        case Raised(t) => Run(Raised(t), [OutCall(interceptors[0])])
        case Done(m) => After(OutCall(interceptors[0]), OutboundRun(interceptors[1..], m, h))
  }

  /** A falsy or string message is sent as text, anything else as JSON, both with status 200. */
  function Send(message: Value): Outcome {
    if !Truthy(message) || message.Str? then Text(Num(200), message) else Json(Num(200), message)
  }

  /** The handler's value through the `out` hooks (when the group has interceptors) to the response. */
  function ReplyRun(c: Chain, v: Value, h: Hooks): (r: Run<Outcome>)
    requires c.Valid()
    ensures forall i | 0 <= i < |r.calls| :: r.calls[i].OutCall? || r.calls[i].CatchCall?
  {
    var out := if |c.interceptors.keys| > 0 then OutboundRun(c.interceptors.Values(), v, h) else Run(Done(v), []);
    match out.result
    case Raised(t) =>
      var err := ErrorsRun(t, c.filters.Values(), h);
      Run(err.result, out.calls + err.calls)
    case Done(m) => Run(Send(m), out.calls)
  }

  /**
   * The last handler: a plain `undefined` or `null` result ends the chain
   * without a response; any other result, and any promise, is replied with.
   */
  function HandlerRun(c: Chain, h: Hooks): (r: Run<Outcome>)
    requires c.Valid()
    ensures |r.calls| > 0 && r.calls[0] == HandlerCall(c.controller, c.handler)
    ensures forall i | 1 <= i < |r.calls| :: r.calls[i].OutCall? || r.calls[i].CatchCall?
  {
    match h.handle(c.controller, c.handler)
    case Threw(t) => After(HandlerCall(c.controller, c.handler), ErrorsRun(t, c.filters.Values(), h))
    case Returned(v) =>
      if IsNullish(v) then Run(NoResponse, [HandlerCall(c.controller, c.handler)])
      else After(HandlerCall(c.controller, c.handler), ReplyRun(c, v, h))
    case Resolved(v) => After(HandlerCall(c.controller, c.handler), ReplyRun(c, v, h))
  }

  /** The leaf's validation handler, when it has `validate`, then the handler. */
  function LeafRun(c: Chain, h: Hooks): (r: Run<Outcome>)
    requires c.Valid()
    ensures forall i | 0 <= i < |r.calls| :: !r.calls[i].UseCall? && !r.calls[i].InCall? && !r.calls[i].MiddlewareCall?
  {
    match c.validate
    case None => HandlerRun(c, h)
    case Some(o) =>
      match h.validation(o)
      case Raised(t) => After(ValidateCall(o), ErrorsRun(t, c.filters.Values(), h))
      case Done(_) => After(ValidateCall(o), HandlerRun(c, h))
  }

  /** The group's middlewares from `middlewares` on, each continuing only through `next()`. */
  function MiddlewaresRun(middlewares: seq<MiddlewareId>, c: Chain, h: Hooks): (r: Run<Outcome>)
    requires c.Valid()
    ensures forall i | 0 <= i < |r.calls| :: !r.calls[i].UseCall? && !r.calls[i].InCall?
    decreases |middlewares|
  {
    if middlewares == [] then LeafRun(c, h)
    else
      match h.middleware(middlewares[0])
      case Stops => Run(NoResponse, [MiddlewareCall(middlewares[0])])
      case Throws(t) => After(MiddlewareCall(middlewares[0]), ErrorsRun(t, c.filters.Values(), h))
      case CallsNext => After(MiddlewareCall(middlewares[0]), MiddlewaresRun(middlewares[1..], c, h))
  }

  /** One request through the whole chain, starting with the first handler (pipes, then `in` hooks). */
  function Respond(c: Chain, h: Hooks): Run<Outcome>
    requires c.Valid()
  {
    var pipes := PipesRun(c.pipes.Values(), h);
    match pipes.result
    case Raised(t) =>
      var err := ErrorsRun(t, c.filters.Values(), h);
      Run(err.result, pipes.calls + err.calls)
    case Done(_) =>
      var inbound := InboundRun(c.interceptors.Values(), h);
      match inbound.result
      case Raised(t) =>
        var err := ErrorsRun(t, c.filters.Values(), h);
        Run(err.result, pipes.calls + inbound.calls + err.calls)
      case Done(passed) =>
        if !passed then Run(NoResponse, pipes.calls + inbound.calls)
        else
          var rest := MiddlewaresRun(c.middlewares, c, h);
          Run(rest.result, pipes.calls + inbound.calls + rest.calls)
  }

  /** `applyPipes`, the loop over the pipes registry. */
  method ApplyPipes(pipes: Registry, h: Hooks) returns (r: Step<()>)
    requires pipes.Valid()
    ensures r == PipesRun(pipes.Values(), h).result
  {
    ghost var ps := pipes.Values();
    var i := 0;
    while i < |pipes.keys|
      invariant 0 <= i <= |pipes.keys|
      invariant PipesRun(ps[i..], h).result == PipesRun(ps, h).result
    {
      var pipe := pipes.inst[pipes.keys[i]];
      assert ps[i..][0] == pipe && ps[i..][1..] == ps[i + 1..];
      var hook := h.useHook(pipe);
      if hook.Some? && hook.value.Raised? {
        return Raised(hook.value.thrown);
      }
      i := i + 1;
    }
    r := Done(());
  }

  /** `applyInterceptorsIn`, the loop over the interceptors registry. */
  method ApplyInterceptorsIn(interceptors: Registry, h: Hooks) returns (r: Step<bool>)
    requires interceptors.Valid()
    ensures r == InboundRun(interceptors.Values(), h).result
  {
    ghost var xs := interceptors.Values();
    var i := 0;
    while i < |interceptors.keys|
      invariant 0 <= i <= |interceptors.keys|
      invariant InboundRun(xs[i..], h).result == InboundRun(xs, h).result
    {
      var interceptor := interceptors.inst[interceptors.keys[i]];
      assert xs[i..][0] == interceptor && xs[i..][1..] == xs[i + 1..];
      var hook := h.inHook(interceptor);
      if hook.Some? {
        match hook.value {
          case Raised(t) => return Raised(t);
          case Done(v) =>
            if !Truthy(v) {
              return Done(false);
            }
        }
      }
      i := i + 1;
    }
    r := Done(true);
  }

  /** `applyInterceptorsOut`, the loop that threads `message` through the `out` hooks. */
  method ApplyInterceptorsOut(interceptors: Registry, message: Value, h: Hooks) returns (r: Step<Value>)
    requires interceptors.Valid()
    ensures r == OutboundRun(interceptors.Values(), message, h).result
  {
    ghost var xs := interceptors.Values();
    var current := message;
    var i := 0;
    while i < |interceptors.keys|
      invariant 0 <= i <= |interceptors.keys|
      invariant OutboundRun(xs[i..], current, h).result == OutboundRun(xs, message, h).result
    {
      var interceptor := interceptors.inst[interceptors.keys[i]];
      assert xs[i..][0] == interceptor && xs[i..][1..] == xs[i + 1..];
      var hook := h.outHook(interceptor);
      if hook.Some? {
        var interceptorResult := hook.value(current);
        match interceptorResult {
          case Raised(t) => return Raised(t);
          case Done(m) => current := m;
        }
      }
      i := i + 1;
    }
    r := Done(current);
  }

  /** Sends the handler's value, through the `out` hooks when the group has interceptors. */
  method Reply(c: Chain, v: Value, h: Hooks) returns (o: Outcome)
    requires c.Valid()
    ensures o == ReplyRun(c, v, h).result
  {
    var outMessage := Done(v);
    if |c.interceptors.keys| > 0 {
      outMessage := ApplyInterceptorsOut(c.interceptors, v, h);
    }
    match outMessage {
      case Raised(t) => o := HandleErrors(t, c.filters, h);
      case Done(m) => o := Send(m);
    }
  }

  /** One request through the handler chain of a leaf. */
  method Serve(c: Chain, h: Hooks) returns (o: Outcome)
    requires c.Valid()
    ensures o == Respond(c, h).result
  {
    // the first handler: pipes, then the inbound interceptors
    var piped := ApplyPipes(c.pipes, h);
    if piped.Raised? {
      o := HandleErrors(piped.thrown, c.filters, h);
      return;
    }
    var passed := ApplyInterceptorsIn(c.interceptors, h);
    if passed.Raised? {
      o := HandleErrors(passed.thrown, c.filters, h);
      return;
    }
    if !passed.value {
      return NoResponse;
    }
    // one handler per group middleware
    var i := 0;
    while i < |c.middlewares|
      invariant 0 <= i <= |c.middlewares|
      invariant MiddlewaresRun(c.middlewares[i..], c, h).result == MiddlewaresRun(c.middlewares, c, h).result
    {
      assert c.middlewares[i..][0] == c.middlewares[i] && c.middlewares[i..][1..] == c.middlewares[i + 1..];
      match h.middleware(c.middlewares[i]) {
        case Stops => return NoResponse;
        case Throws(t) =>
          o := HandleErrors(t, c.filters, h);
          return;
        case CallsNext =>
      }
      i := i + 1;
    }
    // the leaf's validation handler
    if c.validate.Some? {
      var validated := h.validation(c.validate.value);
      if validated.Raised? {
        o := HandleErrors(validated.thrown, c.filters, h);
        return;
      }
    }
    // the handler
    var result := h.handle(c.controller, c.handler);
    match result {
      case Threw(t) => o := HandleErrors(t, c.filters, h);
      case Returned(v) =>
        if IsNullish(v) {
          return NoResponse;
        }
        o := Reply(c, v, h);
      case Resolved(v) => o := Reply(c, v, h);
    }
  }

  /** The calls a request makes once the pipes are done: no pipe's `use` is among them. */
  function AfterPipes(c: Chain, h: Hooks): (calls: seq<Call>)
    requires c.Valid()
    ensures forall i | 0 <= i < |calls| :: !calls[i].UseCall?
  {
    match PipesRun(c.pipes.Values(), h).result
    case Raised(t) => ErrorsRun(t, c.filters.Values(), h).calls
    case Done(_) =>
      var inbound := InboundRun(c.interceptors.Values(), h);
      match inbound.result
      case Raised(t) => inbound.calls + ErrorsRun(t, c.filters.Values(), h).calls
      case Done(passed) => if passed then inbound.calls + MiddlewaresRun(c.middlewares, c, h).calls else inbound.calls
  }

  lemma RespondSplits(c: Chain, h: Hooks)
    requires c.Valid()
    ensures Respond(c, h).calls == PipesRun(c.pipes.Values(), h).calls + AfterPipes(c, h)
  {
    var pipes := PipesRun(c.pipes.Values(), h);
    match pipes.result
    case Raised(t) =>
    case Done(_) =>
      var inbound := InboundRun(c.interceptors.Values(), h);
      match inbound.result
      case Raised(t) =>
        assert pipes.calls + inbound.calls + ErrorsRun(t, c.filters.Values(), h).calls
          == pipes.calls + (inbound.calls + ErrorsRun(t, c.filters.Values(), h).calls);
      case Done(passed) =>
        if passed {
          assert pipes.calls + inbound.calls + MiddlewaresRun(c.middlewares, c, h).calls
            == pipes.calls + (inbound.calls + MiddlewaresRun(c.middlewares, c, h).calls);
        }
  }

  /** Pipes run before any other hook of the chain: every call ahead of a pipe's `use` is a pipe's `use`. */
  lemma PipesComeFirst(c: Chain, h: Hooks)
    requires c.Valid()
    ensures var calls := Respond(c, h).calls;
      forall j, k | 0 <= j < k < |calls| && calls[k].UseCall? :: calls[j].UseCall?
  {
    RespondSplits(c, h);
    var pipes := PipesRun(c.pipes.Values(), h).calls;
    var rest := AfterPipes(c, h);
    var calls := Respond(c, h).calls;
    assert forall i | |pipes| <= i < |calls| :: calls[i] == rest[i - |pipes|];
    assert forall i | 0 <= i < |pipes| :: calls[i] == pipes[i];
  }

  /**
   * A pipe that throws ends the chain in the error translator: no interceptor's
   * `in`, no middleware and no handler is called.
   */
  lemma PipeFailureSkipsRest(c: Chain, h: Hooks)
    requires c.Valid() && PipesRun(c.pipes.Values(), h).result.Raised?
    ensures Respond(c, h).result == ErrorsRun(PipesRun(c.pipes.Values(), h).result.thrown, c.filters.Values(), h).result
    ensures forall call | call in Respond(c, h).calls :: call.UseCall? || call.CatchCall?
  {
  }

  /** The `use` hook of `x` returns, or `x` has none. */
  predicate PassesPipe(x: InstId, h: Hooks) {
    h.useHook(x).None? || h.useHook(x).value.Done?
  }

  /** When no pipe's `use` throws, every pipe that has `use` is called once, in registry order, and the stage passes. */
  lemma {:induction false} PipesAllRun(pipes: seq<InstId>, h: Hooks)
    requires forall j | 0 <= j < |pipes| :: PassesPipe(pipes[j], h)
    ensures PipesRun(pipes, h) == Run(Done(()), Used(pipes, h))
    decreases |pipes|
  {
    if pipes != [] {
      assert PassesPipe(pipes[0], h);
      assert forall j | 0 <= j < |pipes[1..]| :: pipes[1..][j] == pipes[j + 1];
      PipesAllRun(pipes[1..], h);
    }
  }

  /**
   * The first pipe whose `use` throws ends the stage with its error, after the
   * `use` hooks before it and its own were called.
   */
  lemma {:induction false} PipeThrowStops(pipes: seq<InstId>, h: Hooks, k: nat)
    requires k < |pipes|
    requires h.useHook(pipes[k]).Some? && h.useHook(pipes[k]).value.Raised?
    requires forall j | 0 <= j < k :: PassesPipe(pipes[j], h)
    ensures PipesRun(pipes, h) == Run(Raised(h.useHook(pipes[k]).value.thrown), Used(pipes[..k + 1], h))
    decreases k
  {
    if k == 0 {
      assert pipes[..1] == [pipes[0]];
    } else {
      assert PassesPipe(pipes[0], h);
      PipeThrowStops(pipes[1..], h, k - 1);
      assert pipes[..k + 1][1..] == pipes[1..][..k];
    }
  }

  /** The `in` hook of `x` returns a truthy value, or `x` has none. */
  predicate LetsThrough(x: InstId, h: Hooks) {
    var hook := h.inHook(x);
    hook.None? || (hook.value.Done? && Truthy(hook.value.value))
  }

  /**
   * The inbound stage stops at the first falsy `in` result: it answers false,
   * and only the hooks up to and including that one were called.
   */
  lemma {:induction false} InboundStopsAtFirstFalsy(interceptors: seq<InstId>, h: Hooks, k: nat)
    requires k < |interceptors|
    requires h.inHook(interceptors[k]).Some? && h.inHook(interceptors[k]).value.Done?
    requires !Truthy(h.inHook(interceptors[k]).value.value)
    requires forall j | 0 <= j < k :: LetsThrough(interceptors[j], h)
    ensures InboundRun(interceptors, h) == Run(Done(false), Entered(interceptors[..k + 1], h))
    decreases k
  {
    if k == 0 {
      assert interceptors[..1] == [interceptors[0]];
    } else {
      assert LetsThrough(interceptors[0], h);
      InboundStopsAtFirstFalsy(interceptors[1..], h, k - 1);
      assert interceptors[..k + 1][1..] == interceptors[1..][..k];
    }
  }

  /**
   * When every `in` hook answers truthy, every interceptor that has `in` is
   * called once, in registry order, and the stage lets the request through.
   */
  lemma {:induction false} InboundAllPass(interceptors: seq<InstId>, h: Hooks)
    requires forall j | 0 <= j < |interceptors| :: LetsThrough(interceptors[j], h)
    ensures InboundRun(interceptors, h) == Run(Done(true), Entered(interceptors, h))
    decreases |interceptors|
  {
    if interceptors != [] {
      assert LetsThrough(interceptors[0], h);
      assert forall j | 0 <= j < |interceptors[1..]| :: interceptors[1..][j] == interceptors[j + 1];
      InboundAllPass(interceptors[1..], h);
    }
  }

  /**
   * The first `in` hook that throws ends the stage with its error, after the
   * hooks before it (all truthy) and its own were called.
   */
  lemma {:induction false} InboundThrowStops(interceptors: seq<InstId>, h: Hooks, k: nat)
    requires k < |interceptors|
    requires h.inHook(interceptors[k]).Some? && h.inHook(interceptors[k]).value.Raised?
    requires forall j | 0 <= j < k :: LetsThrough(interceptors[j], h)
    ensures InboundRun(interceptors, h) == Run(Raised(h.inHook(interceptors[k]).value.thrown), Entered(interceptors[..k + 1], h))
    decreases k
  {
    if k == 0 {
      assert interceptors[..1] == [interceptors[0]];
    } else {
      assert LetsThrough(interceptors[0], h);
      InboundThrowStops(interceptors[1..], h, k - 1);
      assert interceptors[..k + 1][1..] == interceptors[1..][..k];
    }
  }

  /** An `in` hook that answers falsy ends the chain with no response: no middleware, no handler. */
  lemma InterceptorRejectionEndsChain(c: Chain, h: Hooks)
    requires c.Valid()
    requires PipesRun(c.pipes.Values(), h).result.Done?
    requires InboundRun(c.interceptors.Values(), h).result == Done(false)
    ensures Respond(c, h).result == NoResponse
    ensures forall call | call in Respond(c, h).calls :: call.UseCall? || call.InCall?
  {
  }

  /**
   * The `out` hooks compose left to right: running `first + second` is running
   * `first`, then `second` on its message, with a throw ending the fold.
   */
  lemma {:induction false} OutboundComposes(first: seq<InstId>, second: seq<InstId>, message: Value, h: Hooks)
    ensures OutboundRun(first + second, message, h).result ==
      match OutboundRun(first, message, h).result
      case Raised(t) => Raised(t)
      case Done(m) => OutboundRun(second, m, h).result
    decreases |first|
  {
    if first != [] {
      assert (first + second)[0] == first[0] && (first + second)[1..] == first[1..] + second;
      match h.outHook(first[0])
      case None => OutboundComposes(first[1..], second, message, h);
      case Some(f) =>
        match f(message)
        case Raised(t) =>
        case Done(m) => OutboundComposes(first[1..], second, m, h);
    } else {
      assert first + second == second;
    }
  }

  /** With `out` hooks A then B that both return, the final message is B(A(result)). */
  lemma TwoOutHooks(a: InstId, b: InstId, message: Value, h: Hooks)
    requires h.outHook(a).Some? && h.outHook(b).Some?
    requires h.outHook(a).value(message).Done?
    ensures OutboundRun([a, b], message, h).result ==
      h.outHook(b).value(h.outHook(a).value(message).value)
  {
    assert [a, b][1..] == [b];
    assert [b][1..] == [];
    var m := h.outHook(a).value(message).value;
    assert OutboundRun([a, b], message, h).result == OutboundRun([b], m, h).result;
    match h.outHook(b).value(m)
    case Raised(t) =>
    case Done(m') => assert OutboundRun([b], m, h).result == OutboundRun([], m', h).result;
  }

  /** The request passes every stage before the handler: pipes, `in` hooks, middlewares, validation. */
  ghost predicate Admitted(c: Chain, h: Hooks)
    requires c.Valid()
  {
    && PipesRun(c.pipes.Values(), h).result.Done?
    && InboundRun(c.interceptors.Values(), h).result == Done(true)
    && (forall i | 0 <= i < |c.middlewares| :: h.middleware(c.middlewares[i]) == CallsNext)
    && (c.validate.Some? ==> h.validation(c.validate.value).Done?)
  }

  lemma {:induction false} MiddlewaresPass(middlewares: seq<MiddlewareId>, c: Chain, h: Hooks)
    requires c.Valid()
    requires forall i | 0 <= i < |middlewares| :: h.middleware(middlewares[i]) == CallsNext
    ensures MiddlewaresRun(middlewares, c, h).result == LeafRun(c, h).result
    decreases |middlewares|
  {
    if middlewares != [] {
      assert h.middleware(middlewares[0]) == CallsNext;
      assert forall i | 0 <= i < |middlewares[1..]| :: middlewares[1..][i] == middlewares[i + 1];
      MiddlewaresPass(middlewares[1..], c, h);
    }
  }

  /**
   * Once admitted, the handler decides: a throw goes to the error translator,
   * a plain `undefined`/`null` gets no response, and any other value (or any
   * promise's value) is sent; without interceptors a falsy or string value is
   * sent as text, anything else as JSON, both with status 200.
   */
  lemma HandlerDecides(c: Chain, h: Hooks)
    requires c.Valid() && Admitted(c, h)
    ensures var o := Respond(c, h).result;
      match h.handle(c.controller, c.handler)
      case Threw(t) => o == ErrorsRun(t, c.filters.Values(), h).result
      case Returned(v) =>
        if IsNullish(v) then o == NoResponse
        else o == ReplyRun(c, v, h).result && (|c.interceptors.keys| == 0 ==> o == Send(v))
      case Resolved(v) => o == ReplyRun(c, v, h).result && (|c.interceptors.keys| == 0 ==> o == Send(v))
  {
    MiddlewaresPass(c.middlewares, c, h);
  }

  /**
   * A handler whose promise resolves to `undefined` is not caught by the
   * `result == undefined` test, which looks at the promise: without
   * interceptors the chain sends an empty text response with status 200.
   */
  lemma AsyncUndefinedIsSent(c: Chain, h: Hooks)
    requires c.Valid() && Admitted(c, h)
    requires h.handle(c.controller, c.handler) == Resolved(Undefined)
    requires |c.interceptors.keys| == 0
    ensures Respond(c, h).result == Text(Num(200), Undefined)
  {
    HandlerDecides(c, h);
  }
}
