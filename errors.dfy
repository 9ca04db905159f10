/**
 * `handleErrors`: the translation of an error thrown inside a handler chain
 * into a response, through the group's filters.
 */
module ErrorTranslator {
  import opened Wrappers
  import opened JsValues
  import opened Registries
  import opened Requests

  /** Only errors whose `name` is "HttpException" are translated. */
  predicate Classified(e: Thrown) {
    e.name == Str(HTTP_EXCEPTION)
  }

  /** `{message: e.message, statusCode: e.statusCode}`. */
  function DefaultPayload(e: Thrown): Value {
    Obj(map["message" := e.message, "statusCode" := e.statusCode])
  }

  /** `filterOut.out == true || filterOut.out == "json"`, for a payload that has an `out`. */
  predicate AsksJson(payload: Value) {
    HasOwn(payload, "out") && (LooselyTrue(Prop(payload, "out")) || LooselyWord(Prop(payload, "out"), "json"))
  }

  /** A filter payload `{out: "01"}` asks for JSON, as `"01" == true` holds. */
  lemma NumeralOutAsksJson()
    ensures AsksJson(Obj(map["out" := Str("01")]))
  {
    LeadingZeroEqualsTrue();
  }

  /** `filterOut.out == "text"`, for a payload that has an `out`. */
  predicate AsksText(payload: Value) {
    HasOwn(payload, "out") && LooselyWord(Prop(payload, "out"), "text")
  }

  /** The catch hook calls made by `filters` that have one, in order. */
  function Catching(filters: seq<InstId>, h: Hooks): seq<Call>
    decreases |filters|
  {
    if filters == [] then []
    else if h.catchHook(filters[0]).Some? then [CatchCall(filters[0])] + Catching(filters[1..], h)
    else Catching(filters[1..], h)
  }

  /**
   * The filter loop from `filters` on, with `payload` the current `filterOut`.
   * It calls catch hooks only, in filter order and once each at most, and always ends in a
   * response with the error's status or in an error propagated from a filter.
   */
  function CatchRun(filters: seq<InstId>, e: Thrown, payload: Value, h: Hooks): (r: Run<Outcome>)
    ensures forall i | 0 <= i < |r.calls| :: r.calls[i].CatchCall?
    ensures r.calls <= Catching(filters, h)
    ensures r.result.Json? || r.result.Text? || r.result.Unhandled?
    ensures (r.result.Json? || r.result.Text?) ==> r.result.status == e.statusCode
    decreases |filters|
  {
    if filters == [] then Run(Json(e.statusCode, payload), [])
    else
      match h.catchHook(filters[0])
      case None => CatchRun(filters[1..], e, payload, h)
      case Some(f) =>
        match f(e.message, e.statusCode)
        case Raised(t) => Run(Unhandled(t), [CatchCall(filters[0])])
        case Done(res) =>
          if !Truthy(res) then After(CatchCall(filters[0]), CatchRun(filters[1..], e, payload, h))
          else if AsksJson(res) then Run(Json(e.statusCode, res), [CatchCall(filters[0])])
          else if AsksText(res) then Run(Text(e.statusCode, Prop(res, "message")), [CatchCall(filters[0])])
          else After(CatchCall(filters[0]), CatchRun(filters[1..], e, res, h))
  }

  /** One filter's turn in `CatchRun`, as far as the outcome goes. */
  lemma CatchStep(filters: seq<InstId>, rest: seq<InstId>, e: Thrown, payload: Value, h: Hooks)
    requires filters != [] && rest == filters[1..]
    ensures CatchRun(filters, e, payload, h).result ==
      match h.catchHook(filters[0])
      case None => CatchRun(rest, e, payload, h).result
      case Some(f) =>
        match f(e.message, e.statusCode)
        case Raised(t) => Unhandled(t)
        case Done(res) =>
          if !Truthy(res) then CatchRun(rest, e, payload, h).result
          else if AsksJson(res) then Json(e.statusCode, res)
          else if AsksText(res) then Text(e.statusCode, Prop(res, "message"))
          else CatchRun(rest, e, res, h).result
  {
  }

  /** `handleErrors(e, res)` with the group's filters in registry order. */
  function ErrorsRun(e: Thrown, filters: seq<InstId>, h: Hooks): Run<Outcome> {
    if Classified(e) then CatchRun(filters, e, DefaultPayload(e), h)
    else Run(Unhandled(e), [])
  }

  /** `handleErrors`, as the loop over the filters registry that threads `filterOut`. */
  method HandleErrors(e: Thrown, filters: Registry, h: Hooks) returns (o: Outcome)
    requires filters.Valid()
    ensures o == ErrorsRun(e, filters.Values(), h).result
  {
    if !Classified(e) {
      return Unhandled(e);
    }
    ghost var fs := filters.Values();
    var filterOut := DefaultPayload(e);
    var i := 0;
    while i < |filters.keys|
      invariant 0 <= i <= |filters.keys|
      invariant CatchRun(fs[i..], e, filterOut, h).result == ErrorsRun(e, fs, h).result
    {
      var filter := filters.inst[filters.keys[i]];
      assert fs[i..][0] == filter;
      CatchStep(fs[i..], fs[i + 1..], e, filterOut, h);
      match h.catchHook(filter) {
        case None =>
        case Some(f) =>
          var filterResult := f(e.message, e.statusCode);
          match filterResult {
            case Raised(t) =>
              return Unhandled(t);
            case Done(res) =>
              if Truthy(res) {
                filterOut := res;
                if AsksJson(filterOut) {
                  return Json(e.statusCode, filterOut);
                }
                if AsksText(filterOut) {
                  return Text(e.statusCode, Prop(filterOut, "message"));
                }
              }
          }
      }
      i := i + 1;
    }
    o := Json(e.statusCode, filterOut);
  }

  /** No filter's catch hook throws on this error. */
  ghost predicate FiltersReturn(filters: seq<InstId>, e: Thrown, h: Hooks) {
    forall i | 0 <= i < |filters| ::
      h.catchHook(filters[i]).Some? ==> h.catchHook(filters[i]).value(e.message, e.statusCode).Done?
  }

  /**
   * The translator's decision table: an unclassified error is propagated with
   * no filter called; a classified one gets a JSON or text response with the
   * error's own status, and always does when no filter throws.
   */
  lemma {:induction false} Translation(e: Thrown, filters: seq<InstId>, h: Hooks)
    ensures !Classified(e) ==> ErrorsRun(e, filters, h) == Run(Unhandled(e), [])
    ensures Classified(e) ==>
      var o := ErrorsRun(e, filters, h).result;
      (o.Json? || o.Text? || o.Unhandled?) && (o.Json? || o.Text? ==> o.status == e.statusCode)
    ensures Classified(e) && FiltersReturn(filters, e, h) ==> ErrorsRun(e, filters, h).result.Json? || ErrorsRun(e, filters, h).result.Text?
  {
    if Classified(e) && FiltersReturn(filters, e, h) {
      FiltersReturnAnswer(filters, e, DefaultPayload(e), h);
    }
  }

  lemma {:induction false} FiltersReturnAnswer(filters: seq<InstId>, e: Thrown, payload: Value, h: Hooks)
    requires FiltersReturn(filters, e, h)
    ensures CatchRun(filters, e, payload, h).result.Json? || CatchRun(filters, e, payload, h).result.Text?
    decreases |filters|
  {
    if filters != [] {
      assert FiltersReturn(filters[1..], e, h) by {
        forall i | 0 <= i < |filters[1..]| ensures filters[1..][i] == filters[i + 1] { }
      }
      FiltersReturnAnswer(filters[1..], e, payload, h);
      match h.catchHook(filters[0])
      case None =>
      case Some(f) =>
        assert f(e.message, e.statusCode).Done?;
        FiltersReturnAnswer(filters[1..], e, f(e.message, e.statusCode).value, h);
    }
  }

  /** What filter `x`'s catch hook gives for error `e`, or None when it has none. */
  function Caught(x: InstId, e: Thrown, h: Hooks): Option<Step<Value>> {
    match h.catchHook(x)
    case None => None
    case Some(f) => Some(f(e.message, e.statusCode))
  }

  /** The catch hook of `x` returned a truthy payload that names an output mode. */
  predicate NamesMode(x: InstId, e: Thrown, h: Hooks) {
    var c := Caught(x, e, h);
    c.Some? && c.value.Done? && Truthy(c.value.value) && (AsksJson(c.value.value) || AsksText(c.value.value))
  }

  /** None of `filters` throws or returns a payload that names an output mode. */
  ghost predicate NoModeNamed(filters: seq<InstId>, e: Thrown, h: Hooks) {
    forall i | 0 <= i < |filters| ::
      (Caught(filters[i], e, h).Some? ==> Caught(filters[i], e, h).value.Done?) && !NamesMode(filters[i], e, h)
  }

  /** `filterOut` after filter `x`: its catch result when truthy, otherwise unchanged. */
  function Pick(x: InstId, e: Thrown, payload: Value, h: Hooks): Value {
    var c := Caught(x, e, h);
    if c.Some? && c.value.Done? && Truthy(c.value.value) then c.value.value else payload
  }

  /** The last truthy catch result among `filters`, or `payload` when there is none. */
  function LastTruthy(filters: seq<InstId>, e: Thrown, payload: Value, h: Hooks): Value
    decreases |filters|
  {
    if filters == [] then payload
    else Pick(filters[|filters| - 1], e, LastTruthy(filters[..|filters| - 1], e, payload, h), h)
  }

  lemma {:induction false} LastTruthyFirst(filters: seq<InstId>, e: Thrown, payload: Value, h: Hooks)
    requires filters != []
    ensures LastTruthy(filters, e, payload, h) == LastTruthy(filters[1..], e, Pick(filters[0], e, payload, h), h)
    decreases |filters|
  {
    var n := |filters|;
    if n > 1 {
      var init := filters[..n - 1];
      LastTruthyFirst(init, e, payload, h);
      assert init[1..] == filters[1..][..n - 2];
      assert filters[1..][n - 2] == filters[n - 1];
    }
  }

  /**
   * When no filter throws or names an output mode, the response is JSON with the
   * error's status and the last truthy payload a filter returned (the default
   * `{message, statusCode}` when none did).
   */
  lemma {:induction false} LastTruthyWins(filters: seq<InstId>, e: Thrown, payload: Value, h: Hooks)
    requires NoModeNamed(filters, e, h)
    ensures CatchRun(filters, e, payload, h).result == Json(e.statusCode, LastTruthy(filters, e, payload, h))
    decreases |filters|
  {
    if filters != [] {
      assert NoModeNamed(filters[1..], e, h) by {
        forall i | 0 <= i < |filters[1..]| ensures filters[1..][i] == filters[i + 1] { }
      }
      assert Caught(filters[0], e, h).Some? ==> Caught(filters[0], e, h).value.Done?;
      assert !NamesMode(filters[0], e, h);
      LastTruthyWins(filters[1..], e, Pick(filters[0], e, payload, h), h);
      LastTruthyFirst(filters, e, payload, h);
    }
  }

  /**
   * The first filter whose payload names an output mode decides the response,
   * provided no earlier filter threw: JSON of that payload for `true`/"json",
   * its `message` as text for "text", with the error's status either way.
   */
  lemma {:induction false} FirstModeDecides(filters: seq<InstId>, e: Thrown, payload: Value, h: Hooks, k: nat)
    requires k < |filters| && NamesMode(filters[k], e, h)
    requires NoModeNamed(filters[..k], e, h)
    ensures var res := Caught(filters[k], e, h).value.value;
      CatchRun(filters, e, payload, h).result ==
        if AsksJson(res) then Json(e.statusCode, res) else Text(e.statusCode, Prop(res, "message"))
    decreases k
  {
    if k > 0 {
      assert filters[..k][0] == filters[0];
      assert filters[1..][..k - 1] == filters[..k][1..];
      FirstModeDecides(filters[1..], e, Pick(filters[0], e, payload, h), h, k - 1);
    }
  }
}
