/**
 * The request instrumentation of backend/app/observability.py: the wrapper
 * that `wrap_requests` installs around `requests.Session.request` to record
 * every outgoing call into the current request's call list, and the
 * middleware's `dispatch`, which opens that list, classifies the response
 * and feeds the path metrics once per request.
 *
 * Clock readings are parameters (seconds, as `time.perf_counter` returns
 * them); what the wrapped session or the route handler does is given as
 * its outcome.
 */
module CallCapture {
  import opened Wrappers
  import Metrics

  /** `int((t1 - t0) * 1000)`: Python's `int` truncates toward zero. */
  function DurationMs(t0: real, t1: real): (ms: int)
    ensures t0 <= t1 ==> 0 <= ms && ms as real <= (t1 - t0) * 1000.0 < ms as real + 1.0
    ensures t1 < t0 ==> ms <= 0 && ms as real - 1.0 < (t1 - t0) * 1000.0 <= ms as real
  {
    var x := (t1 - t0) * 1000.0;
    if x >= 0.0 then x.Floor else -((-x).Floor)
  }

  /** The status classification shared by the call records and the middleware. */
  predicate Succeeded(status: int) {
    200 <= status < 400
  }

  /** What the original `Session.request` did: returned a response, or raised. */
  datatype SessionOutcome =
    | Responded(statusCode: int)
    | Raised(errorType: string, message: string)

  /** One entry of `ext_api_calls`. */
  datatype CallRecord = CallRecord(
    verb: string,
    url: string,
    status: Option<int>,
    ok: bool,
    durationMs: int,
    error: Option<string>)

  /** The record `_wrapped` completes in its `finally` block. */
  function RecordOf(verb: string, url: string, outcome: SessionOutcome, t0: real, t1: real): (r: CallRecord)
    ensures r.verb == verb && r.url == url && r.durationMs == DurationMs(t0, t1)
    ensures r.ok <==> outcome.Responded? && Succeeded(outcome.statusCode)
    ensures r.status.Some? <==> outcome.Responded?
    ensures outcome.Responded? ==> r.status == Some(outcome.statusCode) && r.error == None
    ensures outcome.Raised? ==> r.error == Some(outcome.errorType + ": " + outcome.message)
  {
    match outcome
    case Responded(code) => CallRecord(verb, url, Some(code), Succeeded(code), DurationMs(t0, t1), None)
    case Raised(kind, msg) => CallRecord(verb, url, None, false, DurationMs(t0, t1), Some(kind + ": " + msg))
  }

  /** A Python list of call records: an object that code holding it could change. */
  class CallList {
    var items: seq<CallRecord>

    constructor(items0: seq<CallRecord>)
      ensures items == items0
    {
      items := items0;
    }
  }

  /**
   * `ext_api_calls_ctx`: the call list bound in the current context, and
   * the one `[]` the variable was declared with, which every context that
   * never set the variable shares.
   */
  class CallContext {
    const default: CallList
    var current: CallList

    /** The shared default is never written to. */
    ghost predicate Valid()
      reads this, default
    {
      default.items == []
    }

    constructor()
      ensures Valid() && current == default && fresh(default)
    {
      var d := new CallList([]);
      default := d;
      current := d;
    }

    /**
     * The context a new task or worker thread starts with: a copy of the
     * bindings, so it is bound to the same list object, while a `set` in
     * it is not seen by the context it was copied from.
     */
    constructor Copy(src: CallContext)
      requires src.Valid()
      ensures default == src.default && current == src.current && Valid()
    {
      default := src.default;
      current := src.current;
    }

    /** `ext_api_calls_ctx.set([])`. */
    method Reset()
      requires Valid()
      modifies this
      ensures Valid() && fresh(current) && current.items == []
    {
      current := new CallList([]);
    }

    /**
     * `new = list(lst); new.append(rec); ext_api_calls_ctx.set(new)`: the
     * context gets a fresh list one record longer, and no existing list,
     * the previous one and the shared default included, changes.
     */
    method Append(rec: CallRecord)
      requires Valid()
      modifies this
      ensures Valid() && fresh(current)
      ensures current.items == old(current.items) + [rec]
      ensures unchanged(old(current)) && unchanged(default)
    {
      var copy := new CallList(current.items);
      copy.items := copy.items + [rec];
      current := copy;
    }

    /**
     * The corrected wrapper: a list bound by the request is extended in
     * place, so every context holding it sees the record; outside a
     * request the shared default is still left alone and a new list is
     * bound instead.
     */
    method AppendInPlace(rec: CallRecord)
      requires Valid()
      modifies this, current
      ensures Valid() && unchanged(default)
      ensures current.items == old(current.items) + [rec]
      ensures old(current) != default ==> current == old(current)
      ensures old(current) == default ==> fresh(current)
    {
      if current == default {
        current := new CallList([rec]);
      } else {
        current.items := current.items + [rec];
      }
    }
  }

  /**
   * `requests.Session.request`, seen as the number of observability
   * wrappers around the original; the outermost one carries the
   * `_wrapped_by_observability` marker.
   */
  class Session {
    var layers: nat

    constructor()
      ensures layers == 0
    {
      layers := 0;
    }

    /** `wrap_requests()`: wraps once, and does nothing when the marker is already there. */
    method WrapRequests()
      modifies this
      ensures layers == Wrapped(old(layers))
    {
      if layers > 0 {
        return;
      }
      layers := layers + 1;
    }

    /**
     * A call through the session: with the wrapper installed it records
     * exactly one entry and hands the outcome (the response, or the
     * re-raised exception) back unchanged; without it nothing is recorded.
     */
    method Request(ctx: CallContext, verb: string, url: string, outcome: SessionOutcome, t0: real, t1: real)
      returns (result: SessionOutcome)
      requires ctx.Valid() && layers <= 1
      modifies ctx
      ensures result == outcome && ctx.Valid()
      ensures layers == 1 ==> ctx.current.items == old(ctx.current.items) + [RecordOf(verb, url, outcome, t0, t1)]
      ensures layers == 0 ==> ctx.current == old(ctx.current)
      ensures unchanged(old(ctx.current)) && unchanged(ctx.default)
    {
      if layers == 1 {
        var rec := RecordOf(verb, url, outcome, t0, t1);
        ctx.Append(rec);
      }
      result := outcome;
    }

    /** A call through the session with the corrected wrapper, which appends in place. */
    method RequestCorrected(ctx: CallContext, verb: string, url: string, outcome: SessionOutcome, t0: real, t1: real)
      returns (result: SessionOutcome)
      requires ctx.Valid() && layers <= 1
      modifies ctx, ctx.current
      ensures result == outcome && ctx.Valid()
      ensures layers == 1 ==> ctx.current.items == old(ctx.current.items) + [RecordOf(verb, url, outcome, t0, t1)]
      ensures layers == 0 ==> ctx.current == old(ctx.current) && ctx.current.items == old(ctx.current.items)
      ensures old(ctx.current) != ctx.default ==> ctx.current == old(ctx.current)
    {
      if layers == 1 {
        var rec := RecordOf(verb, url, outcome, t0, t1);
        ctx.AppendInPlace(rec);
      }
      result := outcome;
    }
  }

  /** The wrapper count after one `wrap_requests()`. */
  function Wrapped(layers: nat): (r: nat)
    ensures r >= 1
  {
    if layers > 0 then layers else layers + 1
  }

  /** The wrapper count after `k` calls of `wrap_requests()`. */
  function WrappedTimes(layers: nat, k: nat): nat
    decreases k
  {
    if k == 0 then layers else WrappedTimes(Wrapped(layers), k - 1)
  }

  /** Wrapping is idempotent: from an unwrapped session, any number of calls leaves exactly one wrapper. */
  lemma {:induction false} WrapIdempotent(k: nat)
    requires k >= 1
    ensures WrappedTimes(0, k) == 1
  {
    var l := Wrapped(0);
    assert l == 1;
    StaysWrapped(1, k - 1);
  }

  lemma {:induction false} StaysWrapped(layers: nat, k: nat)
    requires layers >= 1
    ensures WrappedTimes(layers, k) == layers
  {
    if k > 0 {
      StaysWrapped(Wrapped(layers), k - 1);
    }
  }

  /** One outgoing call the route handler makes through the session. */
  datatype ExtCall = ExtCall(verb: string, url: string, outcome: SessionOutcome, t0: real, t1: real)

  /** What the route handler did: returned a response, or raised. */
  datatype HandlerOutcome = Returned(status: int) | Threw(trace: string)

  /** The `request_summary` log line of one request. */
  datatype Summary = Summary(
    path: string,
    status: int,
    latencyMs: int,
    extCallsCount: nat,
    extCalls: seq<CallRecord>,
    error: Option<string>)

  /** The records the wrapper makes for the calls, in order. */
  function Records(calls: seq<ExtCall>): (r: seq<CallRecord>)
    ensures |r| == |calls|
    ensures forall i :: 0 <= i < |calls| ==>
      r[i] == RecordOf(calls[i].verb, calls[i].url, calls[i].outcome, calls[i].t0, calls[i].t1)
  {
    if calls == [] then []
    else
      var c := calls[|calls| - 1];
      Records(calls[..|calls| - 1]) + [RecordOf(c.verb, c.url, c.outcome, c.t0, c.t1)]
  }

  /** The status `dispatch` reports: the response's, or the initial 500 when the handler raised. */
  function StatusOf(outcome: HandlerOutcome): (s: int)
    ensures outcome.Returned? ==> s == outcome.status
    ensures outcome.Threw? ==> s == 500 && !Succeeded(s)
  {
    if outcome.Returned? then outcome.status else 500
  }

  /**
   * `await call_next(request)` as far as the call list sees it: the
   * handler's outgoing calls go through the session one after the other.
   */
  method RunHandler(session: Session, ctx: CallContext, calls: seq<ExtCall>)
    requires ctx.Valid() && session.layers <= 1
    modifies ctx
    ensures ctx.Valid()
    ensures ctx.current.items == if session.layers == 1 then old(ctx.current.items) + Records(calls) else old(ctx.current.items)
  {
    ghost var start := ctx.current.items;
    var i := 0;
    while i < |calls|
      invariant 0 <= i <= |calls| && ctx.Valid()
      invariant ctx.current.items == if session.layers == 1 then start + Records(calls[..i]) else start
    {
      var c := calls[i];
      var _ := session.Request(ctx, c.verb, c.url, c.outcome, c.t0, c.t1);
      assert calls[..i + 1][..i] == calls[..i];
      i := i + 1;
    }
    assert calls[..i] == calls;
  }

  /** `RunHandler` with the corrected wrapper: the records land in the list the context was bound to. */
  method RunHandlerCorrected(session: Session, ctx: CallContext, calls: seq<ExtCall>)
    requires ctx.Valid() && session.layers <= 1 && ctx.current != ctx.default
    modifies ctx, ctx.current
    ensures ctx.Valid() && ctx.current == old(ctx.current)
    ensures ctx.current.items == if session.layers == 1 then old(ctx.current.items) + Records(calls) else old(ctx.current.items)
  {
    ghost var start := ctx.current.items;
    ghost var list := ctx.current;
    var i := 0;
    while i < |calls|
      invariant 0 <= i <= |calls| && ctx.Valid() && ctx.current == list
      invariant ctx.current.items == if session.layers == 1 then start + Records(calls[..i]) else start
    {
      var c := calls[i];
      var _ := session.RequestCorrected(ctx, c.verb, c.url, c.outcome, c.t0, c.t1);
      assert calls[..i + 1][..i] == calls[..i];
      i := i + 1;
    }
    assert calls[..i] == calls;
  }

  /**
   * `ObservabilityMiddleware.dispatch`: binds an empty call list for the
   * request, runs the handler, then records the request in the path
   * metrics exactly once and returns the summary it logs. The handler runs
   * on a copy of the middleware's context (the task `call_next` starts, or
   * the worker thread of a synchronous endpoint), so the lists the wrapper
   * binds there never reach `dispatch`, which reads back the empty list.
   */
  method Dispatch(registry: Metrics.Registry<string>, session: Session, ctx: CallContext,
                  path: string, calls: seq<ExtCall>, outcome: HandlerOutcome, t0: real, t1: real)
    returns (summary: Summary)
    requires registry.Valid() && ctx.Valid() && session.layers <= 1
    modifies registry, ctx
    ensures registry.Valid() && ctx.Valid()
    ensures summary.path == path && summary.status == StatusOf(outcome)
    ensures summary.latencyMs == DurationMs(t0, t1)
    ensures summary.extCalls == [] && summary.extCallsCount == 0
    ensures summary.error.Some? <==> outcome.Threw?
    ensures registry.metrics == Metrics.UpdateSpec(old(registry.metrics), path, summary.latencyMs, Succeeded(summary.status))
    ensures registry.order == if path in old(registry.order) then old(registry.order) else old(registry.order) + [path]
  {
    ctx.Reset();
    var handlerCtx := new CallContext.Copy(ctx);
    RunHandler(session, handlerCtx, calls);
    summary := Summarize(registry, ctx.current.items, path, outcome, t0, t1);
  }

  /**
   * `dispatch` with the corrected wrapper: the handler's context shares
   * the list bound for the request, so the summary lists exactly this
   * request's outgoing calls.
   */
  method DispatchCorrected(registry: Metrics.Registry<string>, session: Session, ctx: CallContext,
                           path: string, calls: seq<ExtCall>, outcome: HandlerOutcome, t0: real, t1: real)
    returns (summary: Summary)
    requires registry.Valid() && ctx.Valid() && session.layers <= 1
    modifies registry, ctx
    ensures registry.Valid() && ctx.Valid()
    ensures summary.path == path && summary.status == StatusOf(outcome)
    ensures summary.latencyMs == DurationMs(t0, t1)
    ensures summary.extCalls == (if session.layers == 1 then Records(calls) else [])
    ensures summary.extCallsCount == |summary.extCalls|
    ensures summary.error.Some? <==> outcome.Threw?
    ensures registry.metrics == Metrics.UpdateSpec(old(registry.metrics), path, summary.latencyMs, Succeeded(summary.status))
    ensures registry.order == if path in old(registry.order) then old(registry.order) else old(registry.order) + [path]
  {
    ctx.Reset();
    var handlerCtx := new CallContext.Copy(ctx);
    RunHandlerCorrected(session, handlerCtx, calls);
    summary := Summarize(registry, ctx.current.items, path, outcome, t0, t1);
  }

  /** The `finally` block of `dispatch`: one metrics update and the summary line. */
  method Summarize(registry: Metrics.Registry<string>, extCalls: seq<CallRecord>,
                   path: string, outcome: HandlerOutcome, t0: real, t1: real)
    returns (summary: Summary)
    requires registry.Valid()
    modifies registry
    ensures registry.Valid()
    ensures summary == Summary(path, StatusOf(outcome), DurationMs(t0, t1), |extCalls|, extCalls,
                               if outcome.Threw? then Some(outcome.trace) else None)
    ensures registry.metrics == Metrics.UpdateSpec(old(registry.metrics), path, summary.latencyMs, Succeeded(summary.status))
    ensures registry.order == if path in old(registry.order) then old(registry.order) else old(registry.order) + [path]
  {
    var status := 500;
    var error: Option<string> := None;
    match outcome {
      case Returned(s) => status := s;
      case Threw(trace) => error := Some(trace);
    }
    var latencyMs := DurationMs(t0, t1);
    var ok := Succeeded(status);
    registry.Update(path, latencyMs, ok);
    summary := Summary(path, status, latencyMs, |extCalls|, extCalls, error);
  }

  /** A request whose handler raises counts as a failure of its path. */
  lemma ThrowingHandlerCountsAsFailure(st: map<string, Metrics.PathStats>, path: string, trace: string, latencyMs: int)
    ensures var st' := Metrics.UpdateSpec(st, path, latencyMs, Succeeded(StatusOf(Threw(trace))));
      st'[path].fail == (if path in st then st[path].fail else 0) + 1 &&
      st'[path].req == (if path in st then st[path].req else 0) + 1
  {
    var ok := Succeeded(StatusOf(Threw(trace)));
    assert !ok;
    var base := if path in st then st[path] else Metrics.NoStats;
    assert Metrics.UpdateSpec(st, path, latencyMs, ok)[path] == Metrics.RecordStep(base, latencyMs, ok);
  }
}
