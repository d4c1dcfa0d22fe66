/**
 * The handling entry points: handle_exception, notify_on_error and the
 * configuration block, over an ExceptionHandler object that holds the
 * configuration and an append-only trace of the calls made to the
 * collaborators defined outside this file (request filtering, the
 * notifier, logging, rendering).
 */
module Juggler {

  import opened Wrappers
  import opened ErrorCodes
  import opened HandlerConfig
  import opened Decisions

  /** The request object; this file never looks inside it. */
  datatype Request = Request(env: map<string, string>)

  /** What request_data_from_request returns. */
  type RequestData = map<string, string>

  /** The options hash of handle_exception; an absent key is `None`. */
  datatype Options = Options(request: Option<Request>, renderErrors: Option<bool>, procName: Option<string>)

  /** A call to a collaborator. A delayed notification has no field for the request. */
  datatype Event =
    | RequestDataFromRequest(source: Request)
    | DeliverNow(exc: Exc, procName: string, backtrace: seq<string>, statusCode: string,
                 requestData: Option<RequestData>, request: Option<Request>)
    | DeliverLater(exc: Exc, procName: string, backtrace: seq<string>, statusCode: string,
                   requestData: Option<RequestData>)
    | LogException(exc: Exc, requestData: Option<RequestData>, statusCode: string)
    | RenderErrorTemplate(exc: Exc, statusCode: string)
  {
    function Kind(): CallKind {
      match this
      case RequestDataFromRequest(_) => Filtering
      case DeliverNow(_, _, _, _, _, _) => Notification
      case DeliverLater(_, _, _, _, _) => Notification
      case LogException(_, _, _) => Logging
      case RenderErrorTemplate(_, _) => Rendering
    }
  }

  datatype CallKind = Filtering | Notification | Logging | Rendering

  /** How many events of kind `k` a trace holds. */
  function Count(evs: seq<Event>, k: CallKind): nat
    decreases |evs|
  {
    if evs == [] then 0 else (if evs[0].Kind() == k then 1 else 0) + Count(evs[1..], k)
  }

  /** All events of `evs` are of kind `k`. */
  ghost predicate AllOf(evs: seq<Event>, k: CallKind) {
    forall i :: 0 <= i < |evs| ==> evs[i].Kind() == k
  }

  lemma {:induction false} CountConcat(a: seq<Event>, b: seq<Event>, k: CallKind)
    ensures Count(a + b, k) == Count(a, k) + Count(b, k)
    decreases |a|
  {
    if a == [] {
      assert a + b == b;
    } else {
      assert (a + b)[1..] == a[1..] + b;
      CountConcat(a[1..], b, k);
    }
  }

  /** A trace made only of kind-`k` events has |evs| of them and none of any other kind. */
  lemma {:induction false} CountAllOf(evs: seq<Event>, k: CallKind, other: CallKind)
    requires AllOf(evs, k)
    ensures Count(evs, k) == |evs|
    ensures other != k ==> Count(evs, other) == 0
    decreases |evs|
  {
    if evs != [] {
      CountAllOf(evs[1..], k, other);
    }
  }

  /** Every event of kind `k1` comes before every event of kind `k2`. */
  ghost predicate Precedes(evs: seq<Event>, k1: CallKind, k2: CallKind) {
    forall i, j :: 0 <= i < |evs| && 0 <= j < |evs| && evs[i].Kind() == k1 && evs[j].Kind() == k2 ==> i < j
  }

  /** When `a` holds no `k2` event and `b` no `k1` event, every `k1` event of `a + b` precedes every `k2` event. */
  lemma PrecedesSplit(a: seq<Event>, b: seq<Event>, k1: CallKind, k2: CallKind)
    requires forall i :: 0 <= i < |a| ==> a[i].Kind() != k2
    requires forall i :: 0 <= i < |b| ==> b[i].Kind() != k1
    ensures Precedes(a + b, k1, k2)
  {
    var evs := a + b;
    forall i, j | 0 <= i < |evs| && 0 <= j < |evs| && evs[i].Kind() == k1 && evs[j].Kind() == k2
      ensures i < j
    {
    }
  }

  /** `options[:render_errors] || false`: rendering is off unless asked for. */
  function RenderErrors(opts: Options): (render: bool)
    ensures opts.renderErrors.None? ==> !render
    ensures opts.renderErrors.Some? ==> render == opts.renderErrors.value
  {
    opts.renderErrors == Some(true)
  }

  /** `options[:proc_name] || config[:app_name]` */
  function ProcName(c: Config, opts: Options): (name: string)
    ensures opts.procName.Some? ==> name == opts.procName.value
    ensures opts.procName.None? ==> name == c.appName
  {
    opts.procName.GetOr(c.appName)
  }

  /** `request_data_from_request(request) unless request.nil?`: nil without a request. */
  function RequestDataFor(opts: Options, filter: Request -> RequestData): (data: Option<RequestData>)
    ensures data.Some? <==> opts.request.Some?
    ensures data.Some? ==> data.value == filter(opts.request.value)
  {
    if opts.request.Some? then Some(filter(opts.request.value)) else None
  }

  /** The request-filtering call, made only when there is a request. */
  function FilterCalls(opts: Options): (evs: seq<Event>)
    ensures AllOf(evs, Filtering)
    ensures |evs| == if opts.request.Some? then 1 else 0
  {
    if opts.request.Some? then [RequestDataFromRequest(opts.request.value)] else []
  }

  /** The notifier call, made only when notify_on_exception? holds: delayed (without the request) or immediate (with it). */
  function NotifyCalls(c: Config, env: Env, e: Exc, opts: Options, filter: Request -> RequestData): (evs: seq<Event>)
    ensures AllOf(evs, Notification)
    ensures |evs| == if NotifyOnException(c, env.context, e, StatusCodeForException(c, e)) then 1 else 0
  {
    var code := StatusCodeForException(c, e);
    var procName := ProcName(c, opts);
    var data := RequestDataFor(opts, filter);
    if !NotifyOnException(c, env.context, e, code) then []
    else if NotifyWithDelayedJob(c, env) then [DeliverLater(e, procName, e.backtrace, code, data)]
    else [DeliverNow(e, procName, e.backtrace, code, data, opts.request)]
  }

  /** The rendering call, made only when `:render_errors` is truthy. */
  function RenderCalls(e: Exc, code: string, opts: Options): (evs: seq<Event>)
    ensures AllOf(evs, Rendering)
    ensures |evs| == if RenderErrors(opts) then 1 else 0
  {
    if RenderErrors(opts) then [RenderErrorTemplate(e, code)] else []
  }

  /**
   * The collaborator calls handle_exception makes, in order: request
   * filtering when there is a request, at most one notification, the log,
   * and rendering when asked for.
   */
  function Handled(c: Config, env: Env, e: Exc, opts: Options, filter: Request -> RequestData): (evs: seq<Event>)
    ensures |evs| == (if opts.request.Some? then 1 else 0)
      + (if NotifyOnException(c, env.context, e, StatusCodeForException(c, e)) then 1 else 0)
      + 1 + (if RenderErrors(opts) then 1 else 0)
    ensures LogException(e, RequestDataFor(opts, filter), StatusCodeForException(c, e)) in evs
  {
    var code := StatusCodeForException(c, e);
    FilterCalls(opts) + NotifyCalls(c, env, e, opts, filter)
      + [LogException(e, RequestDataFor(opts, filter), code)] + RenderCalls(e, code, opts)
  }

  /**
   * handle_exception calls the notifier at most once and only when
   * notify_on_exception? holds; it logs exactly once, filters the request
   * exactly when there is one, and renders exactly when asked to.
   */
  lemma HandledCounts(c: Config, env: Env, e: Exc, opts: Options, filter: Request -> RequestData)
    ensures var evs := Handled(c, env, e, opts, filter);
      && Count(evs, Notification) == (if NotifyOnException(c, env.context, e, StatusCodeForException(c, e)) then 1 else 0)
      && Count(evs, Logging) == 1
      && Count(evs, Filtering) == (if opts.request.Some? then 1 else 0)
      && Count(evs, Rendering) == (if RenderErrors(opts) then 1 else 0)
  {
    var code := StatusCodeForException(c, e);
    var f, n, r := FilterCalls(opts), NotifyCalls(c, env, e, opts, filter), RenderCalls(e, code, opts);
    var log := [LogException(e, RequestDataFor(opts, filter), code)];
    assert AllOf(log, Logging);
    forall k
      ensures Count(f + n + log + r, k) == Count(f, k) + Count(n, k) + Count(log, k) + Count(r, k)
      ensures Count(f, k) == if k == Filtering then |f| else 0
      ensures Count(n, k) == if k == Notification then |n| else 0
      ensures Count(log, k) == if k == Logging then 1 else 0
      ensures Count(r, k) == if k == Rendering then |r| else 0
    {
      CountConcat(f, n, k);
      CountConcat(f + n, log, k);
      CountConcat(f + n + log, r, k);
      CountAllOf(f, Filtering, k);
      CountAllOf(n, Notification, k);
      CountAllOf(log, Logging, k);
      CountAllOf(r, Rendering, k);
    }
  }

  /** Four uniform pieces in the order filtering, notification, logging, rendering keep that order when joined. */
  lemma OrderOfPieces(f: seq<Event>, n: seq<Event>, l: seq<Event>, r: seq<Event>)
    requires AllOf(f, Filtering) && AllOf(n, Notification) && AllOf(l, Logging) && AllOf(r, Rendering)
    ensures var evs := f + n + l + r;
      && Precedes(evs, Filtering, Notification)
      && Precedes(evs, Notification, Logging)
      && Precedes(evs, Logging, Rendering)
  {
    var evs := f + n + l + r;
    assert evs == f + (n + l + r);
    PrecedesSplit(f, n + l + r, Filtering, Notification);
    assert evs == (f + n) + (l + r);
    PrecedesSplit(f + n, l + r, Notification, Logging);
    PrecedesSplit(f + n + l, r, Logging, Rendering);
  }

  /**
   * The order of the calls: filtering before notifying, notifying before
   * logging, logging before rendering.
   */
  lemma HandledOrder(c: Config, env: Env, e: Exc, opts: Options, filter: Request -> RequestData)
    ensures var evs := Handled(c, env, e, opts, filter);
      && Precedes(evs, Filtering, Notification)
      && Precedes(evs, Notification, Logging)
      && Precedes(evs, Logging, Rendering)
  {
    var code := StatusCodeForException(c, e);
    var log := [LogException(e, RequestDataFor(opts, filter), code)];
    OrderOfPieces(FilterCalls(opts), NotifyCalls(c, env, e, opts, filter), log, RenderCalls(e, code, opts));
  }

  /**
   * What each call carries: the notification is delayed exactly when
   * notify_with_delayed_job? holds, the immediate one passes the live
   * request (and the delayed one cannot), and the log receives the
   * exception, the filtered request data and the status code.
   */
  lemma HandledPayloads(c: Config, env: Env, e: Exc, opts: Options, filter: Request -> RequestData, i: nat)
    requires i < |Handled(c, env, e, opts, filter)|
    ensures var ev := Handled(c, env, e, opts, filter)[i];
      var code := StatusCodeForException(c, e);
      var data := RequestDataFor(opts, filter);
      && (ev.Kind() == Notification ==>
            && (ev.DeliverLater? <==> NotifyWithDelayedJob(c, env))
            && ev.exc == e && ev.procName == ProcName(c, opts) && ev.backtrace == e.backtrace
            && ev.statusCode == code && ev.requestData == data)
      && (ev.DeliverNow? ==> ev.request == opts.request)
      && (ev.Kind() == Logging ==> ev == LogException(e, data, code))
      && (ev.Kind() == Rendering ==> ev == RenderErrorTemplate(e, code))
      && (ev.Kind() == Filtering ==> opts.request == Some(ev.source))
  {
  }

  /**
   * An exception classified "500", raised in a public request, with public
   * errors notified, "500" on the code allow-list and delayed_job off: it is
   * notified immediately and then logged; nothing is rendered.
   */
  lemma PublicErrorScenario(c: Config, env: Env, e: Exc, filter: Request -> RequestData)
    requires env.context == Public && c.notifyOnPublicError && "500" in c.notifyStatusCodes
    requires !c.delayedJobForControllerErrors && !c.delayedJobForNonControllerErrors
    requires StatusCodeForException(c, e) == "500"
    ensures Handled(c, env, e, Options(None, None, None), filter)
      == [DeliverNow(e, c.appName, e.backtrace, "500", None, None), LogException(e, None, "500")]
  {
  }

  /** The same exception in a local request, with local errors not notified, is only logged. */
  lemma LocalErrorScenario(c: Config, env: Env, e: Exc, filter: Request -> RequestData)
    requires env.context == Local && !c.notifyOnLocalError
    requires StatusCodeForException(c, e) == "500"
    ensures Handled(c, env, e, Options(None, None, None), filter) == [LogException(e, None, "500")]
  {
  }

  /** The default configuration meets both scenarios' requirements for a RuntimeError. */
  lemma DefaultRuntimeErrorScenarios(fw: Frameworks, e: Exc)
    requires e.cls == RuntimeError && e.selfCode.None?
    ensures var c := DefaultConfig(fw);
      && StatusCodeForException(c, e) == "500"
      && c.notifyOnPublicError && "500" in c.notifyStatusCodes && !c.notifyOnLocalError
      && !c.delayedJobForControllerErrors && !c.delayedJobForNonControllerErrors
      && c.appName == ""
  {
    DefaultStatusCodes(fw, e);
  }

  /** The outcome of the block given to notify_on_error. */
  datatype BlockOutcome = Completed | Raised(exception: Exc)

  /** The options notify_on_error passes: `:proc_name` only when given; no request, no rendering. */
  function WrapperOptions(procName: Option<string>): Options {
    Options(None, None, procName)
  }

  /**
   * The collaborator calls notify_on_error makes for a block outcome: none
   * when the block completed or raised something a bare `rescue` does not
   * catch, otherwise those of handle_exception.
   */
  function Wrapped(c: Config, env: Env, procName: Option<string>, block: BlockOutcome,
                   filter: Request -> RequestData): (evs: seq<Event>)
    ensures block.Completed? ==> evs == []
    ensures block.Raised? && !block.exception.isStandardError ==> evs == []
    ensures block.Raised? && block.exception.isStandardError ==>
      evs == Handled(c, env, block.exception, Options(None, None, procName), filter)
  {
    match block
    case Completed => []
    case Raised(e) => if e.isStandardError then Handled(c, env, e, WrapperOptions(procName), filter) else []
  }

  /**
   * notify_on_error never renders and never filters a request; it logs
   * once iff the block raised a StandardError; any notification carries the
   * given name or the app name, no request data and no request.
   */
  lemma WrappedCalls(c: Config, env: Env, procName: Option<string>, block: BlockOutcome,
                     filter: Request -> RequestData)
    ensures var evs := Wrapped(c, env, procName, block, filter);
      && Count(evs, Rendering) == 0
      && Count(evs, Filtering) == 0
      && Count(evs, Logging) == (if block.Raised? && block.exception.isStandardError then 1 else 0)
      && (forall i :: 0 <= i < |evs| && evs[i].Kind() == Notification ==>
            && evs[i].procName == procName.GetOr(c.appName)
            && evs[i].requestData == None
            && (evs[i].DeliverNow? ==> evs[i].request == None))
  {
    var evs := Wrapped(c, env, procName, block, filter);
    if block.Raised? && block.exception.isStandardError {
      var opts := WrapperOptions(procName);
      HandledCounts(c, env, block.exception, opts, filter);
      forall i | 0 <= i < |evs| && evs[i].Kind() == Notification
        ensures evs[i].procName == procName.GetOr(c.appName) && evs[i].requestData == None
        ensures evs[i].DeliverNow? ==> evs[i].request == None
      {
        HandledPayloads(c, env, block.exception, opts, filter, i);
      }
    }
  }

  /** What notify_on_error ends with: nil, or an exception its `rescue` let through. */
  datatype Completion = ReturnedNil | Reraised(exception: Exc)

  class ExceptionHandler {
    var config: Config
    var trace: seq<Event>

    /** `@@config ||= { ... }`, before any call is made. */
    constructor (fw: Frameworks)
      ensures config == DefaultConfig(fw) && trace == []
    {
      config := DefaultConfig(fw);
      trace := [];
    }

    /** `yield @@config`: the block edits the configuration. */
    method Configure(block: Config -> Config)
      modifies this
      ensures config == block(old(config)) && trace == old(trace)
    {
      config := block(config);
    }

    method HandleException(env: Env, exception: Exc, options: Options, filter: Request -> RequestData)
      modifies this
      ensures config == old(config)
      ensures trace == old(trace) + Handled(config, env, exception, options, filter)
    {
      var request := options.request;
      var renderErrors := RenderErrors(options);
      var procName := ProcName(config, options);

      var statusCode := StatusCodeForException(config, exception);
      var requestData: Option<RequestData> := None;
      if request.Some? {
        trace := trace + [RequestDataFromRequest(request.value)];
        requestData := Some(filter(request.value));
      }

      if NotifyOnException(config, env.context, exception, statusCode) {
        if NotifyWithDelayedJob(config, env) {
          trace := trace + [DeliverLater(exception, procName, exception.backtrace, statusCode, requestData)];
        } else {
          trace := trace + [DeliverNow(exception, procName, exception.backtrace, statusCode, requestData, request)];
        }
      }

      trace := trace + [LogException(exception, requestData, statusCode)];

      if renderErrors {
        trace := trace + [RenderErrorTemplate(exception, statusCode)];
      }
    }

    /**
     * Runs the block's outcome through handle_exception when it raised a
     * StandardError and then returns nil; any other exception propagates
     * untouched.
     */
    method NotifyOnError(env: Env, procName: Option<string>, block: BlockOutcome, filter: Request -> RequestData)
      returns (result: Completion)
      modifies this
      ensures config == old(config)
      ensures trace == old(trace) + Wrapped(config, env, procName, block, filter)
      ensures block.Raised? && !block.exception.isStandardError ==> result == Reraised(block.exception)
      ensures !(block.Raised? && !block.exception.isStandardError) ==> result == ReturnedNil
    {
      match block
      case Completed =>
        result := ReturnedNil;
      case Raised(exception) =>
        if !exception.isStandardError {
          return Reraised(exception);
        }
        var options := Options(None, None, None);
        if procName.Some? {
          options := options.(procName := procName);
        }
        HandleException(env, exception, options, filter);
        result := ReturnedNil;
    }
  }
}
