/**
 * The three pure decisions of the handler: which status code an exception
 * maps to (ExceptionHandler.status_code_for_exception), whether to notify
 * (notify_on_exception?) and whether to hand the notification to
 * delayed_job (notify_with_delayed_job?).
 */
module Decisions {

  import opened Wrappers
  import opened ErrorCodes
  import opened HandlerConfig

  /**
   * A raised exception: its exact class, its superclasses (never consulted
   * by any lookup), the status code it reports itself when it responds to
   * `status_code`, its backtrace, and whether it is a StandardError (what a
   * bare `rescue` catches).
   */
  datatype Exc = Exc(cls: ClassId, superclasses: seq<ClassId>, selfCode: Option<string>, backtrace: seq<string>,
                     isStandardError: bool)

  /**
   * Where the handler runs. `Local`/`Public`: the host responds to
   * `local_request?` and it answers true/false; `Background`: it does not
   * respond to `local_request?`.
   */
  datatype RequestContext = Local | Public | Background

  /**
   * The facts the source obtains by reflection: the request context, whether
   * the host `is_a?(ActionController::Base)`, and whether the notifier
   * responds to `send_later`.
   */
  datatype Env = Env(context: RequestContext, isController: bool, notifierHasSendLater: bool)

  /**
   * A self-reported code wins; otherwise the entry for the exception's exact
   * class, or the default entry when that class has none.
   */
  function StatusCodeForException(c: Config, e: Exc): (code: string)
    ensures e.selfCode.Some? ==> code == e.selfCode.value
    ensures e.selfCode.None? && e.cls in c.errorClassStatusCodes.byClass ==>
      code == c.errorClassStatusCodes.byClass[e.cls]
    ensures e.selfCode.None? && e.cls !in c.errorClassStatusCodes.byClass ==>
      code == c.errorClassStatusCodes.defaultCode
  {
    match e.selfCode
    case Some(own) => own
    case None =>
      var table := c.errorClassStatusCodes;
      if e.cls in table.byClass then table.byClass[e.cls] else table.defaultCode
  }

  /** The code always comes from the exception itself, from the table, or is the default. */
  lemma StatusCodeOrigin(c: Config, e: Exc)
    ensures var code := StatusCodeForException(c, e);
      || e.selfCode == Some(code)
      || code in c.errorClassStatusCodes.byClass.Values
      || code == c.errorClassStatusCodes.defaultCode
  {
    if e.selfCode.None? && e.cls in c.errorClassStatusCodes.byClass {
      assert c.errorClassStatusCodes.byClass[e.cls] in c.errorClassStatusCodes.byClass.Values;
    }
  }

  /**
   * Lookup is by exact class: an exception whose own class has no entry gets
   * the default even when one of its superclasses is mapped.
   */
  lemma SubclassGetsDefault(c: Config, e: Exc, i: nat)
    requires e.selfCode.None? && e.cls !in c.errorClassStatusCodes.byClass
    requires i < |e.superclasses| && e.superclasses[i] in c.errorClassStatusCodes.byClass
    ensures StatusCodeForException(c, e) == c.errorClassStatusCodes.defaultCode
  {
  }

  /**
   * With the starting table: the standard errors get their built-in codes,
   * a detected framework class its framework code, and any other class the
   * "500" default.
   */
  lemma DefaultStatusCodes(fw: Frameworks, e: Exc)
    requires e.selfCode.None?
    ensures var code := StatusCodeForException(DefaultConfig(fw), e);
      && (e.cls in BuiltinCodes ==> code == BuiltinCodes[e.cls])
      && (e.cls !in BuiltinCodes && Detected(fw, e.cls) ==> code == FrameworkCode(e.cls))
      && (e.cls !in BuiltinCodes && !Detected(fw, e.cls) ==> code == "500")
  {
    var t := CodesForExceptionClasses(fw);
    assert DefaultConfig(fw).errorClassStatusCodes == t;
    CodesForExceptionClassesAt(fw, e.cls);
  }

  /**
   * After merging `extra` (and possibly a new `:default`) into the code
   * table: a merged class gets the merged code; an exception that reports
   * its own code, or whose class has an entry that is not overwritten, is
   * classified as before; an unmapped class gets the new default when one
   * was merged and the old one otherwise.
   */
  lemma ClassifyAfterMerge(c: Config, extra: map<ClassId, string>, extraDefault: Option<string>, e: Exc)
    ensures var c' := MergeStatusCodes(c, extra, extraDefault);
      && (e.selfCode.None? && e.cls in extra ==> StatusCodeForException(c', e) == extra[e.cls])
      && (e.selfCode.Some? ==> StatusCodeForException(c', e) == StatusCodeForException(c, e))
      && (e.selfCode.None? && e.cls !in extra && e.cls in c.errorClassStatusCodes.byClass ==>
            StatusCodeForException(c', e) == StatusCodeForException(c, e))
      && (e.selfCode.None? && e.cls !in extra && e.cls !in c.errorClassStatusCodes.byClass ==>
            StatusCodeForException(c', e) == extraDefault.GetOr(StatusCodeForException(c, e)))
  {
  }

  /** The flag that governs notification in a context; each context has its own. */
  function ContextGate(c: Config, ctx: RequestContext): (gate: bool)
    ensures ctx == Local ==> gate == c.notifyOnLocalError
    ensures ctx == Public ==> gate == c.notifyOnPublicError
    ensures ctx == Background ==> gate == c.notifyOnBackgroundError
  {
    match ctx
    case Local => c.notifyOnLocalError
    case Public => c.notifyOnPublicError
    case Background => c.notifyOnBackgroundError
  }

  /**
   * First the context gate, then the allow-lists: the exception's exact
   * class is listed or its status code is.
   */
  function NotifyOnException(c: Config, ctx: RequestContext, e: Exc, statusCode: string): (notify: bool)
    ensures !ContextGate(c, ctx) ==> !notify
    ensures ContextGate(c, ctx) ==>
      (notify <==> e.cls in c.notifyExceptionClasses || statusCode in c.notifyStatusCodes)
  {
    var gate :=
      if ctx != Background then
        (ctx == Local && c.notifyOnLocalError) || (ctx != Local && c.notifyOnPublicError)
      else
        c.notifyOnBackgroundError;
    gate && (e.cls in c.notifyExceptionClasses || statusCode in c.notifyStatusCodes)
  }

  /** The four rows of the allow-list truth table, under an open gate. */
  lemma NotifyTruthTable(c: Config, ctx: RequestContext, e: Exc, code: string)
    requires ContextGate(c, ctx)
    ensures e.cls in c.notifyExceptionClasses && code in c.notifyStatusCodes ==> NotifyOnException(c, ctx, e, code)
    ensures e.cls in c.notifyExceptionClasses && code !in c.notifyStatusCodes ==> NotifyOnException(c, ctx, e, code)
    ensures e.cls !in c.notifyExceptionClasses && code in c.notifyStatusCodes ==> NotifyOnException(c, ctx, e, code)
    ensures e.cls !in c.notifyExceptionClasses && code !in c.notifyStatusCodes ==> !NotifyOnException(c, ctx, e, code)
  {
  }

  /** Each context reads only its own gate: configurations that agree on it and on the allow-lists decide alike. */
  lemma NotifyReadsOwnGate(c1: Config, c2: Config, ctx: RequestContext, e: Exc, code: string)
    requires ContextGate(c1, ctx) == ContextGate(c2, ctx)
    requires c1.notifyExceptionClasses == c2.notifyExceptionClasses
    requires c1.notifyStatusCodes == c2.notifyStatusCodes
    ensures NotifyOnException(c1, ctx, e, code) == NotifyOnException(c2, ctx, e, code)
  {
  }

  /** Growing an allow-list (`<<`) never turns a notification off. */
  lemma NotifyMonotone(c: Config, ctx: RequestContext, e: Exc, code: string, cls: ClassId, extraCode: string)
    ensures NotifyOnException(c, ctx, e, code) ==> NotifyOnException(AddNotifyExceptionClass(c, cls), ctx, e, code)
    ensures NotifyOnException(c, ctx, e, code) ==> NotifyOnException(AddNotifyStatusCode(c, extraCode), ctx, e, code)
    ensures ContextGate(c, ctx) ==> NotifyOnException(AddNotifyExceptionClass(c, e.cls), ctx, e, code)
    ensures ContextGate(c, ctx) ==> NotifyOnException(AddNotifyStatusCode(c, code), ctx, e, code)
  {
  }

  /**
   * Delayed dispatch iff the flag for the host's kind (controller or not)
   * is set and the notifier supports `send_later`.
   */
  function NotifyWithDelayedJob(c: Config, env: Env): (useDj: bool)
    ensures env.isController ==> (useDj <==> c.delayedJobForControllerErrors && env.notifierHasSendLater)
    ensures !env.isController ==> (useDj <==> c.delayedJobForNonControllerErrors && env.notifierHasSendLater)
  {
    if env.isController then
      if c.delayedJobForControllerErrors && env.notifierHasSendLater then true else false
    else
      if c.delayedJobForNonControllerErrors && env.notifierHasSendLater then true else false
  }

  /** A controller never reads the non-controller flag, and vice versa; without `send_later` dispatch is synchronous. */
  lemma DelayedJobReadsOwnFlag(c: Config, env: Env, other: bool)
    ensures env.isController ==>
      NotifyWithDelayedJob(c.(delayedJobForNonControllerErrors := other), env) == NotifyWithDelayedJob(c, env)
    ensures !env.isController ==>
      NotifyWithDelayedJob(c.(delayedJobForControllerErrors := other), env) == NotifyWithDelayedJob(c, env)
    ensures !env.notifierHasSendLater ==> !NotifyWithDelayedJob(c, env)
  {
  }

  /**
   * Out of the box: local errors are never notified, public and background
   * ones exactly for the codes 405, 500 and 503, and dispatch is synchronous.
   */
  lemma DefaultPolicy(fw: Frameworks, env: Env, e: Exc, code: string)
    ensures !NotifyOnException(DefaultConfig(fw), Local, e, code)
    ensures env.context != Local ==>
      (NotifyOnException(DefaultConfig(fw), env.context, e, code) <==> code == "405" || code == "500" || code == "503")
    ensures !NotifyWithDelayedJob(DefaultConfig(fw), env)
  {
  }
}
