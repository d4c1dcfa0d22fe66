# Juggler exception handler, modelled in Dafny

This project models the exception-handling logic of the Juggler library
(`lib/juggler/exception_handler.rb`). When an exception is raised, Juggler does
three things:

- it maps the exception to an HTTP status code, using the code the exception
  reports about itself or the configured class-to-code table;
- it decides whether operators should be notified, using a per-context gate
  and then two allow-lists;
- it decides whether the notification goes through delayed_job or is
  delivered at once.

`handle_exception` ties these together. When its collaborators return
normally, it filters the request, notifies at most once, logs once and renders
only on request. `notify_on_error` runs a block and hands any StandardError the
block raises to `handle_exception`.

Layout:

- `wrappers.dfy`: `Option`, which stands for Ruby's `nil` versus a present
  value.
- `error_codes.dfy` (module `ErrorCodes`): the exception classes, the
  framework-detection facts and the starting class-to-code table
  (`Juggler.codes_for_exception_classes`). The table is built as a fold over
  the source's nine conditional `merge!` calls.
- `handler_config.dfy` (module `HandlerConfig`): the configuration hash as a
  value, its defaults and the edits the configuration block is documented to
  make (`merge!` into the code table, `<<` onto the allow-lists).
- `decisions.dfy` (module `Decisions`): `status_code_for_exception`,
  `notify_on_exception?` and `notify_with_delayed_job?` as functions, with
  lemmas about them.
- `juggler.dfy` (module `Juggler`): calls to collaborators are recorded as
  events. `Handled` is the sequence of events `handle_exception` produces, and
  lemmas state its counts, order and payloads. The `ExceptionHandler` class
  holds the configuration and an append-only trace of those events. Its
  methods `Configure`, `HandleException` and `NotifyOnError` are proved
  against `Handled`.

Modelling choices:

- The reflective checks are plain inputs, gathered in `Env`:
  - `respond_to?(:local_request?)` with `local_request?` becomes the context
    `Local`, `Public` or `Background`;
  - `is_a?(ActionController::Base)` becomes `isController`;
  - `respond_to?(:send_later)` becomes `notifierHasSendLater`.
- `respond_to?(:status_code)` becomes `Exc.selfCode`.
- The framework-constant checks (`defined?` / `const_defined?`) are the
  booleans of `Frameworks`.
- `request_data_from_request`, `log_exception`, `render_error_template` and
  `ExceptionNotifier` are defined outside this file. They appear only as
  events. The request filter is a function parameter, and the model states
  nothing about what it returns.

The code and its doc comment disagree, and the model follows the code:

- `notify_on_error`'s doc comment says an exception escaping the block is
  re-raised. The code's bare `rescue` catches a StandardError, hands it to
  `handle_exception` and returns nil. `NotifyOnError` returns `ReturnedNil`
  in that case and when the block completes. Only an exception that is not a
  StandardError propagates, untouched and unhandled (`Reraised`).
- `handle_exception` does not re-raise either.
- No template fallback chain appears in the code. Rendering is the single
  call `render_error_template(exception, status_code)`.

## Model

| member | source | states |
|---|---|---|
| `ErrorCodes.CodesForExceptionClasses` | lib/juggler/exception_handler.rb:7-35 | the starting table's default entry is "500" |
| `ErrorCodes.ApplyMergesUntouched` | lib/juggler/exception_handler.rb:20-31 | `merge!` calls that name other classes leave a class's entry, present or absent, as it was |
| `ErrorCodes.ApplyMergesOnce` | lib/juggler/exception_handler.rb:20-31 | a class named by one conditional `merge!` has an entry afterwards iff that merge ran or it had one before; the merged code wins, otherwise the old one stays |
| `ErrorCodes.CodesForExceptionClassesAt` | lib/juggler/exception_handler.rb:7-35 | for one class: a built-in class keeps its built-in code; a framework class has an entry iff its constant is defined, and the entry holds its framework code |
| `ErrorCodes.CodesForExceptionClassesContents` | lib/juggler/exception_handler.rb:8-31 | NameError and TypeError map to "503", RuntimeError and ArgumentError to "500", default "500"; the framework merges only add their own detected keys and never remove or change these |
| `HandlerConfig.MergeStatusCodes` | lib/juggler/exception_handler.rb:100 | merging into the code table adds or overwrites exactly the merged class keys; a merged `:default` replaces the default, otherwise the default stays; every other entry and every other setting stay |
| `HandlerConfig.AddNotifyExceptionClass` | lib/juggler/exception_handler.rb:101 | `<<` onto the class allow-list makes the class listed, keeps every listed class, lists nothing else new and touches no other setting |
| `HandlerConfig.AddNotifyStatusCode` | lib/juggler/exception_handler.rb:101 | `<<` onto the code allow-list makes the code listed, keeps every listed code, lists nothing else new and touches no other setting |
| `Decisions.StatusCodeForException` | lib/juggler/exception_handler.rb:129-136 | a self-reported code wins whatever the table holds; otherwise the entry for the exact class, or the default when the class has none |
| `Decisions.StatusCodeOrigin` | lib/juggler/exception_handler.rb:129-136 | the code always comes from the exception itself, from a table entry or from the default |
| `Decisions.SubclassGetsDefault` | lib/juggler/exception_handler.rb:133-134 | lookup is by exact class: an unmapped class whose superclass is mapped still gets the default |
| `Decisions.DefaultStatusCodes` | lib/juggler/exception_handler.rb:8-34 | with the default configuration, standard errors get their built-in codes, a detected framework class its framework code and any other class "500" |
| `Decisions.ClassifyAfterMerge` | lib/juggler/exception_handler.rb:129-136 | after a merge into the code table: a merged class without its own code gets the merged code; a self-reporting exception, or one whose class keeps its entry, is classified as before; an unmapped class gets the merged `:default` if there is one, else the old default |
| `Decisions.ContextGate` | lib/juggler/exception_handler.rb:241-250 | a local request reads `:notify_on_local_error`, a public one `:notify_on_public_error`, a host without `local_request?` `:notify_on_background_error` |
| `Decisions.NotifyOnException` | lib/juggler/exception_handler.rb:238-257 | a closed context gate gives false; an open gate gives true iff the exact class or the status code is in its allow-list |
| `Decisions.NotifyTruthTable` | lib/juggler/exception_handler.rb:254-256 | under an open gate, all four combinations of the two allow-list checks: true unless neither list matches (OR, not AND) |
| `Decisions.NotifyReadsOwnGate` | lib/juggler/exception_handler.rb:241-250 | local, public and background each read only their own flag: configurations agreeing on that flag and on the lists decide alike |
| `Decisions.NotifyMonotone` | lib/juggler/exception_handler.rb:254-256 | appending to either allow-list never turns a notification off; listing the exception's class or code turns it on whenever the gate is open |
| `Decisions.NotifyWithDelayedJob` | lib/juggler/exception_handler.rb:262-282 | delayed dispatch iff the flag for the host's kind (controller / non-controller) is set and the notifier supports `send_later` |
| `Decisions.DelayedJobReadsOwnFlag` | lib/juggler/exception_handler.rb:265-279 | a controller never reads the non-controller flag and vice versa; without `send_later` dispatch is synchronous |
| `Decisions.DefaultPolicy` | lib/juggler/exception_handler.rb:53-63 | with the default configuration, local errors are never notified, public and background ones exactly for codes 405, 500 and 503, and dispatch is never delayed |
| `Juggler.RenderErrors` | lib/juggler/exception_handler.rb:190 | rendering is off when `:render_errors` is absent and follows the option when given |
| `Juggler.RequestDataFor` | lib/juggler/exception_handler.rb:194 | the request data is nil exactly when there is no request, and otherwise is what the filter returns for that request |
| `Juggler.Handled` | lib/juggler/exception_handler.rb:188-232 | the trace of handle_exception has one event for filtering (if a request), one for notifying (if notify), one log and one render (if asked); the log carries (exception, request data, status code) |
| `Juggler.Wrapped` | lib/juggler/exception_handler.rb:162-172 | no calls when the block completes or raises a non-StandardError; otherwise exactly the calls of handle_exception with only `:proc_name` set |
| `Juggler.ProcName` | lib/juggler/exception_handler.rb:191 | the process name is `:proc_name` when given, else the configured app name |
| `Juggler.FilterCalls` | lib/juggler/exception_handler.rb:194 | the request is filtered exactly once when present and not at all otherwise |
| `Juggler.NotifyCalls` | lib/juggler/exception_handler.rb:201-218 | one notifier call when notify_on_exception? holds, none otherwise |
| `Juggler.RenderCalls` | lib/juggler/exception_handler.rb:222-231 | one render call, with the exception and its status code, when `:render_errors` is truthy (absent means false), none otherwise |
| `Juggler.HandledCounts` | lib/juggler/exception_handler.rb:188-232 | the notifier is called at most once and only when notify holds; the log exactly once whatever the notify decision; filtering iff a request is present; rendering iff `:render_errors` |
| `Juggler.HandledOrder` | lib/juggler/exception_handler.rb:194-231 | filtering precedes notifying, notifying precedes logging, logging precedes rendering |
| `Juggler.HandledPayloads` | lib/juggler/exception_handler.rb:201-226 | the notification is delayed iff notify_with_delayed_job? holds; it carries exception, proc name, backtrace, code and filtered data; the immediate call passes the live request and the delayed one has none; the log gets (exception, request data, code) and the render (exception, code) |
| `Juggler.PublicErrorScenario` | lib/juggler/exception_handler.rb:188-232 | an exception classified "500" in a public request, with public errors notified, "500" allow-listed and delayed_job off, gives exactly: immediate notification under the app name, then the log |
| `Juggler.LocalErrorScenario` | lib/juggler/exception_handler.rb:188-232 | the same exception in a local request with local errors not notified gives only the log |
| `Juggler.DefaultRuntimeErrorScenarios` | lib/juggler/exception_handler.rb:48-63 | the default configuration classifies a RuntimeError "500" and meets both scenarios' requirements |
| `Juggler.WrappedCalls` | lib/juggler/exception_handler.rb:162-172 | notify_on_error never renders or filters a request; it logs once iff the block raised a StandardError; any notification carries the given proc name (else the app name), no request data and no request |
| `Juggler.ExceptionHandler.constructor` | lib/juggler/exception_handler.rb:48-82 | the handler starts with the default configuration and an empty trace |
| `Juggler.ExceptionHandler.Configure` | lib/juggler/exception_handler.rb:120-122 | the configuration becomes the block applied to it; no collaborator is called |
| `Juggler.ExceptionHandler.HandleException` | lib/juggler/exception_handler.rb:188-232 | appends exactly `Handled(...)` to the trace and leaves the configuration unchanged |
| `Juggler.ExceptionHandler.NotifyOnError` | lib/juggler/exception_handler.rb:162-172 | appends nothing when the block completed or raised a non-StandardError, which propagates unhandled; for a StandardError appends what handle_exception does with `:proc_name` only when given, no request and no `:render_errors`, and returns nil |

## Left out

- Deleting the `:default` entry: the default code is a separate field of `CodeTable`, so it always exists. Overwriting it by a merge is modelled (`MergeStatusCodes`). In Ruby, a configuration block that deletes `:default` makes the lookup return nil; the model cannot express that case.
- Entries set to `nil` or `false`: code-table entries are strings. Ruby's `||` would skip such an entry and use the default.
- Configuration keys the shown logic never reads are not modelled: `:handle_local_errors`, `:handle_public_errors`, `:codes_for_exception_classes`, the template keys and `:request_env_to_skip`. Their only readers are defined outside this file.
- `request_data_from_request`, `log_exception`, `render_error_template` and `Juggler::ExceptionNotifier` are not part of this model. They are recorded as events, and nothing is claimed about what they return.
- Collaborators that raise are not modelled: the trace assumes that the request filter, the notifier and the logger each return normally. In the source nothing isolates their failures. A raise at line 194 or lines 204-216 skips the log and the rendering, escapes `handle_exception` and, being inside the `rescue` clause, escapes `notify_on_error` too. "Logs once" and "returns nil" hold only under that assumption.
- `Decisions.NotifyWithDelayedJob`: takes `is_a?(ActionController::Base)` (line 265) as the boolean `Env.isController`. In a process where ActionController is not defined (`Frameworks.actionController` false), the source raises NameError at that line. That happens before the notifier and the log are called, and the NameError escapes `handle_exception`. The model decides non-controller dispatch instead.
- `Decisions.NotifyWithDelayedJob` and `Juggler.Handled` assume name resolution: the unqualified `config` in the module functions (lines 191, 242-256, 266, 273) is taken to be `Juggler::ExceptionHandler.config`. The `ExceptionNotifier` checked at line 267 is taken to be the `Juggler::ExceptionNotifier` called at lines 204 and 211.
- `Decisions.StatusCodeForException`: self-reported codes are assumed to be non-nil Strings. An exception whose `status_code` returns nil yields nil at line 131 without consulting the table. The model cannot express that, because `selfCode == None` means "does not respond to `status_code`". An Integer code (say 500) never equals the Strings of `%w(405 500 503)` at line 256; the model cannot express that either.
- The `puts` debug output (lines 196, 224, 229) is not modelled. Neither are the `File.join` paths built from `RAILS_ROOT` / `JUGGLER_ROOT`.
- Delivery of notifications and the delayed_job `send_later` machinery are not modelled. They are foreign I/O and deferred execution.
- The process-wide `@@config` is not modelled as a shared global. It is a field of one `ExceptionHandler` object. A configuration that changes while exceptions are being handled (the hazard noted at lines 113-118) is not modelled.
- `Juggler.ExceptionHandler.NotifyOnError`: the block is given as its outcome, completed or raised. Any other effects of running the block are outside the model.
- `Juggler.ExceptionHandler.Configure`: the block is a function from configuration to configuration. Aliasing between the yielded hash and other references to it is not modelled.
