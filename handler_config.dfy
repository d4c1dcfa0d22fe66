/**
 * The handler's configuration hash (ExceptionHandler's `@@config`) as a
 * value, its default contents, and the in-place edits the configuration
 * block is documented to make.
 */
module HandlerConfig {

  import opened Wrappers
  import opened ErrorCodes

  /**
   * The configuration keys the handling logic reads. Ruby arrays stay
   * sequences, because the documented edit is `<<`; only membership is ever
   * asked of them.
   */
  datatype Config = Config(
    appName: string,
    notifyOnLocalError: bool,
    notifyOnPublicError: bool,
    notifyOnBackgroundError: bool,
    delayedJobForControllerErrors: bool,
    delayedJobForNonControllerErrors: bool,
    errorClassStatusCodes: CodeTable,
    notifyExceptionClasses: seq<ClassId>,
    notifyStatusCodes: seq<string>)

  /** The configuration the class starts with, given which framework constants are defined. */
  function DefaultConfig(fw: Frameworks): Config {
    Config(
      appName := "",
      notifyOnLocalError := false,
      notifyOnPublicError := true,
      notifyOnBackgroundError := true,
      delayedJobForControllerErrors := false,
      delayedJobForNonControllerErrors := false,
      errorClassStatusCodes := CodesForExceptionClasses(fw),
      notifyExceptionClasses := [],
      notifyStatusCodes := ["405", "500", "503"])
  }

  /**
   * `handler_config[:error_class_status_codes].merge! extra`, where the
   * merged hash may also hold a `:default` entry (`extraDefault`): the
   * entries of `extra` are added or overwrite, a merged default replaces
   * the default, every other entry stays.
   */
  function MergeStatusCodes(c: Config, extra: map<ClassId, string>, extraDefault: Option<string>): (c': Config)
    ensures extraDefault.Some? ==> c'.errorClassStatusCodes.defaultCode == extraDefault.value
    ensures extraDefault.None? ==> c'.errorClassStatusCodes.defaultCode == c.errorClassStatusCodes.defaultCode
    ensures forall k :: k in extra ==> k in c'.errorClassStatusCodes.byClass && c'.errorClassStatusCodes.byClass[k] == extra[k]
    ensures forall k :: k !in extra ==>
      (k in c'.errorClassStatusCodes.byClass <==> k in c.errorClassStatusCodes.byClass) &&
      (k in c.errorClassStatusCodes.byClass ==> c'.errorClassStatusCodes.byClass[k] == c.errorClassStatusCodes.byClass[k])
    ensures c'.(errorClassStatusCodes := c.errorClassStatusCodes) == c
  {
    var table := c.errorClassStatusCodes;
    c.(errorClassStatusCodes := CodeTable(table.byClass + extra, extraDefault.GetOr(table.defaultCode)))
  }

  /** `handler_config[:notify_exception_classes] << cls` */
  function AddNotifyExceptionClass(c: Config, cls: ClassId): (c': Config)
    ensures cls in c'.notifyExceptionClasses
    ensures forall k :: k in c.notifyExceptionClasses ==> k in c'.notifyExceptionClasses
    ensures forall k :: k in c'.notifyExceptionClasses ==> k in c.notifyExceptionClasses || k == cls
    ensures c'.(notifyExceptionClasses := c.notifyExceptionClasses) == c
  {
    c.(notifyExceptionClasses := c.notifyExceptionClasses + [cls])
  }

  /** `handler_config[:notify_status_codes] << code` */
  function AddNotifyStatusCode(c: Config, code: string): (c': Config)
    ensures code in c'.notifyStatusCodes
    ensures forall k :: k in c.notifyStatusCodes ==> k in c'.notifyStatusCodes
    ensures forall k :: k in c'.notifyStatusCodes ==> k in c.notifyStatusCodes || k == code
    ensures c'.(notifyStatusCodes := c.notifyStatusCodes) == c
  {
    c.(notifyStatusCodes := c.notifyStatusCodes + [code])
  }
}
