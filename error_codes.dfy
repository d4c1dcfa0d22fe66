/**
 * The exception classes the handler knows by name, and the table from
 * exception classes to HTTP status codes that the handler starts from
 * (Juggler.codes_for_exception_classes).
 */
module ErrorCodes {

  import opened Wrappers

  /** An exception class, compared by identity as Ruby compares hash keys. */
  datatype ClassId =
    // standard Ruby errors
    | NameError
    | TypeError
    | RuntimeError
    | ArgumentError
    // framework errors, present only when their framework is loaded
    | ActionViewTemplateError
    | ActiveRecordRecordNotFound
    | ActiveResourceResourceNotFound
    | UnknownController
    | MissingTemplate
    | MethodNotAllowed
    | UnknownAction
    | RoutingError
    | InvalidAuthenticityToken
    // any other class, by its name
    | OtherClass(name: string)

  /**
   * Which optional framework constants are defined in the running process:
   * each field is the outcome of one `defined?(...)` / `const_defined?(...)`
   * test. The six ActionController constants are only consulted when
   * ActionController itself is defined.
   */
  datatype Frameworks = Frameworks(
    templateError: bool,
    recordNotFound: bool,
    resourceNotFound: bool,
    actionController: bool,
    unknownController: bool,
    missingTemplate: bool,
    methodNotAllowed: bool,
    unknownAction: bool,
    routingError: bool,
    invalidAuthenticityToken: bool)

  /**
   * The class-to-code hash. Its `:default` entry is kept in a field of its
   * own, so that a default always exists.
   */
  datatype CodeTable = CodeTable(byClass: map<ClassId, string>, defaultCode: string)

  /** The entries present whatever frameworks are loaded. */
  const BuiltinCodes: map<ClassId, string> :=
    map[NameError := "503", TypeError := "503", RuntimeError := "500", ArgumentError := "500"]

  /** Reference definition: is the framework class `c` defined in this process? */
  predicate Detected(fw: Frameworks, c: ClassId) {
    match c
    case ActionViewTemplateError => fw.templateError
    case ActiveRecordRecordNotFound => fw.recordNotFound
    case ActiveResourceResourceNotFound => fw.resourceNotFound
    case UnknownController => fw.actionController && fw.unknownController
    case MissingTemplate => fw.actionController && fw.missingTemplate
    case MethodNotAllowed => fw.actionController && fw.methodNotAllowed
    case UnknownAction => fw.actionController && fw.unknownAction
    case RoutingError => fw.actionController && fw.routingError
    case InvalidAuthenticityToken => fw.actionController && fw.invalidAuthenticityToken
    case _ => false
  }

  /** Reference definition: the code a detected framework class is given. */
  function FrameworkCode(c: ClassId): string {
    match c
    case ActiveRecordRecordNotFound => "400"
    case ActiveResourceResourceNotFound => "404"
    case UnknownController => "404"
    case MissingTemplate => "404"
    case MethodNotAllowed => "405"
    case UnknownAction => "501"
    case RoutingError => "404"
    case InvalidAuthenticityToken => "405"
    case _ => "500"
  }

  /** One `classes.merge!({ cls => code }) if present` step. */
  datatype Merge = Merge(present: bool, cls: ClassId, code: string)

  function MergeIf(t: CodeTable, m: Merge): CodeTable {
    if m.present then t.(byClass := t.byClass[m.cls := m.code]) else t
  }

  /** Successive conditional merges, applied left to right. */
  function ApplyMerges(t: CodeTable, merges: seq<Merge>): (r: CodeTable)
    ensures r.defaultCode == t.defaultCode
    decreases |merges|
  {
    if merges == [] then t else ApplyMerges(MergeIf(t, merges[0]), merges[1..])
  }

  /** The framework merges in the source's order; the ActionController ones sit under `defined?(ActionController)`. */
  function FrameworkMerges(fw: Frameworks): seq<Merge> {
    [ Merge(fw.templateError, ActionViewTemplateError, "500"),
      Merge(fw.recordNotFound, ActiveRecordRecordNotFound, "400"),
      Merge(fw.resourceNotFound, ActiveResourceResourceNotFound, "404"),
      Merge(fw.actionController && fw.unknownController, UnknownController, "404"),
      Merge(fw.actionController && fw.missingTemplate, MissingTemplate, "404"),
      Merge(fw.actionController && fw.methodNotAllowed, MethodNotAllowed, "405"),
      Merge(fw.actionController && fw.unknownAction, UnknownAction, "501"),
      Merge(fw.actionController && fw.routingError, RoutingError, "404"),
      Merge(fw.actionController && fw.invalidAuthenticityToken, InvalidAuthenticityToken, "405") ]
  }

  /** The starting table: the four standard errors and a "500" default, then the framework merges. */
  function CodesForExceptionClasses(fw: Frameworks): (t: CodeTable)
    ensures t.defaultCode == "500"
  {
    ApplyMerges(CodeTable(BuiltinCodes, "500"), FrameworkMerges(fw))
  }

  /** Merges that name other classes leave the entry for `c` as it was. */
  lemma {:induction false} ApplyMergesUntouched(t: CodeTable, merges: seq<Merge>, c: ClassId)
    requires forall i :: 0 <= i < |merges| ==> merges[i].cls != c
    ensures var r := ApplyMerges(t, merges);
      (c in r.byClass <==> c in t.byClass) && (c in t.byClass ==> r.byClass[c] == t.byClass[c])
    decreases |merges|
  {
    if merges != [] {
      ApplyMergesUntouched(MergeIf(t, merges[0]), merges[1..], c);
    }
  }

  /** A class named by exactly one merge has an entry afterwards iff that merge applied or it had one before. */
  lemma {:induction false} ApplyMergesOnce(t: CodeTable, merges: seq<Merge>, c: ClassId, k: nat)
    requires k < |merges| && merges[k].cls == c
    requires forall i :: 0 <= i < |merges| && i != k ==> merges[i].cls != c
    ensures var r := ApplyMerges(t, merges);
      && (c in r.byClass <==> merges[k].present || c in t.byClass)
      && (merges[k].present ==> r.byClass[c] == merges[k].code)
      && (!merges[k].present && c in t.byClass ==> r.byClass[c] == t.byClass[c])
    decreases |merges|
  {
    var t' := MergeIf(t, merges[0]);
    if k == 0 {
      ApplyMergesUntouched(t', merges[1..], c);
    } else {
      ApplyMergesOnce(t', merges[1..], c, k - 1);
    }
  }

  /** Index of the merge that names `c` in FrameworkMerges, if any. */
  function MergeIndex(c: ClassId): (k: Option<nat>)
    ensures k.Some? ==> k.value < 9
  {
    match c
    case ActionViewTemplateError => Some(0)
    case ActiveRecordRecordNotFound => Some(1)
    case ActiveResourceResourceNotFound => Some(2)
    case UnknownController => Some(3)
    case MissingTemplate => Some(4)
    case MethodNotAllowed => Some(5)
    case UnknownAction => Some(6)
    case RoutingError => Some(7)
    case InvalidAuthenticityToken => Some(8)
    case _ => None
  }

  /** What the starting table holds for one class. */
  lemma CodesForExceptionClassesAt(fw: Frameworks, c: ClassId)
    ensures var t := CodesForExceptionClasses(fw);
      && (c in BuiltinCodes ==> c in t.byClass && t.byClass[c] == BuiltinCodes[c])
      && (c !in BuiltinCodes ==> (c in t.byClass <==> Detected(fw, c)))
      && (c in t.byClass && c !in BuiltinCodes ==> t.byClass[c] == FrameworkCode(c))
  {
    var t0, ms := CodeTable(BuiltinCodes, "500"), FrameworkMerges(fw);
    var k := MergeIndex(c);
    if k.Some? {
      ApplyMergesOnce(t0, ms, c, k.value);
    } else {
      ApplyMergesUntouched(t0, ms, c);
    }
  }

  /**
   * The conditional framework merges only add their own keys: every
   * built-in entry survives with its built-in code, a framework class has
   * an entry exactly when it is detected, with its framework code, and the
   * default is "500".
   */
  lemma CodesForExceptionClassesContents(fw: Frameworks)
    ensures var t := CodesForExceptionClasses(fw);
      && t.defaultCode == "500"
      && (forall c :: c in BuiltinCodes ==> c in t.byClass && t.byClass[c] == BuiltinCodes[c])
      && (forall c :: c !in BuiltinCodes ==> (c in t.byClass <==> Detected(fw, c)))
      && (forall c :: c in t.byClass && c !in BuiltinCodes ==> t.byClass[c] == FrameworkCode(c))
  {
    forall c {
      CodesForExceptionClassesAt(fw, c);
    }
  }
}
