/** Error values and exit codes (builder/descriptive_error.go), with the two ways the program
    wraps them: `fmt.Errorf` with %w can be seen through by `errors.As`, the vendored
    github.com/pkg/errors v0.8.1 has no Unwrap method and cannot. */
module Errors {
  import opened Prelude

  const SYSTEM_FAIL_CODE := 1
  const DETECT_FAIL_CODE := 222
  const COMPILE_FAIL_CODE := 223
  const RELEASE_FAIL_CODE := 224
  const SUPPLY_FAIL_CODE := 225
  const FINALIZE_FAIL_CODE := 227

  const DETECT_FAIL_MSG := "NoAppDetectedError"
  const FULL_DETECT_FAIL_MSG := "None of the buildpacks detected a compatible application"
  const COMPILE_FAIL_MSG := "BuildpackCompileFailed"
  const RELEASE_FAIL_MSG := "BuildpackReleaseFailed"
  const SUPPLY_FAIL_MSG := "Failed to run all supply scripts"
  const NO_SUPPLY_SCRIPT_FAIL_MSG :=
    "Error: one of the buildpacks chosen to supply dependencies does not support multi-buildpack apps"
  const FINALIZE_FAIL_MSG := "Failed to run finalize script"

  datatype Error =
    | Plain(msg: string)
    | Formatted(msg: string, inner: Error)
    | Annotated(msg: string, inner: Error)
    | NotZipFile(inner: Error)
    | Descriptive(exitCode: int, msg: string, cause: Option<Error>)

  function NewCompileFailError(err: Error): Error {
    Descriptive(COMPILE_FAIL_CODE, COMPILE_FAIL_MSG, Some(err))
  }

  function NewReleaseFailError(err: Error): Error {
    Descriptive(RELEASE_FAIL_CODE, RELEASE_FAIL_MSG, Some(err))
  }

  function NewSupplyFailError(err: Error): Error {
    Descriptive(SUPPLY_FAIL_CODE, SUPPLY_FAIL_MSG, Some(err))
  }

  function NewFinalizeFailError(err: Error): Error {
    Descriptive(FINALIZE_FAIL_CODE, FINALIZE_FAIL_MSG, Some(err))
  }

  /** Called with a nil inner error. */
  function NewNoSupplyScriptFailError(): Error {
    Descriptive(SUPPLY_FAIL_CODE, NO_SUPPLY_SCRIPT_FAIL_MSG, None)
  }

  function DetectFailError(): Error {
    Descriptive(DETECT_FAIL_CODE, DETECT_FAIL_MSG, Some(Plain(FULL_DETECT_FAIL_MSG)))
  }

  /** `errors.As(err, &DescriptiveError{})`, and the exit code it finds. */
  function AsDescriptive(err: Error): Option<int> {
    match err
    case Plain(_) => None
    case Formatted(_, inner) => AsDescriptive(inner)
    case Annotated(_, _) => None
    case NotZipFile(_) => None
    case Descriptive(code, _, _) => Some(code)
  }

  /** `errors.As(err, &NotZipFileError{})`. */
  predicate IsNotZip(err: Error) {
    match err
    case Formatted(_, inner) => IsNotZip(inner)
    case NotZipFile(_) => true
    case _ => false
  }

  /** The numbers and texts that go with each failure, and which wrappers let them through. */
  lemma FailErrors(err: Error, msg: string)
    ensures NewCompileFailError(err) == Descriptive(223, "BuildpackCompileFailed", Some(err))
    ensures NewReleaseFailError(err) == Descriptive(224, "BuildpackReleaseFailed", Some(err))
    ensures NewSupplyFailError(err) == Descriptive(225, "Failed to run all supply scripts", Some(err))
    ensures NewFinalizeFailError(err) == Descriptive(227, "Failed to run finalize script", Some(err))
    ensures DetectFailError().exitCode == 222 && DetectFailError().msg == "NoAppDetectedError"
    ensures NewNoSupplyScriptFailError().exitCode == 225 && NewNoSupplyScriptFailError().cause.None?
    ensures AsDescriptive(Formatted(msg, err)) == AsDescriptive(err) && AsDescriptive(Annotated(msg, err)) == None
  {
  }
}
