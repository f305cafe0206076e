/** Failure-compatible results and the configuration errors raised by the extension. */
module Errors {

  datatype Option<T> = None | Some(value: T)

  /** The errors the extension raises. All of them are IllegalArgumentExceptions in the
      source; NumberFormat is the NumberFormatException thrown by Integer.parseInt. */
  datatype Error =
    | NoDataSource                               // no resource field was found
    | DuplicateDataSource(name: string)          // two resource fields share a name
    | NoImplicitOrder                            // no explicit order and no trailing digits
    | NumberFormat(input: string)                // Integer.parseInt rejected its input
    | MissingDataSource(name: string)            // a referenced resource is not declared
    | DuplicateBinderConfiguration(name: string) // two binder configurations target one resource
    | NoOuterInstance                            // the enclosing-instance chain ran out

  datatype Result<T> = Ok(value: T) | Err(error: Error) {
    predicate IsFailure() { Err? }
    function PropagateFailure<U>(): Result<U> requires Err? { Err(error) }
    function Extract(): T requires Ok? { value }
  }

  datatype Outcome = Pass | Fail(error: Error)

  predicate EndsWith(s: string, suffix: string) {
    |suffix| <= |s| && s[|s| - |suffix|..] == suffix
  }

  lemma EndsWithAppend(prefix: string, s: string)
    ensures EndsWith(prefix + s, s)
  {
    assert (prefix + s)[|prefix|..] == s;
  }

  /** The exception message of each error. */
  function Message(e: Error): string {
    match e
    case NoDataSource => "No @DbSetupSource found"
    case DuplicateDataSource(n) => "There is more than 1 @DbSetupSource named: " + n
    case NoImplicitOrder =>
      "No order specified and implicit order cannot be determined by inspecting the field name"
    case NumberFormat(s) => "For input string: \"" + s + "\""
    case MissingDataSource(n) => "This data sources does not exist: " + n
    case DuplicateBinderConfiguration(n) => "There is more than 1 BinderConfiguration for DataSource: " + n
    case NoOuterInstance => "Cannot map outer instance to outer methods found"
  }

  /** The message of an error about a named resource ends with that name. */
  lemma MessageNamesResource(e: Error)
    requires e.DuplicateDataSource? || e.MissingDataSource? || e.DuplicateBinderConfiguration?
    ensures EndsWith(Message(e), e.name)
  {
    match e
    case DuplicateDataSource(n) => EndsWithAppend("There is more than 1 @DbSetupSource named: ", n);
    case MissingDataSource(n) => EndsWithAppend("This data sources does not exist: ", n);
    case DuplicateBinderConfiguration(n) =>
      EndsWithAppend("There is more than 1 BinderConfiguration for DataSource: ", n);
  }
}
