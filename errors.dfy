/**
  The exceptions the core throws, as values. `Message()` is what a
  `catch (Exception ex)` handler sees in `ex.Message`.
*/
module Errors {
  import opened Wrappers
  import opened Text

  datatype Error =
    | ArgumentError(text: string, paramName: string)
    | ArgumentNullError(paramName: string)
    | InvalidOperationError(text: string)
    | DirectoryNotFoundError(text: string)
    | IOError(text: string)
    | IndexOutOfRangeError
      /** An exception raised inside a library call this model does not see
          (image decoding, the network, the disk). */
    | ServiceError(text: string)
  {
    /** `Exception.Message`; argument exceptions append the parameter name. */
    function Message(): string {
      match this
      case ArgumentError(t, p) => t + ParameterText(p)
      case ArgumentNullError(p) => NullText + ParameterText(p)
      case InvalidOperationError(t) => t
      case DirectoryNotFoundError(t) => t
      case IOError(t) => t
      case IndexOutOfRangeError => IndexOutOfRangeText
      case ServiceError(t) => t
    }
  }

  const NullText := "Value cannot be null."
  const IndexOutOfRangeText :=
    "Index was out of range. Must be non-negative and less than the size of the collection. (Parameter 'index')"

  /** The parameter name an argument exception appends to its text. */
  function ParameterText(p: string): string {
    " (Parameter '" + p + "')"
  }

  const WhiteSpaceArgumentText := "The value cannot be an empty string or composed entirely of whitespace."

  /** `ArgumentException.ThrowIfNullOrWhiteSpace(arg)`, where `name` is the
      argument's expression text. */
  function ThrowIfNullOrWhiteSpace(arg: Option<string>, name: string): (o: Outcome<Error>)
    ensures o.Pass? <==> !IsNullOrWhiteSpace(arg)
    ensures arg.None? ==> o == Fail(ArgumentNullError(name))
    ensures arg.Some? && o.Fail? ==> o == Fail(ArgumentError(WhiteSpaceArgumentText, name))
  {
    match arg
    case None => Fail(ArgumentNullError(name))
    case Some(s) => if AllWhiteSpace(s) then Fail(ArgumentError(WhiteSpaceArgumentText, name)) else Pass
  }
}
