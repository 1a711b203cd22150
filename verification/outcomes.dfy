/** Optional values, and the exceptions the pages throw and catch, as values. */
module Outcomes {

  /** A value or a null reference. */
  datatype Option<+T> = None | Some(value: T)

  /** The exceptions the modelled code can raise. A toolkit call that throws
      yields `ToolkitError`; the others are raised by the pages themselves
      or by the .NET runtime on the paths the pages take. */
  datatype Failure =
    | ToolkitError(reason: string)      // decoding, parsing or the network failed inside the toolkit
    | RequestSignatureInvalid           // "The authentication request signature failed to verify."
    | ResponseSignatureInvalid          // "The SAML response signature failed to verify."
    | InvalidCast                       // a cache value of the other kind was cast
    | NoAssertion                       // Assertions[0] on an empty collection
    | NoNameId                          // the first assertion has no subject name identifier

  /** The outcome of a call that may throw; usable with `:-`. */
  datatype Result<+T> = Ok(value: T) | Fail(error: Failure) {
    predicate IsFailure() { Fail? }

    function PropagateFailure<U>(): Result<U>
      requires Fail?
    {
      Fail(error)
    }

    function Extract(): T
      requires Ok?
    {
      value
    }
  }
}
