/** The validation applicative: build a value from independently validated
    inputs and keep every input's errors, not just the first. */
module Validation {

  /** A non-empty list of error messages (`NonEmptyList<string>`). */
  type Errors = e: seq<string> | |e| > 0 witness ["error"]

  /** `FSharpChoice<T, Errors>`: a validated value or the errors found. */
  datatype Validated<T> = Success(value: T) | Failure(errors: Errors)

  /** The errors a validated value carries; none for a success. */
  function ErrorsOf<T>(x: Validated<T>): seq<string> {
    match x
    case Success(_) => []
    case Failure(e) => e
  }

  /** `FSharpChoice.Validator(valid, message)`: succeed with the input where
      `valid` holds, otherwise fail with the single message. */
  function Validator<T(!new)>(valid: T -> bool, message: string): (v: T -> Validated<T>)
    ensures forall x :: v(x).Success? <==> valid(x)
    ensures forall x :: v(x).Success? ==> v(x).value == x
    ensures forall x :: v(x).Failure? ==> v(x).errors == [message]
  {
    x => if valid(x) then Success(x) else Failure([message])
  }

  /** `ApValidation`: apply a validated function to a validated argument.
      The result succeeds exactly when both sides do; otherwise its errors
      are the function side's followed by the argument side's. */
  function Ap<A, B>(f: Validated<A -> B>, x: Validated<A>): (r: Validated<B>)
    ensures r.Success? <==> f.Success? && x.Success?
    ensures r.Success? ==> r.value == f.value(x.value)
    ensures ErrorsOf(r) == ErrorsOf(f) + ErrorsOf(x)
  {
    match (f, x)
    case (Success(g), Success(a)) => Success(g(a))
    case (Success(_), Failure(e)) => Failure(e)
    case (Failure(e), Success(_)) => Failure(e)
    case (Failure(e1), Failure(e2)) => Failure(e1 + e2)
  }
}
