/** Option and Result vocabulary shared by every module. */
module Base {

  datatype Option<+T> = None | Some(value: T)

  /** The refusals a transaction can end with. */
  datatype Error =
    | Invalid      // malformed input
    | Conflict     // the stored state does not allow it
    | NotFound
    | Gone         // a confirmation token that is used, expired or unknown
    | Internal     // not part of any vocabulary: surfaces as a server error

  datatype Result<+T> = Success(value: T) | Failure(error: Error) {
    predicate IsFailure() { Failure? }

    function PropagateFailure<U>(): Result<U>
      requires Failure?
    {
      Failure(error)
    }

    function Extract(): T
      requires Success?
    {
      value
    }
  }

  type Id = nat

  type Time = int

  function Abs(x: int): nat { if x < 0 then -x else x }

  function Min(a: int, b: int): int { if a <= b then a else b }

  function Max(a: int, b: int): int { if a >= b then a else b }
}
