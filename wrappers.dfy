/** Result types used throughout the model.

    - Option<T> stands for a .NET reference that may be null: None is null.
    - Outcome<E> is the result of a validator that either returns normally
      (Pass) or throws the exception E (Fail).
    - Result<T, E> is the result of an operation that either returns a value
      or throws.
 */
module Wrappers {

  datatype Option<+T> = None | Some(value: T)

  datatype Outcome<+E> = Pass | Fail(error: E)

  datatype Result<+T, +E> = Ok(value: T) | Err(error: E)

  /** Runs a sequence of validators the way consecutive calls run in .NET:
      the first one that throws stops the rest, and its exception is the
      one the caller sees. */
  function FirstFailure<E>(checks: seq<Outcome<E>>): (r: Outcome<E>)
    ensures r.Pass? <==> forall i :: 0 <= i < |checks| ==> checks[i].Pass?
    ensures forall i ::
              (0 <= i < |checks| && checks[i].Fail? && forall j :: 0 <= j < i ==> checks[j].Pass?)
              ==> r == checks[i]
  {
    if checks == [] then Pass
    else if checks[0].Fail? then checks[0]
    else
      var rest := FirstFailure(checks[1..]);
      assert forall i :: 0 < i < |checks| ==> checks[i] == checks[1..][i - 1];
      rest
  }
}
