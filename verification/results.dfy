/** Outcomes of the polygon operations: either a value, or the Python
    exception the operation raises when the side list has the wrong shape. */
module Results {

  /** The exceptions a malformed side list raises. */
  datatype Error =
    | ValueError         // `a, b, c = self.lados` on a list whose length is not 3
    | IndexError         // `self.lados[i]` on a list that is too short
    | ZeroDivisionError  // dividing by a zero sum of the two bases

  /** A value, or the exception raised instead of producing it. */
  datatype Result<+T> = Success(value: T) | Failure(error: Error) {

    predicate IsFailure() {
      Failure?
    }

    function PropagateFailure<U>(): Result<U>
      requires Failure?
    {
      Failure(error)
    }

    function Extract(): T
      requires Success?
    {
      value
    }
  }
}
