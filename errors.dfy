/**
 * The engine's error kinds (engine/src/error.rs) and the way every metric turns
 * a quotient into a result.
 */
module EngineErrors {
  import opened Wrappers

  datatype ErrorKind =
    | DivisionByZero
    | IndeterminateForm
    | EmptyRatings
    | NoMatchingRatings
    | ConvertType
    | EmptyKNearestNeighbors
    | NotImplemented
    | IndexOutOfBound

  /**
   * `num / den` followed by the metrics' `is_nan` / `is_infinite` checks. With
   * finite operands the quotient is NaN exactly for 0/0 and infinite exactly for
   * x/0 with x != 0; overflow of finite values is not modelled.
   */
  function Divide(num: real, den: real): (r: Result<real, ErrorKind>)
    ensures r.Ok? <==> den != 0.0
    ensures r == Err(IndeterminateForm) <==> den == 0.0 && num == 0.0
    ensures r == Err(DivisionByZero) <==> den == 0.0 && num != 0.0
    ensures r.Ok? ==> r.value * den == num
  {
    if den == 0.0 then
      (if num == 0.0 then Err(IndeterminateForm) else Err(DivisionByZero))
    else
      Ok(num / den)
  }
}
