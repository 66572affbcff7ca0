/**
  The errors the controller can see: those the cluster API reports (the
  apimachinery `errors` package tells them apart with IsNotFound, IsConflict
  and IsAlreadyExists), the owner-reference failure, and the parse errors
  of `resource.ParseQuantity` and `strconv.Atoi`.
*/
module Errors {

  datatype Error =
    | NotFound
    | AlreadyExists
    | Conflict
      /** Any other failure of an API call (forbidden, timeout, server error). */
    | ServerError(reason: string)
      /** `SetControllerReference` could not resolve the owner's kind in the scheme. */
    | NotRegistered
      /** `SetControllerReference` found another controller already owning the object. */
    | AlreadyOwned
      /** `resource.ParseQuantity` rejected this string. */
    | InvalidQuantity(quantity: string)
      /** `strconv.Atoi` rejected this string. */
    | InvalidNumber(number: string)
  {
    predicate IsNotFound() { NotFound? }
    predicate IsConflict() { Conflict? }
    predicate IsAlreadyExists() { AlreadyExists? }
  }
}
