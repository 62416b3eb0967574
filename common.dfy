/**
 * Identifiers, wrappers and the failure kinds shared by every controller.
 *
 * The model compares ObjectIds as canonical values and represents them as
 * natural numbers; each request is one atomic step over an in-memory store.
 */
module Common {

  type UserId = nat
  type ProductId = nat
  type OrderId = nat
  type ReviewId = nat

  datatype Option<T> = None | Some(value: T)

  datatype Result<T> = Ok(value: T) | Err(error: Failure)

  /** `req.user.role`: 'user' or 'admin'. */
  datatype Role = Customer | Admin

  /** The authenticated identity that the auth middleware attaches to a request. */
  datatype Caller = Caller(id: UserId, role: Role)

  /**
   * Every early return of the controllers, with the HTTP status it answers.
   * ValidationError and TypeError stand for exceptions handed to `next(error)`.
   */
  datatype Failure =
    | ProductNotFound        // 404
    | CartNotFound           // 404
    | ItemNotFound           // 404
    | OrderNotFound          // 404
    | ReviewNotFound         // 404
    | InsufficientStock(product: ProductId)  // 400
    | CartEmpty              // 400
    | PaymentFailed          // 400
    | CannotCancel           // 400
    | AlreadyReviewed        // 400
    | NotAuthorized          // 403
    | NotPurchased           // 403
    | ValidationError        // a Mongoose schema validator rejected a save
    | TypeError              // a populated product reference was null
}
