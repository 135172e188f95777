/**
 * The closed value sets of the domain (src/domain/types.ts), the clock, money, and the
 * way a guarded operation reports failure.
 */
module DomainTypes {

  datatype UserRole = ADMIN | WAITER | CHEF

  datatype OrderStatus = PENDING | CONFIRMED | PREPARING | READY | DELIVERED | CANCELLED

  datatype TableStatus = AVAILABLE | OCCUPIED | RESERVED | CLEANING

  datatype MenuItemCategory = APPETIZER | MAIN_COURSE | DESSERT | BEVERAGE | SPECIAL

  /** The string value of a category, which is what `findByCategory` compares against. */
  function CategoryName(c: MenuItemCategory): string {
    match c
    case APPETIZER => "APPETIZER"
    case MAIN_COURSE => "MAIN_COURSE"
    case DESSERT => "DESSERT"
    case BEVERAGE => "BEVERAGE"
    case SPECIAL => "SPECIAL"
  }

  /** Distinct categories have distinct string values. */
  lemma {:induction false} CategoryNameInjective(c: MenuItemCategory, d: MenuItemCategory)
    ensures CategoryName(c) == CategoryName(d) <==> c == d
  {
  }

  datatype PaymentMethod = CASH | CARD | DIGITAL

  datatype PaymentStatus = PENDING | PAID | PARTIAL | REFUNDED

  /** An instant as produced by `new Date()`; the caller supplies it. */
  type Time = int

  /** A monetary amount, in the same unit as the source's prices (fractions are not modelled). */
  type Money = int

  /** The kinds of failure the core raises. */
  datatype ErrorKind =
    | NotFound            // an id does not resolve in a repository
    | Validation          // a malformed argument (negative price, quantity <= 0, ...)
    | InvalidState        // the operation is not allowed from the current status
    | EmptyOrder          // confirming an order without items
    | TableUnavailable    // occupying or reserving a table that is not AVAILABLE
    | DuplicatePayment    // a second payment for one order
    | Conflict            // a taken table number, or deleting an occupied table

  /** A thrown `Error`: its kind and the message the source throws. */
  datatype Error = Error(kind: ErrorKind, message: string)

  /** The value of an operation that either returns or throws. */
  datatype Result<+T> = Ok(value: T) | Err(error: Error)

  /** Thrown alike by an order line and a menu item for a price below zero. */
  const ErrNegativePrice := Error(Validation, "El precio no puede ser negativo")

  /** The outcome of an operation that returns nothing or throws. */
  datatype Outcome = Pass | Fail(error: Error)

  /** The outcome of a result, forgetting its value. */
  function OutcomeOf<T>(r: Result<T>): Outcome {
    if r.Ok? then Pass else Fail(r.error)
  }

  /** The state after a guarded step: the new state on success, the old one on failure. */
  function After<S>(r: Result<S>, previous: S): S {
    if r.Ok? then r.value else previous
  }
}
