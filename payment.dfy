/** A payment for one order, paid in one or several parts (src/domain/entities/Payment.ts). */
module Payments {
  import opened Wrappers
  import opened DomainTypes

  const ErrNegativeAmount := Error(Validation, "El monto no puede ser negativo")
  const ErrNonPositivePayment := Error(Validation, "El monto debe ser mayor a 0")
  const ErrNotPaid := Error(InvalidState, "Solo se pueden reembolsar pagos completados")

  /** The mutable fields of a payment, as a value. */
  datatype PaymentState = PaymentState(
    orderId: string,
    amount: Money,
    paymentMethod: PaymentMethod,
    status: PaymentStatus,
    paidAmount: Money,
    updatedAt: Time,
    paidAt: Option<Time>)

  /** The `pending` getter: what is still owed, never negative. */
  function Pending(s: PaymentState): (p: Money)
    ensures p >= 0
    ensures p == 0 <==> s.paidAmount >= s.amount
    ensures p > 0 ==> s.paidAmount + p == s.amount
  {
    if s.amount - s.paidAmount > 0 then s.amount - s.paidAmount else 0
  }

  /** The `change` getter: what was paid in excess, never negative. */
  function Change(s: PaymentState): (c: Money)
    ensures c >= 0
    ensures c == 0 <==> s.paidAmount <= s.amount
    ensures c > 0 ==> s.amount + c == s.paidAmount
  {
    if s.paidAmount - s.amount > 0 then s.paidAmount - s.amount else 0
  }

  /** Owed and excess are never both non-zero, and their difference is the balance. */
  lemma {:induction false} PendingOrChange(s: PaymentState)
    ensures Pending(s) == 0 || Change(s) == 0
    ensures Pending(s) - Change(s) == s.amount - s.paidAmount
  {
  }

  /** `processPayment`: a positive part adds to what was paid; the status follows the total paid. */
  function Processed(s: PaymentState, part: Money, now: Time): (r: Result<PaymentState>)
    ensures r.Ok? <==> part > 0
    ensures r.Err? ==> r.error == ErrNonPositivePayment
    ensures r.Ok? ==> r.value.paidAmount == s.paidAmount + part
    ensures r.Ok? ==> (r.value.status == PaymentStatus.PAID <==> s.paidAmount + part >= s.amount)
    ensures r.Ok? ==> (r.value.status == PaymentStatus.PAID || r.value.status == PaymentStatus.PARTIAL)
    ensures r.Ok? ==> r.value.paidAt == if s.paidAmount + part >= s.amount then Some(now) else s.paidAt
    ensures r.Ok? ==> (r.value.orderId == s.orderId && r.value.amount == s.amount
                   && r.value.paymentMethod == s.paymentMethod && r.value.updatedAt == now)
  {
    if part <= 0 then Err(ErrNonPositivePayment)
    else
      var paid := s.paidAmount + part;
      if paid >= s.amount then Ok(s.(paidAmount := paid, status := PaymentStatus.PAID, paidAt := Some(now), updatedAt := now))
      else Ok(s.(paidAmount := paid, status := PaymentStatus.PARTIAL, updatedAt := now))
  }

  /** `refund`: only a PAID payment is refunded; nothing is given back of `paidAmount`. */
  function Refunded(s: PaymentState, now: Time): (r: Result<PaymentState>)
    ensures r.Ok? <==> s.status == PaymentStatus.PAID
    ensures r.Err? ==> r.error == ErrNotPaid
    ensures r.Ok? ==> (r.value.status == PaymentStatus.REFUNDED && r.value.paidAmount == s.paidAmount
                   && r.value.amount == s.amount && r.value.paidAt == s.paidAt && r.value.updatedAt == now)
  {
    if s.status != PaymentStatus.PAID then Err(ErrNotPaid)
    else Ok(s.(status := PaymentStatus.REFUNDED, updatedAt := now))
  }

  /** A PAID payment covers its amount; the state every payment the use-cases create keeps. */
  predicate Settled(s: PaymentState) {
    s.status == PaymentStatus.PAID ==> s.paidAmount >= s.amount
  }

  /** `processPayment` and `refund` keep a payment settled, whether they succeed or throw. */
  lemma {:induction false} TransitionsKeepSettled(s: PaymentState, part: Money, now: Time)
    requires Settled(s)
    ensures Settled(After(Processed(s, part, now), s))
    ensures Settled(After(Refunded(s, now), s))
  {
  }

  /** Any sequence of parts keeps a payment settled. */
  lemma {:induction false} ProcessAllKeepsSettled(s: PaymentState, parts: seq<Money>, now: Time)
    requires Settled(s)
    ensures Settled(ProcessAll(s, parts, now))
    decreases |parts|
  {
    if parts != [] {
      TransitionsKeepSettled(s, parts[0], now);
      ProcessAllKeepsSettled(After(Processed(s, parts[0], now), s), parts[1..], now);
    }
  }

  /** A further part never lowers a settled PAID payment: it stays PAID. */
  lemma {:induction false} PaidStaysPaid(s: PaymentState, part: Money, now: Time)
    requires s.status == PaymentStatus.PAID && Settled(s)
    ensures After(Processed(s, part, now), s).status == PaymentStatus.PAID
  {
  }

  /** No status check guards `processPayment`: a refunded payment becomes PAID again. */
  lemma {:induction false} RefundedPaysAgain(s: PaymentState, part: Money, now: Time, later: Time)
    requires s.status == PaymentStatus.PAID && s.paidAmount >= s.amount && part > 0
    ensures Refunded(s, now).Ok?
    ensures Processed(Refunded(s, now).value, part, later).Ok?
    ensures Processed(Refunded(s, now).value, part, later).value.status == PaymentStatus.PAID
  {
  }

  /** The state after applying `processPayment` to each part in turn; a refused part changes nothing. */
  function ProcessAll(s: PaymentState, parts: seq<Money>, now: Time): (r: PaymentState)
    ensures r.orderId == s.orderId && r.amount == s.amount && r.paymentMethod == s.paymentMethod
    ensures r.paidAmount >= s.paidAmount
    decreases |parts|
  {
    if parts == [] then s
    else ProcessAll(After(Processed(s, parts[0], now), s), parts[1..], now)
  }

  /** The positive parts of a sequence, summed. */
  function PositiveSum(parts: seq<Money>): (t: Money)
    ensures t >= 0
  {
    if parts == [] then 0 else (if parts[0] > 0 then parts[0] else 0) + PositiveSum(parts[1..])
  }

  /**
   * After any sequence of parts, the amount paid has grown by exactly the sum of the valid
   * parts, and the status is PAID exactly when the cumulative amount covers the bill (if at least
   * one valid part was made).
   */
  lemma {:induction false} ProcessAllAccumulates(s: PaymentState, parts: seq<Money>, now: Time)
    ensures ProcessAll(s, parts, now).paidAmount == s.paidAmount + PositiveSum(parts)
    ensures ProcessAll(s, parts, now).amount == s.amount
    ensures PositiveSum(parts) > 0 ==>
      (ProcessAll(s, parts, now).status == PaymentStatus.PAID <==> s.paidAmount + PositiveSum(parts) >= s.amount)
    ensures PositiveSum(parts) == 0 ==> ProcessAll(s, parts, now).status == s.status
    decreases |parts|
  {
    if parts != [] {
      var next := After(Processed(s, parts[0], now), s);
      ProcessAllAccumulates(next, parts[1..], now);
    }
  }

  class Payment {
    const id: string
    var orderId: string
    var amount: Money
    var paymentMethod: PaymentMethod
    var status: PaymentStatus
    var paidAmount: Money
    const createdAt: Time
    var updatedAt: Time
    var paidAt: Option<Time>

    function State(): PaymentState
      reads this
    {
      PaymentState(orderId, amount, paymentMethod, status, paidAmount, updatedAt, paidAt)
    }

    /** The object once the constructor's check has passed. */
    constructor Init(id: string, orderId: string, amount: Money, paymentMethod: PaymentMethod,
                     status: PaymentStatus, paidAmount: Money, now: Time)
      requires amount >= 0
      ensures this.id == id && createdAt == now
      ensures State() == PaymentState(orderId, amount, paymentMethod, status, paidAmount, now, None)
    {
      this.id := id;
      this.orderId := orderId;
      this.amount := amount;
      this.paymentMethod := paymentMethod;
      this.status := status;
      this.paidAmount := paidAmount;
      this.createdAt := now;
      this.updatedAt := now;
      this.paidAt := None;
    }

    /** `new Payment(...)`: throws for a negative amount. */
    static method New(id: string, orderId: string, amount: Money, paymentMethod: PaymentMethod,
                      status: PaymentStatus, paidAmount: Money, now: Time) returns (r: Result<Payment>)
      ensures r.Err? <==> amount < 0
      ensures r.Err? ==> r.error == ErrNegativeAmount
      ensures r.Ok? ==> fresh(r.value) && r.value.id == id && r.value.createdAt == now
      ensures r.Ok? ==> r.value.State() == PaymentState(orderId, amount, paymentMethod, status, paidAmount, now, None)
    {
      if amount < 0 {
        return Err(ErrNegativeAmount);
      }
      var p := new Payment.Init(id, orderId, amount, paymentMethod, status, paidAmount, now);
      return Ok(p);
    }

    predicate IsPaid() reads this { status == PaymentStatus.PAID }
    predicate IsPartial() reads this { status == PaymentStatus.PARTIAL }
    predicate IsPending() reads this { status == PaymentStatus.PENDING }

    /**
     * At most one of the three queries holds, `isPaid` is exactly when `refund` succeeds, and
     * after an accepted part the payment is paid or partial, never pending.
     */
    lemma {:induction false} Queries(part: Money, now: Time)
      ensures !(IsPaid() && IsPartial()) && !(IsPaid() && IsPending()) && !(IsPartial() && IsPending())
      ensures IsPaid() <==> Refunded(State(), now).Ok?
      ensures Processed(State(), part, now).Ok? ==> Processed(State(), part, now).value.status != PaymentStatus.PENDING
    {
    }

    method ProcessPayment(part: Money, now: Time) returns (r: Outcome)
      modifies this
      ensures r == OutcomeOf(Processed(old(State()), part, now))
      ensures State() == After(Processed(old(State()), part, now), old(State()))
    {
      if part <= 0 {
        return Fail(ErrNonPositivePayment);
      }
      paidAmount := paidAmount + part;
      if paidAmount >= amount {
        status := PaymentStatus.PAID;
        paidAt := Some(now);
      } else {
        status := PaymentStatus.PARTIAL;
      }
      updatedAt := now;
      return Pass;
    }

    method Refund(now: Time) returns (r: Outcome)
      modifies this
      ensures r == OutcomeOf(Refunded(old(State()), now))
      ensures State() == After(Refunded(old(State()), now), old(State()))
    {
      if !IsPaid() {
        return Fail(ErrNotPaid);
      }
      status := PaymentStatus.REFUNDED;
      updatedAt := now;
      return Pass;
    }
  }
}
