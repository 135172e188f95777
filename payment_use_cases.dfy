/** The payment use-cases (src/application/use-cases/payment.use-cases.ts). */
module PaymentUseCases {
  import opened Wrappers
  import opened DomainTypes
  import opened OrderedMaps
  import opened Orders
  import opened Tables
  import opened Payments
  import opened OrderRepositories
  import opened TableRepositories
  import opened PaymentRepositories
  import opened Events

  const ErrNotDelivered := Error(InvalidState, "Solo se pueden crear pagos para pedidos entregados")
  const ErrPaymentExists := Error(DuplicatePayment, "Ya existe un pago para este pedido")

  /** Whether some stored payment is for that order. */
  predicate HasPaymentFor(payments: MockPaymentRepository, orderId: string)
    reads payments, payments.payments.entries.Values
  {
    exists p | p in payments.payments.entries.Values :: p.orderId == orderId
  }

  /** The payment `CreatePaymentUseCase` builds: PENDING, nothing paid yet, so all of it is owed. */
  function NewPaymentState(orderId: string, amount: Money, paymentMethod: PaymentMethod, now: Time)
    : (s: PaymentState)
    ensures amount >= 0 ==> Pending(s) == amount && Change(s) == 0
    ensures Settled(s) && s.paidAt.None?
  {
    PaymentState(orderId, amount, paymentMethod, PaymentStatus.PENDING, 0, now, None)
  }

  /**
   * `CreatePaymentUseCase.execute`: the order must exist and be DELIVERED, and no payment may
   * exist for it yet; the `Payment` constructor then throws for a negative amount. The amount
   * is the caller's and is not compared with the order's total. `paymentId` is the fresh UUID.
   */
  method CreatePayment(payments: MockPaymentRepository, orders: MockOrderRepository, ws: EventSink,
                       orderId: string, amount: Money, paymentMethod: PaymentMethod,
                       paymentId: string, now: Time)
    returns (r: Result<Payment>)
    requires payments.Valid() && orders.Valid()
    modifies payments, ws
    ensures payments.Valid()
    ensures r.Err? ==> payments.payments == old(payments.payments) && ws.log == old(ws.log)
    ensures orderId !in orders.orders.entries ==> r == Err(ErrOrderNotFound)
    ensures orderId in orders.orders.entries && !orders.orders.entries[orderId].IsDelivered() ==>
      r == Err(ErrNotDelivered)
    ensures orderId in orders.orders.entries && orders.orders.entries[orderId].IsDelivered() ==>
      (old(HasPaymentFor(payments, orderId)) ==> r == Err(ErrPaymentExists))
      && (!old(HasPaymentFor(payments, orderId)) && amount < 0 ==> r == Err(ErrNegativeAmount))
      && (!old(HasPaymentFor(payments, orderId)) && amount >= 0 ==>
            r.Ok? && fresh(r.value) && r.value.id == paymentId && r.value.createdAt == now
            && r.value.State() == NewPaymentState(orderId, amount, paymentMethod, now)
            && payments.payments == Put(old(payments.payments), paymentId, r.value)
            && ws.log == old(ws.log) + [PaymentEvent(PaymentCreated, r.value)])
  {
    var order := orders.FindById(orderId);
    if order.None? {
      return Err(ErrOrderNotFound);
    }
    if !order.value.IsDelivered() {
      return Err(ErrNotDelivered);
    }
    var existing := payments.FindByOrder(orderId);
    if existing.Some? {
      return Err(ErrPaymentExists);
    }
    var made := Payment.New(paymentId, orderId, amount, paymentMethod, PaymentStatus.PENDING, 0, now);
    if made.Err? {
      return Err(made.error);
    }
    var saved := payments.Save(made.value);
    ws.Emit(PaymentCreated, PaymentPayload(saved.id, saved.State()));
    return Ok(saved);
  }

  /** The table of the stored order `orderId`, if both are in their stores (a frame for callers). */
  function TableOfOrder(orders: MockOrderRepository, tables: MockTableRepository, orderId: string)
    : set<Table>
    reads orders, tables, orders.orders.entries.Values
  {
    if orderId in orders.orders.entries then StoredTable(tables, orders.orders.entries[orderId].tableId)
    else {}
  }

  /**
   * `ProcessPaymentUseCase.execute`: the part goes through `processPayment` (which throws for a
   * part that is not positive), the payment is put back, and then, when the payment is PAID,
   * the table of its order is freed if both still exist and `payment:completed` is sent;
   * otherwise `payment:partial`. No table event is sent.
   */
  method ProcessPayment(payments: MockPaymentRepository, orders: MockOrderRepository,
                        tables: MockTableRepository, ws: EventSink,
                        paymentId: string, part: Money, now: Time)
    returns (r: Result<Payment>)
    requires payments.Valid() && orders.Valid() && tables.Valid()
    modifies payments, tables, ws, StoredPayment(payments, paymentId)
    modifies if paymentId in payments.payments.entries
             then TableOfOrder(orders, tables, payments.payments.entries[paymentId].orderId) else {}
    ensures payments.Valid() && payments.payments == old(payments.payments)
    ensures tables.Valid() && tables.tables == old(tables.tables)
    ensures paymentId !in payments.payments.entries ==>
      r == Err(ErrPaymentNotFound) && ws.log == old(ws.log)
    ensures paymentId in payments.payments.entries ==>
      var p := payments.payments.entries[paymentId];
      var u := Processed(old(p.State()), part, now);
      p.State() == After(u, old(p.State()))
      && (u.Err? ==> r == Err(u.error) && ws.log == old(ws.log))
      && (u.Ok? && u.value.status == PaymentStatus.PAID ==>
            r == Ok(p) && ws.log == old(ws.log) + [PaymentEvent(PaymentCompleted, p)])
      && (u.Ok? && u.value.status != PaymentStatus.PAID ==>
            r == Ok(p) && ws.log == old(ws.log) + [PaymentEvent(PaymentPartial, p)])
      && (p.orderId in orders.orders.entries
          && orders.orders.entries[p.orderId].tableId in tables.tables.entries ==>
            var t := tables.tables.entries[orders.orders.entries[p.orderId].tableId];
            t.State() == if u.Ok? && u.value.status == PaymentStatus.PAID then Freed(old(t.State()), now)
                         else old(t.State()))
  {
    var found := payments.FindById(paymentId);
    if found.None? {
      return Err(ErrPaymentNotFound);
    }
    r := ProcessStored(payments, orders, tables, ws, found.value, part, now);
  }

  /** `ProcessPaymentUseCase` once the payment is found. */
  method ProcessStored(payments: MockPaymentRepository, orders: MockOrderRepository,
                       tables: MockTableRepository, ws: EventSink,
                       payment: Payment, part: Money, now: Time)
    returns (r: Result<Payment>)
    requires payments.Valid() && orders.Valid() && tables.Valid() && HoldsPayment(payments, payment)
    modifies payments, tables, ws, payment, TableOfOrder(orders, tables, payment.orderId)
    ensures payments.Valid() && payments.payments == old(payments.payments)
    ensures tables.Valid() && tables.tables == old(tables.tables)
    ensures var u := Processed(old(payment.State()), part, now);
      payment.State() == After(u, old(payment.State()))
      && (u.Err? ==> r == Err(u.error) && ws.log == old(ws.log))
      && (u.Ok? && u.value.status == PaymentStatus.PAID ==>
            r == Ok(payment) && ws.log == old(ws.log) + [PaymentEvent(PaymentCompleted, payment)])
      && (u.Ok? && u.value.status != PaymentStatus.PAID ==>
            r == Ok(payment) && ws.log == old(ws.log) + [PaymentEvent(PaymentPartial, payment)])
      && (payment.orderId in orders.orders.entries
          && orders.orders.entries[payment.orderId].tableId in tables.tables.entries ==>
            var t := tables.tables.entries[orders.orders.entries[payment.orderId].tableId];
            t.State() == if u.Ok? && u.value.status == PaymentStatus.PAID then Freed(old(t.State()), now)
                         else old(t.State()))
  {
    var step := payment.ProcessPayment(part, now);
    if step.Fail? {
      return Err(step.error);
    }
    var updated := payments.Update(payment);
    if payment.IsPaid() {
      var order := orders.FindById(payment.orderId);
      if order.Some? {
        var table := tables.FindById(order.value.tableId);
        if table.Some? {
          FreeStored(tables, table.value, now);
        }
      }
      ws.Emit(PaymentCompleted, PaymentPayload(updated.id, updated.State()));
    } else {
      ws.Emit(PaymentPartial, PaymentPayload(updated.id, updated.State()));
    }
    return Ok(updated);
  }

  /** `RefundPaymentUseCase.execute`: only a PAID payment is refunded; emits `payment:refunded`. */
  method RefundPayment(payments: MockPaymentRepository, ws: EventSink, paymentId: string, now: Time)
    returns (r: Result<Payment>)
    requires payments.Valid()
    modifies payments, ws, StoredPayment(payments, paymentId)
    ensures payments.Valid() && payments.payments == old(payments.payments)
    ensures paymentId !in payments.payments.entries ==>
      r == Err(ErrPaymentNotFound) && ws.log == old(ws.log)
    ensures paymentId in payments.payments.entries ==>
      var p := payments.payments.entries[paymentId];
      var u := Refunded(old(p.State()), now);
      p.State() == After(u, old(p.State()))
      && (u.Err? ==> r == Err(u.error) && ws.log == old(ws.log))
      && (u.Ok? ==> r == Ok(p) && ws.log == old(ws.log) + [PaymentEvent(PaymentRefunded, p)])
  {
    var found := payments.FindById(paymentId);
    if found.None? {
      return Err(ErrPaymentNotFound);
    }
    var payment := found.value;
    var step := payment.Refund(now);
    if step.Fail? {
      return Err(step.error);
    }
    var refunded := payments.Update(payment);
    ws.Emit(PaymentRefunded, PaymentPayload(refunded.id, refunded.State()));
    return Ok(refunded);
  }

  /** `GetPaymentByOrderUseCase.execute`: a stored payment for the order, or none when there is none. */
  function GetPaymentByOrder(payments: MockPaymentRepository, orderId: string): (r: Option<Payment>)
    reads payments, payments.payments.entries.Values
    requires payments.Valid()
    ensures r.Some? ==> r.value in payments.payments.entries.Values && r.value.orderId == orderId
    ensures r.None? <==> !HasPaymentFor(payments, orderId)
  {
    payments.FindByOrder(orderId)
  }
}
