/** The in-memory payment store: no seed and no delete (mock-payment.repository.ts). */
module PaymentRepositories {
  import opened Wrappers
  import opened DomainTypes
  import opened OrderedMaps
  import opened Payments

  /** The first payment of `ps` for that order (`Array.prototype.find`). */
  function FirstForOrder(ps: seq<Payment>, orderId: string): (r: Option<Payment>)
    reads ps
    ensures r.Some? ==> exists i | 0 <= i < |ps| :: ps[i] == r.value
                          && (forall j | 0 <= j < i :: ps[j].orderId != orderId)
    ensures r.Some? ==> r.value.orderId == orderId
    ensures r.None? <==> forall p | p in ps :: p.orderId != orderId
  {
    if ps == [] then None
    else if ps[0].orderId == orderId then Some(ps[0])
    else
      var rest := FirstForOrder(ps[1..], orderId);
      if rest.Some? then
        ghost var i :| 0 <= i < |ps[1..]| && ps[1..][i] == rest.value
                       && (forall j | 0 <= j < i :: ps[1..][j].orderId != orderId);
        assert ps[i + 1] == rest.value;
        rest
      else rest
  }

  /** What the use-cases throw when the store has no payment under the id they were given. */
  const ErrPaymentNotFound := Error(NotFound, "Pago no encontrado")

  /** The object stored under `id`, as a set: empty when there is none (a frame for callers). */
  function StoredPayment(payments: MockPaymentRepository, id: string): set<Payment>
    reads payments
  {
    if id in payments.payments.entries then {payments.payments.entries[id]} else {}
  }

  /** Whether `p` is the object the store holds under its id. */
  predicate HoldsPayment(payments: MockPaymentRepository, p: Payment)
    reads payments
  {
    p.id in payments.payments.entries && payments.payments.entries[p.id] == p
  }

  class MockPaymentRepository {
    var payments: OrderedMap<Payment>

    /** Each payment is stored under its own id. */
    ghost predicate Valid()
      reads this
    {
      payments.Valid() && forall k | k in payments.entries :: payments.entries[k].id == k
    }

    constructor ()
      ensures Valid() && payments.entries == map[] && payments.keys == []
    {
      payments := Empty();
    }

    /** `findById`: the stored object itself, or `null`. */
    function FindById(id: string): (r: Option<Payment>)
      reads this
      requires Valid()
      ensures r.Some? <==> id in payments.entries
      ensures r.Some? ==> r.value == payments.entries[id] && r.value.id == id
    {
      Get(payments, id)
    }

    /** `findByOrder`: a stored payment for that order, or `null` when there is none. */
    function FindByOrder(orderId: string): (r: Option<Payment>)
      reads this, payments.entries.Values
      requires Valid()
      ensures r.Some? ==> r.value in payments.entries.Values && r.value.orderId == orderId
      ensures r.None? <==> forall p | p in payments.entries.Values :: p.orderId != orderId
    {
      ValuesAreEntries(payments);
      FirstForOrder(FindAll(), orderId)
    }

    /** `findAll`: the stored payments in insertion order. */
    function FindAll(): (r: seq<Payment>)
      reads this
      requires Valid()
      ensures |r| == |payments.keys|
      ensures forall i | 0 <= i < |r| :: r[i] == payments.entries[payments.keys[i]]
    {
      Values(payments)
    }

    /** `save`: upsert under the payment's id. */
    method Save(payment: Payment) returns (r: Payment)
      requires Valid()
      modifies this
      ensures Valid() && r == payment
      ensures payments == Put(old(payments), payment.id, payment)
    {
      payments := Put(payments, payment.id, payment);
      return payment;
    }

    /**
     * `update`: the same upsert as `save`. Putting back the object already stored under its id,
     * as the use-cases do after changing it in place, leaves the store as it was.
     */
    method Update(payment: Payment) returns (r: Payment)
      requires Valid()
      modifies this
      ensures Valid() && r == payment
      ensures payments == Put(old(payments), payment.id, payment)
      ensures old(payment.id in payments.entries && payments.entries[payment.id] == payment) ==> payments == old(payments)
    {
      if payment.id in payments.entries && payments.entries[payment.id] == payment {
        PutSame(payments, payment.id);
      }
      payments := Put(payments, payment.id, payment);
      return payment;
    }
  }
}
