/** The in-memory order store, which starts empty (mock-order.repository.ts). */
module OrderRepositories {
  import opened Wrappers
  import opened DomainTypes
  import opened OrderedMaps
  import opened Orders

  /** The filters of the finders `findByStatus`, `findByTable`, `findByWaiter` and `findActive`. */
  datatype OrderQuery =
    | ByStatus(status: OrderStatus)
    | ByTable(tableId: string)
    | ByWaiter(waiterId: string)
    | ActiveOnly

  /** Whether an order passes a finder's filter. */
  predicate Matches(o: Order, q: OrderQuery)
    reads o
  {
    match q
    case ByStatus(s) => o.status == s
    case ByTable(t) => o.tableId == t
    case ByWaiter(w) => o.waiterId == w
    case ActiveOnly => !o.IsDelivered() && !o.IsCancelled()
  }

  /** The orders of `os` passing the filter, in their order. */
  function Select(os: seq<Order>, q: OrderQuery): (r: seq<Order>)
    reads os
    ensures forall o | o in r :: o in os && Matches(o, q)
    ensures forall o | o in os && Matches(o, q) :: o in r
    ensures |r| <= |os|
  {
    if os == [] then []
    else if Matches(os[0], q) then [os[0]] + Select(os[1..], q)
    else Select(os[1..], q)
  }

  /** Filtering keeps the relative order: it distributes over concatenation. */
  lemma {:induction false} SelectAppend(os: seq<Order>, more: seq<Order>, q: OrderQuery)
    ensures Select(os + more, q) == Select(os, q) + Select(more, q)
  {
    if os == [] {
      assert os + more == more;
    } else {
      assert (os + more)[1..] == os[1..] + more;
      SelectAppend(os[1..], more, q);
    }
  }

  /** What the use-cases throw when the store has no order under the id they were given. */
  const ErrOrderNotFound := Error(NotFound, "Pedido no encontrado")

  /** The object stored under `id`, as a set: empty when there is none (a frame for callers). */
  function StoredOrder(orders: MockOrderRepository, id: string): set<Order>
    reads orders
  {
    if id in orders.orders.entries then {orders.orders.entries[id]} else {}
  }

  /** Whether `o` is the object the store holds under its id. */
  predicate HoldsOrder(orders: MockOrderRepository, o: Order)
    reads orders
  {
    o.id in orders.orders.entries && orders.orders.entries[o.id] == o
  }

  class MockOrderRepository {
    var orders: OrderedMap<Order>

    /** Each order is stored under its own id. */
    ghost predicate Valid()
      reads this
    {
      orders.Valid() && forall k | k in orders.entries :: orders.entries[k].id == k
    }

    /** The seeding call is commented out in the source: the store starts empty. */
    constructor ()
      ensures Valid() && orders.entries == map[] && orders.keys == []
    {
      orders := Empty();
    }

    /** `findById`: the stored object itself, or `null`. */
    function FindById(id: string): (r: Option<Order>)
      reads this
      requires Valid()
      ensures r.Some? <==> id in orders.entries
      ensures r.Some? ==> r.value == orders.entries[id] && r.value.id == id
    {
      Get(orders, id)
    }

    /** `findAll`: the stored orders in insertion order. */
    function FindAll(): (r: seq<Order>)
      reads this
      requires Valid()
      ensures |r| == |orders.keys|
      ensures forall i | 0 <= i < |r| :: r[i] == orders.entries[orders.keys[i]]
    {
      Values(orders)
    }

    /** The shared body of the four filter finders: exactly the stored orders passing `q`. */
    function Find(q: OrderQuery): (r: seq<Order>)
      reads this, orders.entries.Values
      requires Valid()
      ensures forall o | o in r :: o in orders.entries.Values && Matches(o, q)
      ensures forall o | o in orders.entries.Values && Matches(o, q) :: o in r
    {
      ValuesAreEntries(orders);
      Select(FindAll(), q)
    }

    /** `findByStatus`: exactly the stored orders in that status. */
    function FindByStatus(status: OrderStatus): (r: seq<Order>)
      reads this, orders.entries.Values
      requires Valid()
      ensures forall o | o in r :: o in orders.entries.Values && o.status == status
      ensures forall o | o in orders.entries.Values && o.status == status :: o in r
    {
      Find(ByStatus(status))
    }

    /** `findByTable`: exactly the stored orders of that table. */
    function FindByTable(tableId: string): (r: seq<Order>)
      reads this, orders.entries.Values
      requires Valid()
      ensures forall o | o in r :: o in orders.entries.Values && o.tableId == tableId
      ensures forall o | o in orders.entries.Values && o.tableId == tableId :: o in r
    {
      Find(ByTable(tableId))
    }

    /** `findByWaiter`: exactly the stored orders taken by that waiter. */
    function FindByWaiter(waiterId: string): (r: seq<Order>)
      reads this, orders.entries.Values
      requires Valid()
      ensures forall o | o in r :: o in orders.entries.Values && o.waiterId == waiterId
      ensures forall o | o in orders.entries.Values && o.waiterId == waiterId :: o in r
    {
      Find(ByWaiter(waiterId))
    }

    /** `findActive`: exactly the stored orders neither DELIVERED nor CANCELLED. */
    function FindActive(): (r: seq<Order>)
      reads this, orders.entries.Values
      requires Valid()
      ensures forall o | o in r :: o in orders.entries.Values && IsActive(o.status)
      ensures forall o | o in orders.entries.Values && IsActive(o.status) :: o in r
    {
      Find(ActiveOnly)
    }

    /** `save`: upsert under the order's id. */
    method Save(order: Order) returns (r: Order)
      requires Valid()
      modifies this
      ensures Valid() && r == order
      ensures orders == Put(old(orders), order.id, order)
    {
      orders := Put(orders, order.id, order);
      return order;
    }

    /**
     * `update`: the same upsert as `save`. Putting back the object already stored under its id,
     * as the use-cases do after changing it in place, leaves the store as it was.
     */
    method Update(order: Order) returns (r: Order)
      requires Valid()
      modifies this
      ensures Valid() && r == order
      ensures orders == Put(old(orders), order.id, order)
      ensures old(order.id in orders.entries && orders.entries[order.id] == order) ==> orders == old(orders)
    {
      if order.id in orders.entries && orders.entries[order.id] == order {
        PutSame(orders, order.id);
      }
      orders := Put(orders, order.id, order);
      return order;
    }

    /** `delete`: removes that key, if present. */
    method Delete(id: string)
      requires Valid()
      modifies this
      ensures Valid()
      ensures orders == Remove(old(orders), id)
    {
      orders := Remove(orders, id);
    }
  }
}
