/** A dining table and its four-state occupancy machine (src/domain/entities/Table.ts). */
module Tables {
  import opened Wrappers
  import opened DomainTypes

  const ErrNotAvailable := Error(TableUnavailable, "La mesa no está disponible")
  const ErrNotReservable := Error(TableUnavailable, "La mesa no está disponible para reservar")
  const ErrCapacity := Error(Validation, "La capacidad debe ser mayor a 0")

  /** The mutable fields of a table, as a value (`None` is the source's `null`). */
  datatype TableState = TableState(
    number: int,
    capacity: int,
    status: TableStatus,
    currentOrderId: Option<string>,
    location: string,
    updatedAt: Time)

  /** Number, capacity and location: what no status change touches. */
  predicate SameLayout(s: TableState, t: TableState) {
    s.number == t.number && s.capacity == t.capacity && s.location == t.location
  }

  /** A table holds an order id exactly while it is occupied. */
  predicate Consistent(s: TableState) {
    s.status == TableStatus.OCCUPIED <==> s.currentOrderId.Some?
  }

  /** `occupy`: only an AVAILABLE table takes an order. */
  function Occupied(s: TableState, orderId: string, now: Time): (r: Result<TableState>)
    ensures r.Ok? <==> s.status == TableStatus.AVAILABLE
    ensures r.Err? ==> r.error == ErrNotAvailable
    ensures r.Ok? ==> (r.value.status == TableStatus.OCCUPIED && r.value.currentOrderId == Some(orderId)
                   && r.value.updatedAt == now && SameLayout(s, r.value))
  {
    if s.status != TableStatus.AVAILABLE then Err(ErrNotAvailable)
    else Ok(s.(status := TableStatus.OCCUPIED, currentOrderId := Some(orderId), updatedAt := now))
  }

  /** `free`: from any state, to CLEANING without an order. */
  function Freed(s: TableState, now: Time): (r: TableState)
    ensures r.status == TableStatus.CLEANING && r.currentOrderId.None?
    ensures r.updatedAt == now && SameLayout(s, r)
  {
    s.(status := TableStatus.CLEANING, currentOrderId := None, updatedAt := now)
  }

  /** `markAsAvailable`: from any state, to AVAILABLE; the order id is left as it was. */
  function MadeAvailable(s: TableState, now: Time): (r: TableState)
    ensures r.status == TableStatus.AVAILABLE && r.currentOrderId == s.currentOrderId
    ensures r.updatedAt == now && SameLayout(s, r)
  {
    s.(status := TableStatus.AVAILABLE, updatedAt := now)
  }

  /** `reserve`: only an AVAILABLE table can be reserved. */
  function Reserved(s: TableState, now: Time): (r: Result<TableState>)
    ensures r.Ok? <==> s.status == TableStatus.AVAILABLE
    ensures r.Err? ==> r.error == ErrNotReservable
    ensures r.Ok? ==> (r.value.status == TableStatus.RESERVED && r.value.currentOrderId == s.currentOrderId
                   && r.value.updatedAt == now && SameLayout(s, r.value))
  {
    if s.status != TableStatus.AVAILABLE then Err(ErrNotReservable)
    else Ok(s.(status := TableStatus.RESERVED, updatedAt := now))
  }

  /** `updateCapacity`: a capacity below 1 is refused. */
  function CapacityUpdated(s: TableState, capacity: int, now: Time): (r: Result<TableState>)
    ensures r.Ok? <==> capacity >= 1
    ensures r.Err? ==> r.error == ErrCapacity
    ensures r.Ok? ==> (r.value.capacity == capacity && r.value.number == s.number
                   && r.value.location == s.location && r.value.status == s.status
                   && r.value.currentOrderId == s.currentOrderId && r.value.updatedAt == now)
  {
    if capacity < 1 then Err(ErrCapacity)
    else Ok(s.(capacity := capacity, updatedAt := now))
  }

  /** Freeing twice has the effect of freeing once (only the instant differs). */
  lemma {:induction false} FreeIdempotent(s: TableState, t1: Time, t2: Time)
    ensures Freed(Freed(s, t1), t2) == Freed(s, t2)
  {
  }

  /**
   * Every transition except `markAsAvailable` keeps "an order id exactly while OCCUPIED";
   * `markAsAvailable` keeps it too unless the table was OCCUPIED.
   */
  lemma {:induction false} TransitionsKeepConsistency(s: TableState, orderId: string, capacity: int, now: Time)
    requires Consistent(s)
    ensures Consistent(After(Occupied(s, orderId, now), s))
    ensures Consistent(Freed(s, now))
    ensures Consistent(After(Reserved(s, now), s))
    ensures Consistent(After(CapacityUpdated(s, capacity, now), s))
    ensures s.status != TableStatus.OCCUPIED ==> Consistent(MadeAvailable(s, now))
  {
  }

  /** Marking an OCCUPIED table as available leaves an AVAILABLE table that still names its order. */
  lemma {:induction false} AvailableKeepsStaleOrder(s: TableState, now: Time)
    requires s.status == TableStatus.OCCUPIED && s.currentOrderId.Some?
    ensures MadeAvailable(s, now).status == TableStatus.AVAILABLE
    ensures MadeAvailable(s, now).currentOrderId == s.currentOrderId
    ensures !Consistent(MadeAvailable(s, now))
  {
  }

  /** A reserved table cannot be occupied until it is made available again. */
  lemma {:induction false} ReservedBlocksOccupy(s: TableState, orderId: string, now: Time, later: Time)
    requires Reserved(s, now).Ok?
    ensures Occupied(Reserved(s, now).value, orderId, later).Err?
    ensures Occupied(MadeAvailable(Reserved(s, now).value, later), orderId, later).Ok?
  {
  }

  class Table {
    const id: string
    var number: int
    var capacity: int
    var status: TableStatus
    var currentOrderId: Option<string>
    var location: string
    const createdAt: Time
    var updatedAt: Time

    function State(): TableState
      reads this
    {
      TableState(number, capacity, status, currentOrderId, location, updatedAt)
    }

    /** `new Table(id, number, capacity, status, currentOrderId, location)` at instant `now`. */
    constructor (id: string, number: int, capacity: int, status: TableStatus,
                 currentOrderId: Option<string>, location: string, now: Time)
      ensures this.id == id && createdAt == now
      ensures State() == TableState(number, capacity, status, currentOrderId, location, now)
    {
      this.id := id;
      this.number := number;
      this.capacity := capacity;
      this.status := status;
      this.currentOrderId := currentOrderId;
      this.location := location;
      this.createdAt := now;
      this.updatedAt := now;
    }

    predicate IsAvailable()
      reads this
    {
      status == TableStatus.AVAILABLE
    }

    /**
     * The queries agree with the guards: `isAvailable` holds exactly when `occupy` and
     * `reserve` succeed, and a table is never both available and occupied.
     */
    lemma {:induction false} Queries(orderId: string, now: Time)
      ensures IsAvailable() <==> Occupied(State(), orderId, now).Ok?
      ensures IsAvailable() <==> Reserved(State(), now).Ok?
      ensures !(IsAvailable() && IsOccupied())
    {
    }

    predicate IsOccupied()
      reads this
    {
      status == TableStatus.OCCUPIED
    }

    method Occupy(orderId: string, now: Time) returns (r: Outcome)
      modifies this
      ensures r == OutcomeOf(Occupied(old(State()), orderId, now))
      ensures State() == After(Occupied(old(State()), orderId, now), old(State()))
    {
      if !IsAvailable() {
        return Fail(ErrNotAvailable);
      }
      status := TableStatus.OCCUPIED;
      currentOrderId := Some(orderId);
      updatedAt := now;
      return Pass;
    }

    method Free(now: Time)
      modifies this
      ensures State() == Freed(old(State()), now)
    {
      status := TableStatus.CLEANING;
      currentOrderId := None;
      updatedAt := now;
    }

    method MarkAsAvailable(now: Time)
      modifies this
      ensures State() == MadeAvailable(old(State()), now)
    {
      status := TableStatus.AVAILABLE;
      updatedAt := now;
    }

    method Reserve(now: Time) returns (r: Outcome)
      modifies this
      ensures r == OutcomeOf(Reserved(old(State()), now))
      ensures State() == After(Reserved(old(State()), now), old(State()))
    {
      if !IsAvailable() {
        return Fail(ErrNotReservable);
      }
      status := TableStatus.RESERVED;
      updatedAt := now;
      return Pass;
    }

    method UpdateCapacity(newCapacity: int, now: Time) returns (r: Outcome)
      modifies this
      ensures r == OutcomeOf(CapacityUpdated(old(State()), newCapacity, now))
      ensures State() == After(CapacityUpdated(old(State()), newCapacity, now), old(State()))
    {
      if newCapacity < 1 {
        return Fail(ErrCapacity);
      }
      capacity := newCapacity;
      updatedAt := now;
      return Pass;
    }
  }
}
