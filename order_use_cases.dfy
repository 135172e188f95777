/** The order use-cases (src/application/use-cases/order.use-cases.ts). */
module OrderUseCases {
  import opened Wrappers
  import opened DomainTypes
  import opened OrderedMaps
  import opened OrderItems
  import opened Orders
  import opened Tables
  import opened OrderRepositories
  import opened TableRepositories
  import opened Events

  const ErrNotModifiable := Error(InvalidState, "El pedido no puede ser modificado en su estado actual")

  /** One requested line: what the caller sends for each item. */
  datatype ItemRequest = ItemRequest(
    menuItemId: string,
    menuItemName: string,
    quantity: int,
    unitPrice: Money,
    notes: Option<string>)

  /** The line a request becomes under a fresh id (missing notes become the empty string). */
  function RequestedLine(q: ItemRequest, id: string): (s: ItemState)
    ensures s.id == id && s.menuItemId == q.menuItemId && s.menuItemName == q.menuItemName
    ensures s.quantity == q.quantity && s.unitPrice == q.unitPrice
    ensures q.notes.None? ==> s.notes == ""
  {
    ItemState(id, q.menuItemId, q.menuItemName, q.quantity, q.unitPrice, q.notes.GetOr(""))
  }

  /** The lines of a whole request list, in request order. */
  function RequestedLines(qs: seq<ItemRequest>, ids: seq<string>): (r: seq<ItemState>)
    requires |ids| == |qs|
    ensures |r| == |qs|
    ensures forall i | 0 <= i < |qs| :: r[i] == RequestedLine(qs[i], ids[i])
  {
    if qs == [] then [] else [RequestedLine(qs[0], ids[0])] + RequestedLines(qs[1..], ids[1..])
  }

  /** Whether a request passes the line constructor's checks. */
  predicate Acceptable(q: ItemRequest) {
    ItemError(q.quantity, q.unitPrice).None?
  }

  /** The error the first rejected request throws, if any: the lines are built in request order. */
  function RequestError(qs: seq<ItemRequest>): (e: Option<Error>)
    ensures e.None? <==> forall i | 0 <= i < |qs| :: Acceptable(qs[i])
  {
    if qs == [] then None
    else if !Acceptable(qs[0]) then ItemError(qs[0].quantity, qs[0].unitPrice)
    else
      var rest := RequestError(qs[1..]);
      assert forall i | 1 <= i < |qs| :: qs[i] == qs[1..][i - 1];
      rest
  }

  /** The error is the one of the first rejected request. */
  lemma {:induction false} RequestErrorAt(qs: seq<ItemRequest>, i: nat)
    requires i < |qs| && !Acceptable(qs[i])
    requires forall j | 0 <= j < i :: Acceptable(qs[j])
    ensures RequestError(qs) == ItemError(qs[i].quantity, qs[i].unitPrice)
  {
    if i > 0 {
      assert forall j | 0 <= j < i - 1 :: qs[1..][j] == qs[j + 1];
      RequestErrorAt(qs[1..], i - 1);
    }
  }

  /** `items.map(item => new OrderItem(...))`: fresh lines in request order, or the first throw. */
  method BuildItems(qs: seq<ItemRequest>, ids: seq<string>, now: Time) returns (r: Result<seq<OrderItem>>)
    requires |ids| == |qs|
    ensures r.Err? <==> RequestError(qs).Some?
    ensures r.Err? ==> r.error == RequestError(qs).value
    ensures r.Ok? ==> Distinct(r.value) && StatesOf(r.value) == RequestedLines(qs, ids)
    ensures r.Ok? ==> forall i | 0 <= i < |r.value| :: fresh(r.value[i])
  {
    var items: seq<OrderItem> := [];
    for i := 0 to |qs|
      invariant |items| == i && Distinct(items)
      invariant forall j | 0 <= j < i :: Acceptable(qs[j])
      invariant forall j | 0 <= j < i :: fresh(items[j])
                                         && items[j].State() == RequestedLine(qs[j], ids[j])
    {
      var q := qs[i];
      var line := OrderItem.New(ids[i], q.menuItemId, q.menuItemName, q.quantity, q.unitPrice,
                                q.notes.GetOr(""), now);
      if line.Err? {
        RequestErrorAt(qs, i);
        return Err(line.error);
      }
      items := items + [line.value];
    }
    StatesOfPointwise(items);
    assert StatesOf(items) == RequestedLines(qs, ids);
    return Ok(items);
  }

  /** The order the use-case persists: its lines, CONFIRMED at `now`. */
  function CreatedState(tableId: string, waiterId: string, lines: seq<ItemState>, now: Time): OrderState {
    OrderState(tableId, waiterId, lines, OrderStatus.CONFIRMED, "", now, Some(now), None)
  }

  /**
   * `CreateOrderUseCase.execute`. The table must exist; the lines are built and the order is
   * confirmed, which throws for a rejected line or an empty list, before anything is stored.
   * The confirmed order is then saved, and only after that is the table occupied: when the table
   * is not AVAILABLE the use-case throws with the order already persisted and no event sent.
   * `orderId` and `itemIds` are the fresh UUIDs.
   */
  method CreateOrder(orders: MockOrderRepository, tables: MockTableRepository, ws: EventSink,
                     tableId: string, waiterId: string, qs: seq<ItemRequest>,
                     orderId: string, itemIds: seq<string>, now: Time)
    returns (r: Result<Order>)
    requires orders.Valid() && tables.Valid() && |itemIds| == |qs|
    modifies orders, tables, ws, StoredTable(tables, tableId)
    ensures orders.Valid() && tables.Valid() && tables.tables == old(tables.tables)
    ensures tableId !in tables.tables.entries ==>
      r == Err(ErrTableNotFound) && orders.orders == old(orders.orders) && ws.log == old(ws.log)
    ensures tableId in tables.tables.entries && RequestError(qs).Some? ==>
      r == Err(RequestError(qs).value) && orders.orders == old(orders.orders) && ws.log == old(ws.log)
      && tables.tables.entries[tableId].State() == old(tables.tables.entries[tableId].State())
    ensures tableId in tables.tables.entries && RequestError(qs).None? && qs == [] ==>
      r == Err(ErrNoItems) && orders.orders == old(orders.orders) && ws.log == old(ws.log)
      && tables.tables.entries[tableId].State() == old(tables.tables.entries[tableId].State())
    ensures tableId in tables.tables.entries && RequestError(qs).None? && qs != [] ==>
      orderId in orders.orders.entries
      && var o := orders.orders.entries[orderId];
      var t := tables.tables.entries[tableId];
      var st := old(t.State());
      fresh(o) && o.id == orderId && o.createdAt == now && orders.orders == Put(old(orders.orders), orderId, o)
      && o.State() == CreatedState(tableId, waiterId, RequestedLines(qs, itemIds), now)
      && (st.status != TableStatus.AVAILABLE ==>
            r == Err(ErrNotAvailable) && t.State() == st && ws.log == old(ws.log))
      && (st.status == TableStatus.AVAILABLE ==>
            r == Ok(o) && t.State() == Occupied(st, orderId, now).value
            && ws.log == old(ws.log) + [OrderEvent(OrderCreated, o), OrderEvent(OrderConfirmed, o)])
  {
    var found := tables.FindById(tableId);
    if found.None? {
      return Err(ErrTableNotFound);
    }
    var made := NewConfirmedOrder(tableId, waiterId, qs, orderId, itemIds, now);
    if made.Err? {
      return Err(made.error);
    }
    r := SaveAndOccupy(orders, tables, ws, made.value, found.value, now);
  }

  /**
   * The first half of `CreateOrderUseCase`: the lines are built, then the new order is
   * confirmed, which throws for an empty list.
   */
  method NewConfirmedOrder(tableId: string, waiterId: string, qs: seq<ItemRequest>,
                           orderId: string, itemIds: seq<string>, now: Time)
    returns (r: Result<Order>)
    requires |itemIds| == |qs|
    ensures RequestError(qs).Some? ==> r == Err(RequestError(qs).value)
    ensures RequestError(qs).None? && qs == [] ==> r == Err(ErrNoItems)
    ensures RequestError(qs).None? && qs != [] ==>
      r.Ok? && fresh(r.value) && r.value.id == orderId && r.value.createdAt == now
      && r.value.State() == CreatedState(tableId, waiterId, RequestedLines(qs, itemIds), now)
  {
    var built := BuildItems(qs, itemIds, now);
    if built.Err? {
      return Err(built.error);
    }
    var order := new Order(orderId, tableId, waiterId, built.value, now);
    var confirmed := order.Confirm(now);
    if confirmed.Fail? {
      return Err(confirmed.error);
    }
    return Ok(order);
  }

  /**
   * The second half of `CreateOrderUseCase`: save the order, then occupy its table, which
   * throws (with the order already saved) unless the table is AVAILABLE; then put the table
   * back and announce the order as created and as confirmed.
   */
  method SaveAndOccupy(orders: MockOrderRepository, tables: MockTableRepository, ws: EventSink,
                       order: Order, table: Table, now: Time)
    returns (r: Result<Order>)
    requires orders.Valid() && tables.Valid() && HoldsTable(tables, table)
    modifies orders, tables, ws, table
    ensures orders.Valid() && tables.Valid() && tables.tables == old(tables.tables)
    ensures orders.orders == Put(old(orders.orders), order.id, order)
    ensures order.State() == old(order.State())
    ensures old(table.State()).status != TableStatus.AVAILABLE ==>
      r == Err(ErrNotAvailable) && table.State() == old(table.State()) && ws.log == old(ws.log)
    ensures old(table.State()).status == TableStatus.AVAILABLE ==>
      r == Ok(order) && table.State() == Occupied(old(table.State()), order.id, now).value
      && ws.log == old(ws.log) + [OrderEvent(OrderCreated, order), OrderEvent(OrderConfirmed, order)]
  {
    ghost var created := order.State();
    var saved := orders.Save(order);
    var occupied := table.Occupy(order.id, now);
    assert order.State() == created;
    if occupied.Fail? {
      return Err(occupied.error);
    }
    var _ := tables.Update(table);
    assert order.State() == created;
    AnnounceCreated(ws, saved);
    return Ok(saved);
  }

  /** The tail of `CreateOrderUseCase`: `order:created`, then `order:confirmed`, for the same order. */
  method AnnounceCreated(ws: EventSink, order: Order)
    modifies ws
    ensures ws.log == old(ws.log) + [OrderEvent(OrderCreated, order), OrderEvent(OrderConfirmed, order)]
  {
    ws.Emit(OrderCreated, OrderPayload(order.id, order.State()));
    ws.Emit(OrderConfirmed, OrderPayload(order.id, order.State()));
  }

  /** The new fields `UpdateOrderUseCase` asks for; `items` replaces the whole list when given. */
  datatype OrderUpdates = OrderUpdates(items: Option<seq<ItemRequest>>, notes: Option<string>)

  /** Whether the item list of an update is absent or passes every line check. */
  predicate LinesAccepted(updates: OrderUpdates) {
    updates.items.Some? ==> RequestError(updates.items.value).None?
  }

  /** The order an accepted update leaves: new lines if given, new notes if given, same instant. */
  function UpdatedState(s: OrderState, updates: OrderUpdates, itemIds: seq<string>): OrderState
    requires updates.items.Some? ==> |itemIds| == |updates.items.value|
  {
    s.(items := if updates.items.Some? then RequestedLines(updates.items.value, itemIds) else s.items,
       notes := updates.notes.GetOr(s.notes))
  }

  /**
   * `UpdateOrderUseCase.execute`: only a PENDING order may change. A given item list (even an
   * empty one, which is truthy) replaces every line with fresh ones; given notes replace the
   * notes. `updatedAt` is left as it was. `itemIds` are the fresh UUIDs of the new lines.
   */
  method UpdateOrder(orders: MockOrderRepository, ws: EventSink, orderId: string,
                     updates: OrderUpdates, itemIds: seq<string>, now: Time)
    returns (r: Result<Order>)
    requires orders.Valid()
    requires updates.items.Some? ==> |itemIds| == |updates.items.value|
    modifies orders, ws, StoredOrder(orders, orderId)
    ensures orders.Valid() && orders.orders == old(orders.orders)
    ensures orderId !in orders.orders.entries ==> r == Err(ErrOrderNotFound) && ws.log == old(ws.log)
    ensures orderId in orders.orders.entries ==>
      var o := orders.orders.entries[orderId];
      var s := old(o.State());
      (!CanBeModified(s) ==> r == Err(ErrNotModifiable) && o.State() == s && ws.log == old(ws.log))
      && (CanBeModified(s) && !LinesAccepted(updates) ==>
            r == Err(RequestError(updates.items.value).value) && o.State() == s
            && ws.log == old(ws.log))
      && (CanBeModified(s) && LinesAccepted(updates) ==>
            r == Ok(o) && o.State() == UpdatedState(s, updates, itemIds)
            && ws.log == old(ws.log) + [OrderEvent(OrderUpdated, o)])
  {
    var found := orders.FindById(orderId);
    if found.None? {
      return Err(ErrOrderNotFound);
    }
    r := UpdateStored(orders, ws, found.value, updates, itemIds, now);
  }

  /** `UpdateOrderUseCase` once the order is found. */
  method UpdateStored(orders: MockOrderRepository, ws: EventSink, order: Order,
                      updates: OrderUpdates, itemIds: seq<string>, now: Time)
    returns (r: Result<Order>)
    requires orders.Valid() && HoldsOrder(orders, order)
    requires updates.items.Some? ==> |itemIds| == |updates.items.value|
    modifies orders, ws, order
    ensures orders.Valid() && orders.orders == old(orders.orders)
    ensures var s := old(order.State());
      (!CanBeModified(s) ==> r == Err(ErrNotModifiable) && order.State() == s && ws.log == old(ws.log))
      && (CanBeModified(s) && !LinesAccepted(updates) ==>
            r == Err(RequestError(updates.items.value).value) && order.State() == s
            && ws.log == old(ws.log))
      && (CanBeModified(s) && LinesAccepted(updates) ==>
            r == Ok(order) && order.State() == UpdatedState(s, updates, itemIds)
            && ws.log == old(ws.log) + [OrderEvent(OrderUpdated, order)])
  {
    if order.status != OrderStatus.PENDING {
      return Err(ErrNotModifiable);
    }
    var applied := ApplyUpdates(order, updates, itemIds, now);
    if applied.Fail? {
      return Err(applied.error);
    }
    var updated := orders.Update(order);
    ws.Emit(OrderUpdated, OrderPayload(updated.id, updated.State()));
    return Ok(updated);
  }

  /** The in-place part of `UpdateOrderUseCase`: new lines if given, then notes if given. */
  method ApplyUpdates(order: Order, updates: OrderUpdates, itemIds: seq<string>, now: Time)
    returns (r: Outcome)
    requires updates.items.Some? ==> |itemIds| == |updates.items.value|
    modifies order
    ensures !LinesAccepted(updates) ==>
      r == Fail(RequestError(updates.items.value).value) && order.State() == old(order.State())
    ensures LinesAccepted(updates) ==>
      r == Pass && order.State() == UpdatedState(old(order.State()), updates, itemIds)
  {
    if updates.items.Some? {
      var built := BuildItems(updates.items.value, itemIds, now);
      if built.Err? {
        return Fail(built.error);
      }
      order.items := built.value;
    }
    if updates.notes.Some? {
      order.notes := updates.notes.value;
    }
    return Pass;
  }

  /**
   * The shared shape of `ConfirmOrderUseCase`, `StartPreparingOrderUseCase` and
   * `MarkOrderAsReadyUseCase`: find the order, run the transition (which may throw with the
   * order unchanged), put it back and announce it under `name`.
   */
  method AdvanceOrder(orders: MockOrderRepository, ws: EventSink, orderId: string, op: Advance,
                      name: string, now: Time)
    returns (r: Result<Order>)
    requires orders.Valid()
    modifies orders, ws, StoredOrder(orders, orderId)
    ensures orders.Valid() && orders.orders == old(orders.orders)
    ensures orderId !in orders.orders.entries ==> r == Err(ErrOrderNotFound) && ws.log == old(ws.log)
    ensures orderId in orders.orders.entries ==>
      var o := orders.orders.entries[orderId];
      var u := Advanced(old(o.State()), op, now);
      o.State() == After(u, old(o.State()))
      && (u.Err? ==> r == Err(u.error) && ws.log == old(ws.log))
      && (u.Ok? ==> r == Ok(o) && ws.log == old(ws.log) + [OrderEvent(name, o)])
  {
    var found := orders.FindById(orderId);
    if found.None? {
      return Err(ErrOrderNotFound);
    }
    var order := found.value;
    var step := Apply(order, op, now);
    if step.Fail? {
      return Err(step.error);
    }
    var updated := orders.Update(order);
    ws.Emit(name, OrderPayload(updated.id, updated.State()));
    return Ok(updated);
  }

  /** Runs the entity method the advance names. */
  method Apply(order: Order, op: Advance, now: Time) returns (r: Outcome)
    modifies order
    ensures r == OutcomeOf(Advanced(old(order.State()), op, now))
    ensures order.State() == After(Advanced(old(order.State()), op, now), old(order.State()))
  {
    match op {
      case Confirm => r := order.Confirm(now);
      case StartPreparing => r := order.StartPreparing(now);
      case MarkAsReady => r := order.MarkAsReady(now);
      case Deliver => r := order.Deliver(now);
    }
  }

  /** `ConfirmOrderUseCase.execute`: only a PENDING order with lines; emits `order:confirmed`. */
  method ConfirmOrder(orders: MockOrderRepository, ws: EventSink, orderId: string, now: Time)
    returns (r: Result<Order>)
    requires orders.Valid()
    modifies orders, ws, StoredOrder(orders, orderId)
    ensures orders.Valid() && orders.orders == old(orders.orders)
    ensures orderId !in orders.orders.entries ==> r == Err(ErrOrderNotFound) && ws.log == old(ws.log)
    ensures orderId in orders.orders.entries ==>
      var o := orders.orders.entries[orderId];
      var u := Confirmed(old(o.State()), now);
      o.State() == After(u, old(o.State()))
      && (u.Err? ==> r == Err(u.error) && ws.log == old(ws.log))
      && (u.Ok? ==> r == Ok(o) && ws.log == old(ws.log) + [OrderEvent(OrderConfirmed, o)])
  {
    r := AdvanceOrder(orders, ws, orderId, Confirm, OrderConfirmed, now);
  }

  /** `StartPreparingOrderUseCase.execute`: only a CONFIRMED order; emits `order:preparing`. */
  method StartPreparingOrder(orders: MockOrderRepository, ws: EventSink, orderId: string, now: Time)
    returns (r: Result<Order>)
    requires orders.Valid()
    modifies orders, ws, StoredOrder(orders, orderId)
    ensures orders.Valid() && orders.orders == old(orders.orders)
    ensures orderId !in orders.orders.entries ==> r == Err(ErrOrderNotFound) && ws.log == old(ws.log)
    ensures orderId in orders.orders.entries ==>
      var o := orders.orders.entries[orderId];
      var u := PreparingStarted(old(o.State()), now);
      o.State() == After(u, old(o.State()))
      && (u.Err? ==> r == Err(u.error) && ws.log == old(ws.log))
      && (u.Ok? ==> r == Ok(o) && ws.log == old(ws.log) + [OrderEvent(OrderPreparing, o)])
  {
    r := AdvanceOrder(orders, ws, orderId, StartPreparing, OrderPreparing, now);
  }

  /** `MarkOrderAsReadyUseCase.execute`: only a PREPARING order; emits `order:ready`. */
  method MarkOrderAsReady(orders: MockOrderRepository, ws: EventSink, orderId: string, now: Time)
    returns (r: Result<Order>)
    requires orders.Valid()
    modifies orders, ws, StoredOrder(orders, orderId)
    ensures orders.Valid() && orders.orders == old(orders.orders)
    ensures orderId !in orders.orders.entries ==> r == Err(ErrOrderNotFound) && ws.log == old(ws.log)
    ensures orderId in orders.orders.entries ==>
      var o := orders.orders.entries[orderId];
      var u := MarkedReady(old(o.State()), now);
      o.State() == After(u, old(o.State()))
      && (u.Err? ==> r == Err(u.error) && ws.log == old(ws.log))
      && (u.Ok? ==> r == Ok(o) && ws.log == old(ws.log) + [OrderEvent(OrderReady, o)])
  {
    r := AdvanceOrder(orders, ws, orderId, MarkAsReady, OrderReady, now);
  }

  /**
   * `DeliverOrderUseCase.execute`: the order is delivered and put back; then its table, if the
   * store has it, is freed to CLEANING and `table:freed` is sent before `order:delivered`.
   * A missing table is not an error.
   */
  method DeliverOrder(orders: MockOrderRepository, tables: MockTableRepository, ws: EventSink,
                      orderId: string, now: Time)
    returns (r: Result<Order>)
    requires orders.Valid() && tables.Valid()
    modifies orders, tables, ws, StoredOrder(orders, orderId)
    modifies if orderId in orders.orders.entries
             then StoredTable(tables, orders.orders.entries[orderId].tableId) else {}
    ensures orders.Valid() && orders.orders == old(orders.orders)
    ensures tables.Valid() && tables.tables == old(tables.tables)
    ensures orderId !in orders.orders.entries ==> r == Err(ErrOrderNotFound) && ws.log == old(ws.log)
    ensures orderId in orders.orders.entries ==>
      var o := orders.orders.entries[orderId];
      var u := Delivered(old(o.State()), now);
      o.State() == After(u, old(o.State()))
      && (u.Err? ==> r == Err(u.error) && ws.log == old(ws.log))
      && (u.Err? && o.tableId in tables.tables.entries ==>
            var t := tables.tables.entries[o.tableId];
            t.State() == old(t.State()))
      && (u.Ok? && o.tableId !in tables.tables.entries ==>
            r == Ok(o) && ws.log == old(ws.log) + [OrderEvent(OrderDelivered, o)])
      && (u.Ok? && o.tableId in tables.tables.entries ==>
            var t := tables.tables.entries[o.tableId];
            r == Ok(o) && t.State() == Freed(old(t.State()), now)
            && ws.log == old(ws.log) + [TableEvent(TableFreed, t), OrderEvent(OrderDelivered, o)])
  {
    var found := orders.FindById(orderId);
    if found.None? {
      return Err(ErrOrderNotFound);
    }
    var order := found.value;
    var step := order.Deliver(now);
    if step.Fail? {
      return Err(step.error);
    }
    var delivered := orders.Update(order);
    var table := tables.FindById(order.tableId);
    AnnounceDelivery(tables, ws, table, delivered, now);
    return Ok(delivered);
  }

  /** The tail of `DeliverOrderUseCase`: free the table if there is one, then the two events. */
  method AnnounceDelivery(tables: MockTableRepository, ws: EventSink, table: Option<Table>,
                          order: Order, now: Time)
    requires tables.Valid() && (table.Some? ==> HoldsTable(tables, table.value))
    modifies tables, ws, if table.Some? then {table.value} else {}
    ensures tables.Valid() && tables.tables == old(tables.tables)
    ensures table.Some? ==>
      table.value.State() == Freed(old(table.value.State()), now)
      && ws.log == old(ws.log) + [TableEvent(TableFreed, table.value), OrderEvent(OrderDelivered, order)]
    ensures table.None? ==> ws.log == old(ws.log) + [OrderEvent(OrderDelivered, order)]
  {
    if table.Some? {
      FreeStored(tables, table.value, now);
      ws.Emit(TableFreed, TablePayload(table.value.id, table.value.State()));
    }
    ws.Emit(OrderDelivered, OrderPayload(order.id, order.State()));
  }

  /**
   * `CancelOrderUseCase.execute`: the order is cancelled (refused only when DELIVERED) and put
   * back; its table, if the store has it, is freed whatever order it holds. Only
   * `order:cancelled` is sent.
   */
  method CancelOrder(orders: MockOrderRepository, tables: MockTableRepository, ws: EventSink,
                     orderId: string, reason: string, now: Time)
    returns (r: Result<Order>)
    requires orders.Valid() && tables.Valid()
    modifies orders, tables, ws, StoredOrder(orders, orderId)
    modifies if orderId in orders.orders.entries
             then StoredTable(tables, orders.orders.entries[orderId].tableId) else {}
    ensures orders.Valid() && orders.orders == old(orders.orders)
    ensures tables.Valid() && tables.tables == old(tables.tables)
    ensures orderId !in orders.orders.entries ==> r == Err(ErrOrderNotFound) && ws.log == old(ws.log)
    ensures orderId in orders.orders.entries ==>
      var o := orders.orders.entries[orderId];
      var u := Cancelled(old(o.State()), reason, now);
      o.State() == After(u, old(o.State()))
      && (u.Err? ==> r == Err(u.error) && ws.log == old(ws.log))
      && (u.Ok? ==> r == Ok(o) && ws.log == old(ws.log) + [OrderEvent(OrderCancelled, o)])
      && (o.tableId in tables.tables.entries ==>
            var t := tables.tables.entries[o.tableId];
            t.State() == if u.Ok? then Freed(old(t.State()), now) else old(t.State()))
  {
    var found := orders.FindById(orderId);
    if found.None? {
      return Err(ErrOrderNotFound);
    }
    var order := found.value;
    var step := order.Cancel(now, reason);
    if step.Fail? {
      return Err(step.error);
    }
    var cancelled := orders.Update(order);
    var table := tables.FindById(order.tableId);
    FreeIfPresent(tables, table, now);
    ws.Emit(OrderCancelled, OrderPayload(cancelled.id, cancelled.State()));
    return Ok(cancelled);
  }

  /** Frees the table the store returned, if it returned one. */
  method FreeIfPresent(tables: MockTableRepository, table: Option<Table>, now: Time)
    requires tables.Valid() && (table.Some? ==> HoldsTable(tables, table.value))
    modifies tables, if table.Some? then {table.value} else {}
    ensures tables.Valid() && tables.tables == old(tables.tables)
    ensures table.Some? ==> table.value.State() == Freed(old(table.value.State()), now)
  {
    if table.Some? {
      FreeStored(tables, table.value, now);
    }
  }

  /** `GetActiveOrdersUseCase.execute`: exactly the stored orders neither DELIVERED nor CANCELLED. */
  function GetActiveOrders(orders: MockOrderRepository): (r: seq<Order>)
    reads orders, orders.orders.entries.Values
    requires orders.Valid()
    ensures forall o | o in r :: o in orders.orders.entries.Values && IsActive(o.status)
    ensures forall o | o in orders.orders.entries.Values && IsActive(o.status) :: o in r
  {
    orders.FindActive()
  }
}
