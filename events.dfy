/**
 * The notifications the use-cases publish through `wsService.emit(name, data)`. The transport
 * serialises the data at the moment of the call, so an event records a snapshot of the entity
 * as it was then, not a live reference.
 */
module Events {
  import opened Orders
  import opened Tables
  import opened Payments
  import opened MenuItems

  /** What an event carries: an entity snapshot with its id, or only an id (the deletions). */
  datatype Payload =
    | OrderPayload(id: string, order: OrderState)
    | TablePayload(id: string, table: TableState)
    | PaymentPayload(id: string, payment: PaymentState)
    | MenuItemPayload(id: string, item: MenuItemState)
    | IdPayload(id: string)

  datatype Event = Event(name: string, payload: Payload)

  const OrderCreated := "order:created"
  const OrderUpdated := "order:updated"
  const OrderConfirmed := "order:confirmed"
  const OrderPreparing := "order:preparing"
  const OrderReady := "order:ready"
  const OrderDelivered := "order:delivered"
  const OrderCancelled := "order:cancelled"
  const TableCreated := "table:created"
  const TableUpdated := "table:updated"
  const TableFreed := "table:freed"
  const TableAvailable := "table:available"
  const TableReserved := "table:reserved"
  const TableDeleted := "table:deleted"
  const PaymentCreated := "payment:created"
  const PaymentCompleted := "payment:completed"
  const PaymentPartial := "payment:partial"
  const PaymentRefunded := "payment:refunded"
  const MenuItemCreated := "menuItem:created"
  const MenuItemUpdated := "menuItem:updated"
  const MenuItemAvailabilityChanged := "menuItem:availabilityChanged"
  const MenuItemDeleted := "menuItem:deleted"

  /** The event for an order as it is now. */
  function OrderEvent(name: string, o: Order): Event
    reads o, o.items
  {
    Event(name, OrderPayload(o.id, o.State()))
  }

  function TableEvent(name: string, t: Table): Event
    reads t
  {
    Event(name, TablePayload(t.id, t.State()))
  }

  function PaymentEvent(name: string, p: Payment): Event
    reads p
  {
    Event(name, PaymentPayload(p.id, p.State()))
  }

  function MenuItemEvent(name: string, m: MenuItem): Event
    reads m
  {
    Event(name, MenuItemPayload(m.id, m.State()))
  }

  /** The `emit` side of the websocket service: an append-only log of what was published. */
  class EventSink {
    var log: seq<Event>

    constructor ()
      ensures log == []
    {
      log := [];
    }

    method Emit(name: string, payload: Payload)
      modifies this
      ensures log == old(log) + [Event(name, payload)]
    {
      log := log + [Event(name, payload)];
    }
  }
}
