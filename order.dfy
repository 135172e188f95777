/** The order entity and its six-state lifecycle (src/domain/entities/Order.ts). */
module Orders {
  import opened Wrappers
  import opened DomainTypes
  import opened OrderItems

  const ErrItemNotFound := Error(NotFound, "Item no encontrado")
  const ErrNotPending := Error(InvalidState, "Solo se pueden confirmar pedidos pendientes")
  const ErrNoItems := Error(EmptyOrder, "No se puede confirmar un pedido sin items")
  const ErrNotConfirmed := Error(InvalidState, "Solo se pueden preparar pedidos confirmados")
  const ErrNotPreparing := Error(InvalidState, "Solo se pueden marcar como listos pedidos en preparación")
  const ErrNotReady := Error(InvalidState, "Solo se pueden entregar pedidos listos")
  const ErrAlreadyDelivered := Error(InvalidState, "No se puede cancelar un pedido ya entregado")

  /** The mutable part of an order, as a value (its lines by value too). */
  datatype OrderState = OrderState(
    tableId: string,
    waiterId: string,
    items: seq<ItemState>,
    status: OrderStatus,
    notes: string,
    updatedAt: Time,
    confirmedAt: Option<Time>,
    deliveredAt: Option<Time>)

  // ---------------------------------------------------------------------------------------
  // Derived values

  /** The `total` getter: the sum of the line totals. */
  function ItemsTotal(items: seq<ItemState>): (t: Money)
    ensures (forall i | 0 <= i < |items| :: items[i].quantity > 0 && items[i].unitPrice >= 0) ==> t >= 0
  {
    if items == [] then 0 else LineTotal(items[0]) + ItemsTotal(items[1..])
  }

  /** The `itemCount` getter: the sum of the quantities; with valid lines, at least one per line. */
  function ItemsCount(items: seq<ItemState>): (n: int)
    ensures (forall i | 0 <= i < |items| :: items[i].quantity > 0) ==> n >= |items|
  {
    if items == [] then 0 else items[0].quantity + ItemsCount(items[1..])
  }

  /** `items.reduce((sum, item) => sum + item.total, acc)`, the left fold the `total` getter runs. */
  function FoldTotal(acc: Money, items: seq<ItemState>): Money
    decreases |items|
  {
    if items == [] then acc else FoldTotal(acc + LineTotal(items[0]), items[1..])
  }

  /** `items.reduce((sum, item) => sum + item.quantity, acc)`, the fold of the `itemCount` getter. */
  function FoldCount(acc: int, items: seq<ItemState>): int
    decreases |items|
  {
    if items == [] then acc else FoldCount(acc + items[0].quantity, items[1..])
  }

  /** The folds started at `acc` add `acc` to the sums of the lines. */
  lemma {:induction false} FoldsAreSums(acc: int, items: seq<ItemState>)
    ensures FoldTotal(acc, items) == acc + ItemsTotal(items)
    ensures FoldCount(acc, items) == acc + ItemsCount(items)
    decreases |items|
  {
    if items != [] {
      FoldsAreSums(acc + LineTotal(items[0]), items[1..]);
      FoldsAreSums(acc + items[0].quantity, items[1..]);
    }
  }

  /** Both sums split over a concatenation of line lists. */
  lemma {:induction false} SumsAppend(xs: seq<ItemState>, ys: seq<ItemState>)
    ensures ItemsTotal(xs + ys) == ItemsTotal(xs) + ItemsTotal(ys)
    ensures ItemsCount(xs + ys) == ItemsCount(xs) + ItemsCount(ys)
  {
    if xs == [] {
      assert xs + ys == ys;
    } else {
      assert (xs + ys)[1..] == xs[1..] + ys;
      SumsAppend(xs[1..], ys);
    }
  }

  /** The lines with the quantity of line `k` replaced. */
  function SetQuantity(xs: seq<ItemState>, k: nat, quantity: int): (r: seq<ItemState>)
    requires k < |xs|
  {
    xs[k := xs[k].(quantity := quantity)]
  }

  /** Adding `delta` to the quantity of one line moves the total by `delta` times that line's price. */
  lemma {:induction false} SumsAfterQuantityChange(xs: seq<ItemState>, k: nat, delta: int)
    requires k < |xs|
    ensures ItemsTotal(SetQuantity(xs, k, xs[k].quantity + delta)) == ItemsTotal(xs) + delta * xs[k].unitPrice
    ensures ItemsCount(SetQuantity(xs, k, xs[k].quantity + delta)) == ItemsCount(xs) + delta
  {
    var ys := SetQuantity(xs, k, xs[k].quantity + delta);
    if k == 0 {
      assert ys[1..] == xs[1..];
      assert LineTotal(ys[0]) == LineTotal(xs[0]) + delta * xs[0].unitPrice by {
        assert (xs[0].quantity + delta) * xs[0].unitPrice
            == xs[0].quantity * xs[0].unitPrice + delta * xs[0].unitPrice;
      }
    } else {
      assert ys[1..] == SetQuantity(xs[1..], k - 1, xs[k].quantity + delta);
      SumsAfterQuantityChange(xs[1..], k - 1, delta);
    }
  }

  // ---------------------------------------------------------------------------------------
  // The item-list operations, on values

  /** The selector `i => i.menuItemId === menuItemId`. */
  function ForMenuItem(menuItemId: string): ItemState -> bool {
    (s: ItemState) => s.menuItemId == menuItemId
  }

  /** The selector `i => i.id === itemId`. */
  function WithId(itemId: string): ItemState -> bool {
    (s: ItemState) => s.id == itemId
  }

  /** `addItem`: merge into the first line for the same menu item, else append. */
  function AddedItem(xs: seq<ItemState>, item: ItemState): (r: seq<ItemState>)
    ensures (exists j | 0 <= j < |xs| :: xs[j].menuItemId == item.menuItemId) ==> |r| == |xs|
    ensures (forall j | 0 <= j < |xs| :: xs[j].menuItemId != item.menuItemId) ==> r == xs + [item]
    ensures ItemsCount(r) == ItemsCount(xs) + item.quantity
  {
    var found := FirstIndex(xs, ForMenuItem(item.menuItemId));
    if found.Some? then
      SumsAfterQuantityChange(xs, found.value, item.quantity);
      SetQuantity(xs, found.value, xs[found.value].quantity + item.quantity)
    else
      SumsAppend(xs, [item]);
      xs + [item]
  }

  /** A merge changes exactly the first line for that menu item. */
  lemma {:induction false} MergeIntoFirstLine(xs: seq<ItemState>, item: ItemState, k: nat)
    requires k < |xs| && xs[k].menuItemId == item.menuItemId
    requires forall j | 0 <= j < k :: xs[j].menuItemId != item.menuItemId
    ensures AddedItem(xs, item) == SetQuantity(xs, k, xs[k].quantity + item.quantity)
  {
    FirstIndexAt(xs, ForMenuItem(item.menuItemId), k);
    var r := AddedItem(xs, item);
    var t := SetQuantity(xs, k, xs[k].quantity + item.quantity);
    assert |r| == |t|;
    assert forall i | 0 <= i < |r| :: r[i] == t[i];
  }

  /** A merged line is charged at that line's own unit price, not the added item's. */
  lemma {:induction false} MergeChargesLinePrice(xs: seq<ItemState>, item: ItemState, k: nat)
    requires k < |xs| && xs[k].menuItemId == item.menuItemId
    requires forall j | 0 <= j < k :: xs[j].menuItemId != item.menuItemId
    ensures ItemsTotal(AddedItem(xs, item)) == ItemsTotal(xs) + item.quantity * xs[k].unitPrice
  {
    MergeIntoFirstLine(xs, item, k);
    SumsAfterQuantityChange(xs, k, item.quantity);
  }

  /** An appended line adds its own total. */
  lemma {:induction false} AppendNewLine(xs: seq<ItemState>, item: ItemState)
    requires forall j | 0 <= j < |xs| :: xs[j].menuItemId != item.menuItemId
    ensures ItemsTotal(AddedItem(xs, item)) == ItemsTotal(xs) + LineTotal(item)
  {
    SumsAppend(xs, [item]);
  }

  /** `removeItem`: keep the lines whose id differs. */
  function WithoutItem(xs: seq<ItemState>, itemId: string): (r: seq<ItemState>)
    ensures forall s | s in r :: s in xs && s.id != itemId
    ensures forall s | s in xs && s.id != itemId :: s in r
    ensures (forall s | s in xs :: s.id != itemId) ==> r == xs
  {
    Filter(xs, (s: ItemState) => s.id != itemId)
  }

  /** Removing by id keeps the order of the others: it distributes over concatenation. */
  lemma {:induction false} WithoutItemAppend(xs: seq<ItemState>, ys: seq<ItemState>, itemId: string)
    ensures WithoutItem(xs + ys, itemId) == WithoutItem(xs, itemId) + WithoutItem(ys, itemId)
  {
    FilterAppend(xs, ys, (s: ItemState) => s.id != itemId);
  }

  /** `updateItemQuantity`: the first line with that id gets the quantity, if it is valid. */
  function QuantityUpdated(xs: seq<ItemState>, itemId: string, quantity: int): (r: Result<seq<ItemState>>)
    ensures (forall j | 0 <= j < |xs| :: xs[j].id != itemId) ==> r == Err(ErrItemNotFound)
    ensures (exists j | 0 <= j < |xs| :: xs[j].id == itemId) && quantity <= 0 ==> r == Err(ErrQuantity)
    ensures r.Ok? <==> quantity > 0 && exists j | 0 <= j < |xs| :: xs[j].id == itemId
    ensures r.Ok? ==> (|r.value| == |xs|
         && exists k | 0 <= k < |xs| :: xs[k].id == itemId && (forall j | 0 <= j < k :: xs[j].id != itemId)
                                    && r.value == SetQuantity(xs, k, quantity))
  {
    match FirstIndex(xs, WithId(itemId))
    case None => Err(ErrItemNotFound)
    case Some(k) =>
      if quantity <= 0 then Err(ErrQuantity)
      else Ok(SetQuantity(xs, k, quantity))
  }

  // ---------------------------------------------------------------------------------------
  // The lifecycle, on values

  /** The fields an advance of the lifecycle never touches. */
  predicate SameContent(s: OrderState, t: OrderState) {
    s.tableId == t.tableId && s.waiterId == t.waiterId && s.items == t.items && s.notes == t.notes
  }

  /** `confirm`: the status check comes first, then the empty-list check. */
  function Confirmed(s: OrderState, now: Time): (r: Result<OrderState>)
    ensures r.Ok? <==> s.status == OrderStatus.PENDING && s.items != []
    ensures s.status != OrderStatus.PENDING ==> r == Err(ErrNotPending)
    ensures s.status == OrderStatus.PENDING && s.items == [] ==> r == Err(ErrNoItems)
    ensures r.Ok? ==> (r.value.status == OrderStatus.CONFIRMED && r.value.confirmedAt == Some(now)
                   && r.value.updatedAt == now && r.value.deliveredAt == s.deliveredAt
                   && SameContent(s, r.value))
  {
    if s.status != OrderStatus.PENDING then Err(ErrNotPending)
    else if |s.items| == 0 then Err(ErrNoItems)
    else Ok(s.(status := OrderStatus.CONFIRMED, confirmedAt := Some(now), updatedAt := now))
  }

  /** `startPreparing`: only from CONFIRMED. */
  function PreparingStarted(s: OrderState, now: Time): (r: Result<OrderState>)
    ensures r.Ok? <==> s.status == OrderStatus.CONFIRMED
    ensures r.Err? ==> r.error == ErrNotConfirmed
    ensures r.Ok? ==> (r.value.status == OrderStatus.PREPARING && r.value.updatedAt == now
                   && r.value.confirmedAt == s.confirmedAt && r.value.deliveredAt == s.deliveredAt
                   && SameContent(s, r.value))
  {
    if s.status != OrderStatus.CONFIRMED then Err(ErrNotConfirmed)
    else Ok(s.(status := OrderStatus.PREPARING, updatedAt := now))
  }

  /** `markAsReady`: only from PREPARING. */
  function MarkedReady(s: OrderState, now: Time): (r: Result<OrderState>)
    ensures r.Ok? <==> s.status == OrderStatus.PREPARING
    ensures r.Err? ==> r.error == ErrNotPreparing
    ensures r.Ok? ==> (r.value.status == OrderStatus.READY && r.value.updatedAt == now
                   && r.value.confirmedAt == s.confirmedAt && r.value.deliveredAt == s.deliveredAt
                   && SameContent(s, r.value))
  {
    if s.status != OrderStatus.PREPARING then Err(ErrNotPreparing)
    else Ok(s.(status := OrderStatus.READY, updatedAt := now))
  }

  /** `deliver`: only from READY; stamps the delivery instant. */
  function Delivered(s: OrderState, now: Time): (r: Result<OrderState>)
    ensures r.Ok? <==> s.status == OrderStatus.READY
    ensures r.Err? ==> r.error == ErrNotReady
    ensures r.Ok? ==> (r.value.status == OrderStatus.DELIVERED && r.value.deliveredAt == Some(now)
                   && r.value.updatedAt == now && r.value.confirmedAt == s.confirmedAt
                   && SameContent(s, r.value))
  {
    if s.status != OrderStatus.READY then Err(ErrNotReady)
    else Ok(s.(status := OrderStatus.DELIVERED, deliveredAt := Some(now), updatedAt := now))
  }

  /** The note `cancel` appends for a non-empty reason. */
  function CancelNote(reason: string): string {
    "\n[Cancelado: " + reason + "]"
  }

  /** `cancel`: refused only for a DELIVERED order (a CANCELLED one is cancelled again). */
  function Cancelled(s: OrderState, reason: string, now: Time): (r: Result<OrderState>)
    ensures r.Ok? <==> s.status != OrderStatus.DELIVERED
    ensures r.Err? ==> r.error == ErrAlreadyDelivered
    ensures r.Ok? ==> r.value.status == OrderStatus.CANCELLED && r.value.updatedAt == now
    ensures r.Ok? ==> r.value.notes == if reason == "" then s.notes else s.notes + CancelNote(reason)
    ensures r.Ok? ==> r.value.notes[..|s.notes|] == s.notes
    ensures r.Ok? ==> (r.value.items == s.items && r.value.tableId == s.tableId
                   && r.value.waiterId == s.waiterId && r.value.confirmedAt == s.confirmedAt
                   && r.value.deliveredAt == s.deliveredAt)
  {
    if s.status == OrderStatus.DELIVERED then Err(ErrAlreadyDelivered)
    else Ok(s.(status := OrderStatus.CANCELLED,
               notes := if reason != "" then s.notes + CancelNote(reason) else s.notes,
               updatedAt := now))
  }

  /** `canBeModified`: the item list may be edited only while PENDING. */
  predicate CanBeModified(s: OrderState) {
    s.status == OrderStatus.PENDING
  }

  /**
   * The status queries of an order: exactly one of `isPending` .. `isCancelled` holds, the
   * items may be edited exactly while pending, and the order is active exactly while it is
   * neither delivered nor cancelled.
   */
  lemma {:induction false} StatusQueries(o: Order)
    ensures o.IsPending() || o.IsConfirmed() || o.IsPreparing() || o.IsReady() || o.IsDelivered() || o.IsCancelled()
    ensures o.IsPending() ==> !o.IsConfirmed() && !o.IsPreparing() && !o.IsReady() && !o.IsDelivered() && !o.IsCancelled()
    ensures o.IsConfirmed() ==> !o.IsPreparing() && !o.IsReady() && !o.IsDelivered() && !o.IsCancelled()
    ensures o.IsPreparing() ==> !o.IsReady() && !o.IsDelivered() && !o.IsCancelled()
    ensures o.IsReady() ==> !o.IsDelivered() && !o.IsCancelled()
    ensures o.IsDelivered() ==> !o.IsCancelled()
    ensures CanBeModified(o.State()) <==> o.IsPending()
    ensures IsActive(o.status) <==> !(o.IsDelivered() || o.IsCancelled())
  {
  }

  /** An order is active while neither DELIVERED nor CANCELLED (the repository's `findActive`). */
  predicate IsActive(status: OrderStatus) {
    status != OrderStatus.DELIVERED && status != OrderStatus.CANCELLED
  }

  /** Position on the only forward path PENDING, CONFIRMED, PREPARING, READY, DELIVERED. */
  function PathRank(st: OrderStatus): (n: nat)
    requires st != OrderStatus.CANCELLED
    ensures n <= 4
  {
    match st
    case PENDING => 0
    case CONFIRMED => 1
    case PREPARING => 2
    case READY => 3
    case DELIVERED => 4
  }

  /** Distinct statuses on the path have distinct ranks, so the path is a strict order. */
  lemma {:induction false} PathRankInjective(a: OrderStatus, b: OrderStatus)
    requires a != OrderStatus.CANCELLED && b != OrderStatus.CANCELLED
    requires PathRank(a) == PathRank(b)
    ensures a == b
  {
  }

  /** The four advancing operations. */
  datatype Advance = Confirm | StartPreparing | MarkAsReady | Deliver

  function Advanced(s: OrderState, op: Advance, now: Time): Result<OrderState> {
    match op
    case Confirm => Confirmed(s, now)
    case StartPreparing => PreparingStarted(s, now)
    case MarkAsReady => MarkedReady(s, now)
    case Deliver => Delivered(s, now)
  }

  /**
   * Every advancing step moves exactly one place along the forward path, never into or out of
   * CANCELLED; taken out of order it fails and the state stays as it was.
   */
  lemma {:induction false} AdvanceFollowsPath(s: OrderState, op: Advance, now: Time)
    ensures Advanced(s, op, now).Ok? ==>
      s.status != OrderStatus.CANCELLED && Advanced(s, op, now).value.status != OrderStatus.CANCELLED
      && PathRank(Advanced(s, op, now).value.status) == PathRank(s.status) + 1
    ensures After(Advanced(s, op, now), s).items == s.items
    ensures s.status == OrderStatus.CANCELLED || s.status == OrderStatus.DELIVERED ==>
      After(Advanced(s, op, now), s) == s
  {
  }

  /** No advance leads out of PENDING except `confirm`, and cancelling from there always works. */
  lemma {:induction false} PendingExits(s: OrderState, reason: string, now: Time)
    requires s.status == OrderStatus.PENDING
    ensures Advanced(s, StartPreparing, now).Err? && Advanced(s, MarkAsReady, now).Err?
    ensures Advanced(s, Deliver, now).Err?
    ensures Cancelled(s, reason, now).Ok?
  {
  }

  // ---------------------------------------------------------------------------------------
  // The entity

  /** The lines of an order, as values. */
  function StatesOf(items: seq<OrderItem>): seq<ItemState>
    reads items
  {
    if items == [] then [] else [items[0].State()] + StatesOf(items[1..])
  }

  /** Line `i` of the values is the value of line object `i`. */
  lemma {:induction false} StatesOfPointwise(items: seq<OrderItem>)
    ensures |StatesOf(items)| == |items|
    ensures forall i | 0 <= i < |items| :: StatesOf(items)[i] == items[i].State()
  {
    if items != [] {
      StatesOfPointwise(items[1..]);
    }
  }

  /** Removing line objects by id and then taking their values equals removing the values by id. */
  lemma {:induction false} StatesOfWithout(items: seq<OrderItem>, itemId: string)
    ensures StatesOf(Filter(items, (it: OrderItem) => it.id != itemId))
         == WithoutItem(StatesOf(items), itemId)
  {
    if items != [] {
      StatesOfWithout(items[1..], itemId);
      assert StatesOf(items)[1..] == StatesOf(items[1..]);
    }
  }

  class Order {
    const id: string
    var tableId: string
    var waiterId: string
    var items: seq<OrderItem>
    var status: OrderStatus
    var notes: string
    const createdAt: Time
    var updatedAt: Time
    var confirmedAt: Option<Time>
    var deliveredAt: Option<Time>

    /** An order owns its lines: no line object occurs twice. */
    ghost predicate Valid()
      reads this
    {
      Distinct(items)
    }

    function ItemStates(): seq<ItemState>
      reads this, items
    {
      StatesOf(items)
    }

    function State(): OrderState
      reads this, items
    {
      OrderState(tableId, waiterId, ItemStates(), status, notes, updatedAt, confirmedAt, deliveredAt)
    }

    /** `new Order(id, tableId, waiterId, items)` with the remaining parameters at their defaults. */
    constructor (id: string, tableId: string, waiterId: string, items: seq<OrderItem>, now: Time)
      ensures this.id == id && this.items == items && createdAt == now
      ensures State() == OrderState(tableId, waiterId, StatesOf(items), OrderStatus.PENDING, "", now, None, None)
    {
      this.id := id;
      this.tableId := tableId;
      this.waiterId := waiterId;
      this.items := items;
      this.status := OrderStatus.PENDING;
      this.notes := "";
      this.createdAt := now;
      this.updatedAt := now;
      this.confirmedAt := None;
      this.deliveredAt := None;
    }

    /** The `total` getter: the sum of quantity times unit price over the lines. */
    function Total(): (r: Money)
      reads this, items
      ensures r == ItemsTotal(ItemStates())
    {
      FoldsAreSums(0, ItemStates());
      FoldTotal(0, ItemStates())
    }

    /** The `itemCount` getter: the sum of the quantities of the lines. */
    function ItemCount(): (r: int)
      reads this, items
      ensures r == ItemsCount(ItemStates())
    {
      FoldsAreSums(0, ItemStates());
      FoldCount(0, ItemStates())
    }

    /**
     * Merges into the first line with the same menu item (that line object is changed in place),
     * otherwise appends the given object itself.
     */
    method AddItem(item: OrderItem, now: Time)
      requires Valid()
      modifies this, items
      ensures Valid()
      ensures ItemStates() == AddedItem(old(ItemStates()), old(item.State()))
      ensures State() == old(State()).(items := ItemStates(), updatedAt := now)
      ensures items == old(items) || items == old(items) + [item]
    {
      var k := FirstIndex(ItemStates(), ForMenuItem(item.menuItemId));
      if k.Some? {
        MergeInto(k.value, item);
      } else {
        AppendLine(item);
      }
      updatedAt := now;
    }

    /** The merge branch of `addItem`: line `k`, the first for that menu item, grows in place. */
    method MergeInto(k: nat, item: OrderItem)
      requires Valid() && FirstIndex(ItemStates(), ForMenuItem(item.menuItemId)) == Some(k)
      modifies items
      ensures ItemStates() == AddedItem(old(ItemStates()), old(item.State()))
    {
      ghost var before := ItemStates();
      ghost var added := item.State();
      StatesOfPointwise(items);
      var line := items[k];
      line.AddQuantity(item.quantity);
      StatesOfPointwise(items);
      ghost var merged := SetQuantity(before, k, before[k].quantity + added.quantity);
      forall j | 0 <= j < |items|
        ensures ItemStates()[j] == merged[j]
      {
        if j != k {
          assert items[j] != line;
        }
      }
      assert ItemStates() == merged;
      MergeIntoFirstLine(before, added, k);
    }

    /** The append branch of `addItem`: no line has that menu item, so the object itself is added. */
    method AppendLine(item: OrderItem)
      requires Valid() && FirstIndex(ItemStates(), ForMenuItem(item.menuItemId)).None?
      modifies this
      ensures Valid() && items == old(items) + [item]
      ensures ItemStates() == AddedItem(old(ItemStates()), item.State())
      ensures State() == old(State()).(items := ItemStates())
    {
      ghost var before := ItemStates();
      StatesOfPointwise(items);
      assert item !in items;
      items := items + [item];
      StatesOfPointwise(items);
      assert ItemStates() == before + [item.State()];
    }

    /** Keeps the lines whose id differs from `itemId`, in their order. */
    method RemoveItem(itemId: string, now: Time)
      requires Valid()
      modifies this
      ensures Valid()
      ensures items == Filter(old(items), (it: OrderItem) => it.id != itemId)
      ensures State() == old(State()).(items := WithoutItem(old(ItemStates()), itemId), updatedAt := now)
    {
      StatesOfWithout(items, itemId);
      items := Filter(items, (it: OrderItem) => it.id != itemId);
      updatedAt := now;
    }

    /** Sets the quantity of the first line with that id; throws if there is none or the quantity is invalid. */
    method UpdateItemQuantity(itemId: string, quantity: int, now: Time) returns (r: Outcome)
      requires Valid()
      modifies this, items
      ensures Valid() && items == old(items)
      ensures var u := QuantityUpdated(old(ItemStates()), itemId, quantity);
        r == OutcomeOf(u)
        && State() == if u.Ok? then old(State()).(items := u.value, updatedAt := now) else old(State())
    {
      StatesOfPointwise(items);
      var k := FirstIndex(ItemStates(), WithId(itemId));
      if k.None? {
        return Fail(ErrItemNotFound);
      }
      ghost var before := ItemStates();
      var line := items[k.value];
      r := line.UpdateQuantity(quantity);
      StatesOfPointwise(items);
      assert forall j | 0 <= j < |items| && j != k.value :: items[j] != line;
      if r.Fail? {
        assert ItemStates() == before;
        return;
      }
      assert ItemStates() == SetQuantity(before, k.value, quantity);
      updatedAt := now;
    }

    method Confirm(now: Time) returns (r: Outcome)
      modifies this
      ensures r == OutcomeOf(Confirmed(old(State()), now))
      ensures State() == After(Confirmed(old(State()), now), old(State()))
    {
      if status != OrderStatus.PENDING {
        return Fail(ErrNotPending);
      }
      if |items| == 0 {
        return Fail(ErrNoItems);
      }
      status := OrderStatus.CONFIRMED;
      confirmedAt := Some(now);
      updatedAt := now;
      return Pass;
    }

    method StartPreparing(now: Time) returns (r: Outcome)
      modifies this
      ensures r == OutcomeOf(PreparingStarted(old(State()), now))
      ensures State() == After(PreparingStarted(old(State()), now), old(State()))
    {
      if status != OrderStatus.CONFIRMED {
        return Fail(ErrNotConfirmed);
      }
      status := OrderStatus.PREPARING;
      updatedAt := now;
      return Pass;
    }

    method MarkAsReady(now: Time) returns (r: Outcome)
      modifies this
      ensures r == OutcomeOf(MarkedReady(old(State()), now))
      ensures State() == After(MarkedReady(old(State()), now), old(State()))
    {
      if status != OrderStatus.PREPARING {
        return Fail(ErrNotPreparing);
      }
      status := OrderStatus.READY;
      updatedAt := now;
      return Pass;
    }

    method Deliver(now: Time) returns (r: Outcome)
      modifies this
      ensures r == OutcomeOf(Delivered(old(State()), now))
      ensures State() == After(Delivered(old(State()), now), old(State()))
    {
      if status != OrderStatus.READY {
        return Fail(ErrNotReady);
      }
      status := OrderStatus.DELIVERED;
      deliveredAt := Some(now);
      updatedAt := now;
      return Pass;
    }

    method Cancel(now: Time, reason: string := "") returns (r: Outcome)
      modifies this
      ensures r == OutcomeOf(Cancelled(old(State()), reason, now))
      ensures State() == After(Cancelled(old(State()), reason, now), old(State()))
    {
      if status == OrderStatus.DELIVERED {
        return Fail(ErrAlreadyDelivered);
      }
      status := OrderStatus.CANCELLED;
      if reason != "" {
        notes := notes + CancelNote(reason);
      }
      updatedAt := now;
      return Pass;
    }

    predicate IsPending() reads this { status == OrderStatus.PENDING }
    predicate IsConfirmed() reads this { status == OrderStatus.CONFIRMED }
    predicate IsPreparing() reads this { status == OrderStatus.PREPARING }
    predicate IsReady() reads this { status == OrderStatus.READY }
    predicate IsDelivered() reads this { status == OrderStatus.DELIVERED }
    predicate IsCancelled() reads this { status == OrderStatus.CANCELLED }
  }
}
