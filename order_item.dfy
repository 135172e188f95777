/** One line of an order (src/domain/entities/OrderItem.ts). */
module OrderItems {
  import opened Wrappers
  import opened DomainTypes

  const ErrQuantity := Error(Validation, "La cantidad debe ser mayor a 0")

  /** The fields of an order line, as a value (the creation instant is left aside). */
  datatype ItemState = ItemState(
    id: string,
    menuItemId: string,
    menuItemName: string,
    quantity: int,
    unitPrice: Money,
    notes: string)

  /** The check the constructor makes: quantity first, then price. */
  function ItemError(quantity: int, unitPrice: Money): (e: Option<Error>)
    ensures e.None? <==> quantity > 0 && unitPrice >= 0
    ensures quantity <= 0 ==> e == Some(ErrQuantity)
    ensures quantity > 0 && unitPrice < 0 ==> e == Some(ErrNegativePrice)
  {
    if quantity <= 0 then Some(ErrQuantity)
    else if unitPrice < 0 then Some(ErrNegativePrice)
    else None
  }

  /** The `total` getter: quantity times unit price. */
  function LineTotal(s: ItemState): (t: Money)
    ensures t == s.quantity * s.unitPrice
  {
    s.quantity * s.unitPrice
  }

  class OrderItem {
    const id: string
    var menuItemId: string
    var menuItemName: string
    var quantity: int
    var unitPrice: Money
    var notes: string
    const createdAt: Time

    function State(): ItemState
      reads this
    {
      ItemState(id, menuItemId, menuItemName, quantity, unitPrice, notes)
    }

    /** The object once the constructor's checks have passed. */
    constructor Init(id: string, menuItemId: string, menuItemName: string, quantity: int,
                     unitPrice: Money, notes: string, now: Time)
      requires ItemError(quantity, unitPrice).None?
      ensures State() == ItemState(id, menuItemId, menuItemName, quantity, unitPrice, notes)
      ensures createdAt == now
    {
      this.id := id;
      this.menuItemId := menuItemId;
      this.menuItemName := menuItemName;
      this.quantity := quantity;
      this.unitPrice := unitPrice;
      this.notes := notes;
      this.createdAt := now;
    }

    /** `new OrderItem(...)`: throws for a quantity <= 0 or a negative unit price. */
    static method New(id: string, menuItemId: string, menuItemName: string, quantity: int,
                      unitPrice: Money, notes: string, now: Time) returns (r: Result<OrderItem>)
      ensures r.Err? <==> ItemError(quantity, unitPrice).Some?
      ensures r.Err? ==> r.error == ItemError(quantity, unitPrice).value
      ensures r.Ok? ==> fresh(r.value) && r.value.createdAt == now
      ensures r.Ok? ==> r.value.State() == ItemState(id, menuItemId, menuItemName, quantity, unitPrice, notes)
    {
      var e := ItemError(quantity, unitPrice);
      if e.Some? {
        return Err(e.value);
      }
      var item := new OrderItem.Init(id, menuItemId, menuItemName, quantity, unitPrice, notes, now);
      return Ok(item);
    }

    function Total(): (r: Money)
      reads this
      ensures r == quantity * unitPrice
    {
      LineTotal(State())
    }

    /** Rejects a quantity <= 0 and leaves the line as it was; otherwise sets the quantity. */
    method UpdateQuantity(newQuantity: int) returns (r: Outcome)
      modifies this
      ensures r.Fail? <==> newQuantity <= 0
      ensures r.Fail? ==> r.error == ErrQuantity && State() == old(State())
      ensures r.Pass? ==> State() == old(State()).(quantity := newQuantity)
    {
      if newQuantity <= 0 {
        return Fail(ErrQuantity);
      }
      quantity := newQuantity;
      return Pass;
    }

    /** Adds to the quantity without any validation (the source's default amount is 1). */
    method AddQuantity(amount: int := 1)
      modifies this
      ensures State() == old(State()).(quantity := old(quantity) + amount)
    {
      quantity := quantity + amount;
    }

    /** Replaces the notes and nothing else. */
    method UpdateNotes(newNotes: string)
      modifies this
      ensures State() == old(State()).(notes := newNotes)
    {
      notes := newNotes;
    }
  }
}
