/** The menu use-cases (src/application/use-cases/menu.use-cases.ts). */
module MenuUseCases {
  import opened Wrappers
  import opened DomainTypes
  import opened OrderedMaps
  import opened MenuItems
  import opened MenuRepositories
  import opened Events

  /** `GetAllMenuItemsUseCase.execute`: every stored item, in store order. */
  function GetAllMenuItems(items: MockMenuItemRepository): (r: seq<MenuItem>)
    reads items
    requires items.Valid()
    ensures |r| == |items.items.keys|
    ensures forall i | 0 <= i < |r| :: r[i] == items.items.entries[items.items.keys[i]]
  {
    items.FindAll()
  }

  /** `GetAvailableMenuItemsUseCase.execute`: exactly the stored items that are available. */
  function GetAvailableMenuItems(items: MockMenuItemRepository): (r: seq<MenuItem>)
    reads items, items.items.entries.Values
    requires items.Valid()
    ensures forall m | m in r :: m in items.items.entries.Values && m.isAvailable
    ensures forall m | m in items.items.entries.Values && m.isAvailable :: m in r
  {
    items.FindAvailable()
  }

  /** `GetMenuItemsByCategoryUseCase.execute`: exactly the stored items of that category. */
  function GetMenuItemsByCategory(items: MockMenuItemRepository, category: MenuItemCategory)
    : (r: seq<MenuItem>)
    reads items, items.items.entries.Values
    requires items.Valid()
    ensures forall m | m in r :: m in items.items.entries.Values && m.category == category
    ensures forall m | m in items.items.entries.Values && m.category == category :: m in r
  {
    var r := items.FindByCategory(CategoryName(category));
    assert forall c: MenuItemCategory :: CategoryName(c) == CategoryName(category) ==> c == category by {
      forall c: MenuItemCategory ensures CategoryName(c) == CategoryName(category) ==> c == category {
        CategoryNameInjective(c, category);
      }
    }
    r
  }

  /** What a caller sends to create a dish; `None` is a field left undefined. */
  datatype NewDish = NewDish(
    name: string,
    description: string,
    price: Money,
    category: MenuItemCategory,
    imageUrl: Option<string>,
    preparationTime: Option<int>,
    ingredients: Option<seq<string>>)

  /**
   * The dish `CreateMenuItemUseCase` builds: available, with the `||` defaults of the source
   * (an absent or empty image becomes none, an absent or zero time becomes 15 minutes, absent
   * ingredients become the empty list).
   */
  function CreatedItem(d: NewDish, now: Time): (s: MenuItemState)
    ensures s.isAvailable && s.updatedAt == now
    ensures s.name == d.name && s.description == d.description && s.price == d.price
    ensures s.category == d.category
    ensures s.imageUrl != Some("") && (TruthyText(d.imageUrl) <==> s.imageUrl.Some?)
    ensures s.preparationTime != 0 && (TruthyNumber(d.preparationTime) ==> s.preparationTime == d.preparationTime.value)
    ensures !TruthyNumber(d.preparationTime) ==> s.preparationTime == 15
    ensures TruthyText(d.imageUrl) ==> s.imageUrl == d.imageUrl
    ensures s.ingredients == d.ingredients.GetOr([])
  {
    MenuItemState(d.name, d.description, d.price, d.category,
                  if TruthyText(d.imageUrl) then d.imageUrl else None,
                  true,
                  if TruthyNumber(d.preparationTime) then d.preparationTime.value else 15,
                  d.ingredients.GetOr([]),
                  now)
  }

  /**
   * `CreateMenuItemUseCase.execute`: the `MenuItem` constructor throws for a negative price;
   * otherwise the new dish is stored under the fresh id `id` and announced.
   */
  method CreateMenuItem(items: MockMenuItemRepository, ws: EventSink, d: NewDish, id: string, now: Time)
    returns (r: Result<MenuItem>)
    requires items.Valid()
    modifies items, ws
    ensures items.Valid()
    ensures d.price < 0 ==>
      r == Err(ErrNegativePrice) && items.items == old(items.items) && ws.log == old(ws.log)
    ensures d.price >= 0 ==>
      r.Ok? && fresh(r.value) && r.value.id == id && r.value.createdAt == now && r.value.State() == CreatedItem(d, now)
      && items.items == Put(old(items.items), id, r.value)
      && ws.log == old(ws.log) + [MenuItemEvent(MenuItemCreated, r.value)]
  {
    var s := CreatedItem(d, now);
    var made := MenuItem.New(id, s.name, s.description, s.price, s.category, s.imageUrl, true,
                             s.preparationTime, s.ingredients, now);
    if made.Err? {
      return Err(made.error);
    }
    var saved := items.Save(made.value);
    ws.Emit(MenuItemCreated, MenuItemPayload(saved.id, saved.State()));
    return Ok(saved);
  }

  /**
   * `UpdateMenuItemUseCase.execute`: the patch is applied in place; a negative price throws
   * after the name and the description are already written to the stored object, so the
   * store shows them although the use-case failed and nothing was announced.
   */
  method UpdateMenuItem(items: MockMenuItemRepository, ws: EventSink, id: string, p: MenuPatch, now: Time)
    returns (r: Result<MenuItem>)
    requires items.Valid()
    modifies items, ws, StoredItem(items, id)
    ensures items.Valid() && items.items == old(items.items)
    ensures id !in items.items.entries ==> r == Err(ErrMenuItemNotFound) && ws.log == old(ws.log)
    ensures id in items.items.entries ==>
      var m := items.items.entries[id];
      var u := Patched(old(m.State()), p, now);
      m.State() == u.0
      && (u.1.Fail? ==> r == Err(u.1.error) && ws.log == old(ws.log))
      && (u.1.Pass? ==> r == Ok(m) && ws.log == old(ws.log) + [MenuItemEvent(MenuItemUpdated, m)])
  {
    var found := items.FindById(id);
    if found.None? {
      return Err(ErrMenuItemNotFound);
    }
    var item := found.value;
    var step := item.Update(p, now);
    if step.Fail? {
      return Err(step.error);
    }
    var updated := items.Update(item);
    ws.Emit(MenuItemUpdated, MenuItemPayload(updated.id, updated.State()));
    return Ok(updated);
  }

  /** `ToggleMenuItemAvailabilityUseCase.execute`: flips the flag and announces the change. */
  method ToggleMenuItemAvailability(items: MockMenuItemRepository, ws: EventSink, id: string, now: Time)
    returns (r: Result<MenuItem>)
    requires items.Valid()
    modifies items, ws, StoredItem(items, id)
    ensures items.Valid() && items.items == old(items.items)
    ensures id !in items.items.entries ==> r == Err(ErrMenuItemNotFound) && ws.log == old(ws.log)
    ensures id in items.items.entries ==>
      var m := items.items.entries[id];
      r == Ok(m) && m.State() == Toggled(old(m.State()), now)
      && ws.log == old(ws.log) + [MenuItemEvent(MenuItemAvailabilityChanged, m)]
  {
    var found := items.FindById(id);
    if found.None? {
      return Err(ErrMenuItemNotFound);
    }
    var item := found.value;
    item.ToggleAvailability(now);
    var updated := items.Update(item);
    ws.Emit(MenuItemAvailabilityChanged, MenuItemPayload(updated.id, updated.State()));
    return Ok(updated);
  }

  /** `DeleteMenuItemUseCase.execute`: removes a stored item and announces its id. */
  method DeleteMenuItem(items: MockMenuItemRepository, ws: EventSink, id: string)
    returns (r: Outcome)
    requires items.Valid()
    modifies items, ws
    ensures items.Valid()
    ensures id !in old(items.items.entries) ==>
      r == Fail(ErrMenuItemNotFound) && items.items == old(items.items) && ws.log == old(ws.log)
    ensures id in old(items.items.entries) ==>
      r == Pass && items.items == Remove(old(items.items), id) && id !in items.items.entries
      && ws.log == old(ws.log) + [Event(MenuItemDeleted, IdPayload(id))]
  {
    var found := items.FindById(id);
    if found.None? {
      return Fail(ErrMenuItemNotFound);
    }
    items.Delete(id);
    ws.Emit(MenuItemDeleted, IdPayload(id));
    return Pass;
  }
}
