/** The in-memory menu store with its sixteen seeded dishes (mock-menu.repository.ts). */
module MenuRepositories {
  import opened Wrappers
  import opened DomainTypes
  import opened OrderedMaps
  import opened MenuItems

  /** One entry of the seed list: name, description, price, category and preparation minutes. */
  datatype SeedDish = SeedDish(name: string, description: string, price: Money,
                               category: MenuItemCategory, time: int)

  const SeedMenu: seq<SeedDish> := [
    SeedDish("Ensalada César", "Lechuga romana, crutones, parmesano", 89, APPETIZER, 10),
    SeedDish("Bruschetta", "Pan tostado, tomate fresco, albahaca", 75, APPETIZER, 8),
    SeedDish("Tabla de Quesos", "Selección de quesos artesanales", 150, APPETIZER, 5),
    SeedDish("Filete Mignon", "Filete de res premium 250g", 380, MAIN_COURSE, 25),
    SeedDish("Salmón a la Plancha", "Salmón fresco con vegetales", 320, MAIN_COURSE, 20),
    SeedDish("Pasta Carbonara", "Pasta con panceta y salsa cremosa", 180, MAIN_COURSE, 18),
    SeedDish("Risotto de Hongos", "Risotto cremoso con hongos mixtos", 195, MAIN_COURSE, 22),
    SeedDish("Pollo a la Parmesana", "Pechuga empanizada con queso", 220, MAIN_COURSE, 20),
    SeedDish("Tiramisú", "Postre italiano clásico", 95, DESSERT, 5),
    SeedDish("Cheesecake", "Pastel de queso con frutos rojos", 85, DESSERT, 5),
    SeedDish("Volcán de Chocolate", "Chocolate fundido caliente", 110, DESSERT, 12),
    SeedDish("Agua Mineral", "Natural o con gas 500ml", 35, BEVERAGE, 2),
    SeedDish("Refresco", "Variedad de sabores", 40, BEVERAGE, 2),
    SeedDish("Jugo Natural", "Naranja, fresa o mango", 55, BEVERAGE, 5),
    SeedDish("Café Espresso", "Café italiano", 45, BEVERAGE, 3),
    SeedDish("Vino de la Casa", "Copa de vino tinto o blanco", 85, BEVERAGE, 2)
  ]

  /** Every seed price passes the constructor's check. */
  lemma {:induction false} SeedPricesValid()
    ensures |SeedMenu| == 16
    ensures forall i | 0 <= i < |SeedMenu| :: SeedMenu[i].price >= 0 && SeedMenu[i].time > 0
  {
  }

  /** The state the seed gives a dish: no image, available, no ingredients. */
  function SeedItem(d: SeedDish, now: Time): (s: MenuItemState)
    ensures s.isAvailable && s.imageUrl.None? && s.ingredients == []
    ensures s.name == d.name && s.price == d.price && s.category == d.category
    ensures s.description == d.description && s.preparationTime == d.time && s.updatedAt == now
  {
    MenuItemState(d.name, d.description, d.price, d.category, None, true, d.time, [], now)
  }

  /** The filters of `findAvailable` and `findByCategory`. */
  datatype MenuQuery = AvailableOnly | InCategory(category: string)

  predicate Matches(m: MenuItem, q: MenuQuery)
    reads m
  {
    match q
    case AvailableOnly => m.isAvailable
    case InCategory(c) => CategoryName(m.category) == c
  }

  /** The items of `ms` passing the filter, in their order. */
  function Select(ms: seq<MenuItem>, q: MenuQuery): (r: seq<MenuItem>)
    reads ms
    ensures forall m | m in r :: m in ms && Matches(m, q)
    ensures forall m | m in ms && Matches(m, q) :: m in r
    ensures |r| <= |ms|
  {
    if ms == [] then []
    else if Matches(ms[0], q) then [ms[0]] + Select(ms[1..], q)
    else Select(ms[1..], q)
  }

  /** What the use-cases throw when the store has no menu item under the id they were given. */
  const ErrMenuItemNotFound := Error(NotFound, "Item de menú no encontrado")

  /** The object stored under `id`, as a set: empty when there is none (a frame for callers). */
  function StoredItem(items: MockMenuItemRepository, id: string): set<MenuItem>
    reads items
  {
    if id in items.items.entries then {items.items.entries[id]} else {}
  }

  /** Whether `m` is the object the store holds under its id. */
  predicate HoldsItem(items: MockMenuItemRepository, m: MenuItem)
    reads items
  {
    m.id in items.items.entries && items.items.entries[m.id] == m
  }

  /** With distinct ids, the first `i` of them never include the next one. */
  lemma {:induction false} DistinctPrefixNew(keys: seq<string>, ids: seq<string>, i: nat)
    requires Distinct(ids) && i < |ids| && |keys| == i
    requires forall j | 0 <= j < i :: keys[j] == ids[j]
    ensures ids[i] !in keys
  {
    forall j | 0 <= j < i ensures keys[j] != ids[i] {
      assert ids[j] != ids[i];
    }
  }

  class MockMenuItemRepository {
    var items: OrderedMap<MenuItem>

    /** Each item is stored under its own id. */
    ghost predicate Valid()
      reads this
    {
      items.Valid() && forall k | k in items.entries :: items.entries[k].id == k
    }

    /** The store as built by `seedInitialItems`; `ids` are the sixteen fresh UUIDs, in seed order. */
    constructor (ids: seq<string>, now: Time)
      requires |ids| == |SeedMenu| && Distinct(ids)
      ensures Valid() && items.keys == ids
      ensures forall k | k in items.entries :: fresh(items.entries[k])
      ensures forall i | 0 <= i < |ids| :: ids[i] in items.entries
                                        && items.entries[ids[i]].State() == SeedItem(SeedMenu[i], now)
    {
      var seeded := SeedInitialItems(ids, now);
      items := seeded;
    }

    /** `seedInitialItems`: one new available dish per seed entry, stored under the next id. */
    static method SeedInitialItems(ids: seq<string>, now: Time) returns (m: OrderedMap<MenuItem>)
      requires |ids| == |SeedMenu| && Distinct(ids)
      ensures m.Valid() && m.keys == ids
      ensures forall k | k in m.entries :: m.entries[k].id == k && fresh(m.entries[k])
      ensures forall i | 0 <= i < |ids| :: ids[i] in m.entries
                                        && m.entries[ids[i]].State() == SeedItem(SeedMenu[i], now)
    {
      SeedPricesValid();
      m := SeedFrom(SeedMenu, ids, now);
    }

    /** The `forEach` over a seed list: dish `i` is built and stored under `ids[i]`. */
    static method SeedFrom(dishes: seq<SeedDish>, ids: seq<string>, now: Time)
      returns (m: OrderedMap<MenuItem>)
      requires |ids| == |dishes| && Distinct(ids)
      requires forall i | 0 <= i < |dishes| :: dishes[i].price >= 0
      ensures m.Valid() && m.keys == ids
      ensures forall k | k in m.entries :: m.entries[k].id == k && fresh(m.entries[k])
      ensures forall i | 0 <= i < |ids| :: ids[i] in m.entries
                                        && m.entries[ids[i]].State() == SeedItem(dishes[i], now)
    {
      m := Empty();
      for i := 0 to |dishes|
        invariant m.Valid() && |m.keys| == i
        invariant forall j | 0 <= j < i :: m.keys[j] == ids[j]
        invariant forall k | k in m.entries :: m.entries[k].id == k && fresh(m.entries[k])
        invariant forall j | 0 <= j < i :: m.entries[m.keys[j]].State() == SeedItem(dishes[j], now)
      {
        var d := dishes[i];
        var item := new MenuItem.Init(ids[i], d.name, d.description, d.price, d.category, None, true,
                                      d.time, [], now);
        DistinctPrefixNew(m.keys, ids, i);
        m := Put(m, item.id, item);
      }
      assert m.keys == ids;
    }

    /** `findById`: the stored object itself, or `null`. */
    function FindById(id: string): (r: Option<MenuItem>)
      reads this
      requires Valid()
      ensures r.Some? <==> id in items.entries
      ensures r.Some? ==> r.value == items.entries[id] && r.value.id == id
    {
      Get(items, id)
    }

    /** `findAll`: the stored items in insertion order. */
    function FindAll(): (r: seq<MenuItem>)
      reads this
      requires Valid()
      ensures |r| == |items.keys|
      ensures forall i | 0 <= i < |r| :: r[i] == items.entries[items.keys[i]]
    {
      Values(items)
    }

    /** The shared body of the two filter finders: exactly the stored items passing `q`. */
    function Find(q: MenuQuery): (r: seq<MenuItem>)
      reads this, items.entries.Values
      requires Valid()
      ensures forall m | m in r :: m in items.entries.Values && Matches(m, q)
      ensures forall m | m in items.entries.Values && Matches(m, q) :: m in r
    {
      ValuesAreEntries(items);
      Select(FindAll(), q)
    }

    /** `findAvailable`: exactly the stored items whose flag is on. */
    function FindAvailable(): (r: seq<MenuItem>)
      reads this, items.entries.Values
      requires Valid()
      ensures forall m | m in r :: m in items.entries.Values && m.isAvailable
      ensures forall m | m in items.entries.Values && m.isAvailable :: m in r
    {
      Find(AvailableOnly)
    }

    /** `findByCategory`: exactly the stored items whose category has that string value. */
    function FindByCategory(category: string): (r: seq<MenuItem>)
      reads this, items.entries.Values
      requires Valid()
      ensures forall m | m in r :: m in items.entries.Values && CategoryName(m.category) == category
      ensures forall m | m in items.entries.Values && CategoryName(m.category) == category :: m in r
    {
      Find(InCategory(category))
    }

    /** `save`: upsert under the item's id. */
    method Save(item: MenuItem) returns (r: MenuItem)
      requires Valid()
      modifies this
      ensures Valid() && r == item
      ensures items == Put(old(items), item.id, item)
    {
      items := Put(items, item.id, item);
      return item;
    }

    /**
     * `update`: the same upsert as `save`. Putting back the object already stored under its id,
     * as the use-cases do after changing it in place, leaves the store as it was.
     */
    method Update(item: MenuItem) returns (r: MenuItem)
      requires Valid()
      modifies this
      ensures Valid() && r == item
      ensures items == Put(old(items), item.id, item)
      ensures old(item.id in items.entries && items.entries[item.id] == item) ==> items == old(items)
    {
      if item.id in items.entries && items.entries[item.id] == item {
        PutSame(items, item.id);
      }
      items := Put(items, item.id, item);
      return item;
    }

    /** `delete`: removes that key, if present. */
    method Delete(id: string)
      requires Valid()
      modifies this
      ensures Valid()
      ensures items == Remove(old(items), id)
    {
      items := Remove(items, id);
    }
  }
}
