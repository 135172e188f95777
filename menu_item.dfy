/** A dish on the menu, with its price guard and patch-style update (src/domain/entities/MenuItem.ts). */
module MenuItems {
  import opened Wrappers
  import opened DomainTypes

  /** The mutable fields of a menu item, as a value (`None` image is the source's `null`). */
  datatype MenuItemState = MenuItemState(
    name: string,
    description: string,
    price: Money,
    category: MenuItemCategory,
    imageUrl: Option<string>,
    isAvailable: bool,
    preparationTime: int,
    ingredients: seq<string>,
    updatedAt: Time)

  /**
   * The argument of `update`: `None` is a field left undefined. `imageUrl` is `Some(None)` when
   * the patch sets it to `null`.
   */
  datatype MenuPatch = MenuPatch(
    name: Option<string>,
    description: Option<string>,
    price: Option<Money>,
    category: Option<MenuItemCategory>,
    imageUrl: Option<Option<string>>,
    isAvailable: Option<bool>,
    preparationTime: Option<int>,
    ingredients: Option<seq<string>>)

  /** The patch that defines no field. */
  const EmptyPatch := MenuPatch(None, None, None, None, None, None, None, None)

  /** JavaScript truthiness of an optional string: defined and not empty. */
  predicate TruthyText(o: Option<string>) {
    o.Some? && o.value != ""
  }

  /** JavaScript truthiness of an optional number: defined and not zero. */
  predicate TruthyNumber(o: Option<int>) {
    o.Some? && o.value != 0
  }

  /** `updatePrice`: a negative price is refused. */
  function PriceUpdated(s: MenuItemState, price: Money, now: Time): (r: Result<MenuItemState>)
    ensures r.Ok? <==> price >= 0
    ensures r.Err? ==> r.error == ErrNegativePrice
    ensures r.Ok? ==> r.value.price == price && r.value.updatedAt == now
    ensures r.Ok? ==> r.value.(price := s.price, updatedAt := s.updatedAt) == s
  {
    if price < 0 then Err(ErrNegativePrice)
    else Ok(s.(price := price, updatedAt := now))
  }

  /** `toggleAvailability`: flips the flag and touches nothing else but the instant. */
  function Toggled(s: MenuItemState, now: Time): (r: MenuItemState)
    ensures r.isAvailable == !s.isAvailable && r.updatedAt == now
    ensures r.(isAvailable := s.isAvailable, updatedAt := s.updatedAt) == s
  {
    s.(isAvailable := !s.isAvailable, updatedAt := now)
  }

  /** Toggling twice restores the availability and every other field but the instant. */
  lemma {:induction false} ToggleTwice(s: MenuItemState, t1: Time, t2: Time)
    ensures Toggled(Toggled(s, t1), t2) == s.(updatedAt := t2)
  {
  }

  /** The effect of `update`'s first two lines: a truthy name and a truthy description. */
  function Described(s: MenuItemState, p: MenuPatch): (r: MenuItemState)
    ensures r.name == (if TruthyText(p.name) then p.name.value else s.name)
    ensures r.description == (if TruthyText(p.description) then p.description.value else s.description)
    ensures r.(name := s.name, description := s.description) == s
  {
    s.(name := if TruthyText(p.name) then p.name.value else s.name,
       description := if TruthyText(p.description) then p.description.value else s.description)
  }

  /**
   * `update`, line by line: the state it leaves and whether it threw. A negative price throws
   * from the third line, after name and description are already written.
   */
  function Patched(s: MenuItemState, p: MenuPatch, now: Time): (r: (MenuItemState, Outcome))
    ensures r.1.Fail? <==> p.price.Some? && p.price.value < 0
    ensures r.1.Fail? ==> r.1.error == ErrNegativePrice && r.0 == Described(s, p)
  {
    var described := Described(s, p);
    var priced := if p.price.Some? then PriceUpdated(described, p.price.value, now) else Ok(described);
    if priced.Err? then (described, Fail(priced.error))
    else (Completed(priced.value, p, now), Pass)
  }

  /**
   * A patch that does not throw: name and description when truthy; price, category, image,
   * availability and ingredients whenever defined; the preparation time when truthy.
   */
  lemma {:induction false} PatchEffect(s: MenuItemState, p: MenuPatch, now: Time)
    requires !(p.price.Some? && p.price.value < 0)
    ensures var r := Patched(s, p, now).0;
      r.name == (if TruthyText(p.name) then p.name.value else s.name)
      && r.description == (if TruthyText(p.description) then p.description.value else s.description)
      && r.price == p.price.GetOr(s.price)
      && r.category == p.category.GetOr(s.category)
      && r.imageUrl == p.imageUrl.GetOr(s.imageUrl)
      && r.isAvailable == p.isAvailable.GetOr(s.isAvailable)
      && r.preparationTime == (if TruthyNumber(p.preparationTime) then p.preparationTime.value else s.preparationTime)
      && r.ingredients == p.ingredients.GetOr(s.ingredients)
      && r.updatedAt == now
  {
  }

  /** The effect of `update`'s lines after the price: category, image, availability, time, ingredients. */
  function Completed(t: MenuItemState, p: MenuPatch, now: Time): (r: MenuItemState)
    ensures r.name == t.name && r.description == t.description && r.price == t.price
    ensures r.updatedAt == now && r.isAvailable == p.isAvailable.GetOr(t.isAvailable)
    ensures !TruthyNumber(p.preparationTime) ==> r.preparationTime == t.preparationTime
  {
    t.(category := p.category.GetOr(t.category),
       imageUrl := p.imageUrl.GetOr(t.imageUrl),
       isAvailable := p.isAvailable.GetOr(t.isAvailable),
       preparationTime := if TruthyNumber(p.preparationTime) then p.preparationTime.value else t.preparationTime,
       ingredients := p.ingredients.GetOr(t.ingredients),
       updatedAt := now)
  }

  /** The empty patch changes nothing but the instant. */
  lemma {:induction false} EmptyPatchTouchesOnlyTime(s: MenuItemState, now: Time)
    ensures Patched(s, EmptyPatch, now) == (s.(updatedAt := now), Pass)
  {
  }

  /** A successful patch applied a second time changes nothing (the instant aside). */
  lemma {:induction false} PatchIdempotent(s: MenuItemState, p: MenuPatch, now: Time, later: Time)
    requires Patched(s, p, now).1.Pass?
    ensures Patched(Patched(s, p, now).0, p, later) == (Patched(s, p, now).0.(updatedAt := later), Pass)
  {
  }

  /** The fields `update` treats by truthiness ignore an empty string and a zero time, but `false` is applied. */
  lemma {:induction false} FalsyFieldsIgnored(s: MenuItemState, now: Time)
    ensures Patched(s, EmptyPatch.(name := Some(""), description := Some(""), preparationTime := Some(0)), now)
         == (s.(updatedAt := now), Pass)
    ensures Patched(s, EmptyPatch.(isAvailable := Some(false)), now).0.isAvailable == false
    ensures Patched(s, EmptyPatch.(ingredients := Some([])), now).0.ingredients == []
  {
  }

  class MenuItem {
    const id: string
    var name: string
    var description: string
    var price: Money
    var category: MenuItemCategory
    var imageUrl: Option<string>
    var isAvailable: bool
    var preparationTime: int
    var ingredients: seq<string>
    const createdAt: Time
    var updatedAt: Time

    function State(): MenuItemState
      reads this
    {
      MenuItemState(name, description, price, category, imageUrl, isAvailable, preparationTime,
                    ingredients, updatedAt)
    }

    /** The object once the constructor's price check has passed. */
    constructor Init(id: string, name: string, description: string, price: Money,
                     category: MenuItemCategory, imageUrl: Option<string>, isAvailable: bool,
                     preparationTime: int, ingredients: seq<string>, now: Time)
      requires price >= 0
      ensures this.id == id && createdAt == now
      ensures State() == MenuItemState(name, description, price, category, imageUrl, isAvailable,
                                       preparationTime, ingredients, now)
    {
      this.id := id;
      this.name := name;
      this.description := description;
      this.price := price;
      this.category := category;
      this.imageUrl := imageUrl;
      this.isAvailable := isAvailable;
      this.preparationTime := preparationTime;
      this.ingredients := ingredients;
      this.createdAt := now;
      this.updatedAt := now;
    }

    /** `new MenuItem(...)`: throws for a negative price. */
    static method New(id: string, name: string, description: string, price: Money,
                      category: MenuItemCategory, imageUrl: Option<string>, isAvailable: bool,
                      preparationTime: int, ingredients: seq<string>, now: Time)
      returns (r: Result<MenuItem>)
      ensures r.Err? <==> price < 0
      ensures r.Err? ==> r.error == ErrNegativePrice
      ensures r.Ok? ==> fresh(r.value) && r.value.id == id && r.value.createdAt == now
      ensures r.Ok? ==> r.value.State() == MenuItemState(name, description, price, category, imageUrl,
                                                         isAvailable, preparationTime, ingredients, now)
    {
      if price < 0 {
        return Err(ErrNegativePrice);
      }
      var m := new MenuItem.Init(id, name, description, price, category, imageUrl, isAvailable,
                                 preparationTime, ingredients, now);
      return Ok(m);
    }

    method UpdatePrice(newPrice: Money, now: Time) returns (r: Outcome)
      modifies this
      ensures r == OutcomeOf(PriceUpdated(old(State()), newPrice, now))
      ensures State() == After(PriceUpdated(old(State()), newPrice, now), old(State()))
    {
      if newPrice < 0 {
        return Fail(ErrNegativePrice);
      }
      price := newPrice;
      updatedAt := now;
      return Pass;
    }

    method ToggleAvailability(now: Time)
      modifies this
      ensures State() == Toggled(old(State()), now)
    {
      isAvailable := !isAvailable;
      updatedAt := now;
    }

    /** Applies the patch field by field; a refused price stops it with the earlier fields written. */
    method Update(p: MenuPatch, now: Time) returns (r: Outcome)
      modifies this
      ensures (State(), r) == Patched(old(State()), p, now)
    {
      if TruthyText(p.name) {
        name := p.name.value;
      }
      if TruthyText(p.description) {
        description := p.description.value;
      }
      r := Pass;
      if p.price.Some? {
        r := UpdatePrice(p.price.value, now);
        if r.Fail? {
          return;
        }
      }
      CompleteUpdate(p, now);
    }

    /** The lines of `update` after the price, each guarded by its own test. */
    method CompleteUpdate(p: MenuPatch, now: Time)
      modifies this
      ensures State() == Completed(old(State()), p, now)
    {
      if p.category.Some? {
        category := p.category.value;
      }
      if p.imageUrl.Some? {
        imageUrl := p.imageUrl.value;
      }
      if p.isAvailable.Some? {
        isAvailable := p.isAvailable.value;
      }
      if TruthyNumber(p.preparationTime) {
        preparationTime := p.preparationTime.value;
      }
      if p.ingredients.Some? {
        ingredients := p.ingredients.value;
      }
      updatedAt := now;
    }
  }
}
