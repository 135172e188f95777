/** The in-memory table store with its twelve seeded tables (mock-table.repository.ts). */
module TableRepositories {
  import opened Wrappers
  import opened DomainTypes
  import opened OrderedMaps
  import opened Tables

  /** The id the seed gives table number `i`: `table-${i}`. */
  function SeedTableId(i: nat): string {
    "table-" + NatToString(i)
  }

  /** A seed id is `table-` followed by the number's decimal digits, and nothing else. */
  lemma {:induction false} SeedTableIdShape(i: nat)
    ensures |SeedTableId(i)| > 6 && SeedTableId(i)[..6] == "table-"
    ensures SeedTableId(i)[6..] == NatToString(i)
  {
  }

  lemma {:induction false} SeedTableIdInjective(i: nat, j: nat)
    requires SeedTableId(i) == SeedTableId(j)
    ensures i == j
  {
    assert SeedTableId(i)[6..] == NatToString(i);
    assert SeedTableId(j)[6..] == NatToString(j);
    NatToStringInjective(i, j);
  }

  /** The ids of tables 1 .. i-1 never include the id of table `i`. */
  lemma {:induction false} SeedTableIdNew(keys: seq<string>, i: nat)
    requires |keys| == i - 1
    requires forall j | 0 <= j < i - 1 :: keys[j] == SeedTableId(j + 1)
    ensures SeedTableId(i) !in keys
  {
    if SeedTableId(i) in keys {
      var j :| 0 <= j < |keys| && keys[j] == SeedTableId(i);
      SeedTableIdInjective(j + 1, i);
    }
  }

  /** Seed capacity: 2 seats for tables 1-4, 4 for 5-8, 6 for the rest. */
  function SeedCapacity(i: nat): (c: int)
    ensures c == 2 <==> i <= 4
    ensures c == 4 <==> 4 < i <= 8
    ensures c == 6 <==> i > 8
  {
    if i <= 4 then 2 else if i <= 8 then 4 else 6
  }

  /** Seed location: main room for tables 1-6, terrace for 7-10, vip for the rest. */
  function SeedLocation(i: nat): (l: string)
    ensures l == "main" <==> i <= 6
    ensures l == "terrace" <==> 6 < i <= 10
    ensures l == "vip" <==> i > 10
  {
    if i <= 6 then "main" else if i <= 10 then "terrace" else "vip"
  }

  /** The seeded state of table number `i`. */
  function SeedTable(i: nat, now: Time): (s: TableState)
    ensures s.number == i && s.status == TableStatus.AVAILABLE && s.currentOrderId.None?
    ensures s.capacity in {2, 4, 6} && s.location in {"main", "terrace", "vip"}
    ensures Consistent(s)
  {
    TableState(i, SeedCapacity(i), TableStatus.AVAILABLE, None, SeedLocation(i), now)
  }

  /** The stored tables whose status is `status`, in store order. */
  function WithStatus(ts: seq<Table>, status: TableStatus): (r: seq<Table>)
    reads ts
    ensures forall t | t in r :: t in ts && t.status == status
    ensures forall t | t in ts && t.status == status :: t in r
    ensures |r| <= |ts|
  {
    if ts == [] then []
    else if ts[0].status == status then [ts[0]] + WithStatus(ts[1..], status)
    else WithStatus(ts[1..], status)
  }

  /** The first stored table with that number (`Array.prototype.find`). */
  function FirstNumbered(ts: seq<Table>, number: int): (r: Option<Table>)
    reads ts
    ensures r.Some? ==> exists i | 0 <= i < |ts| :: ts[i] == r.value
                          && (forall j | 0 <= j < i :: ts[j].number != number)
    ensures r.Some? ==> r.value.number == number
    ensures r.None? <==> forall t | t in ts :: t.number != number
  {
    if ts == [] then None
    else if ts[0].number == number then Some(ts[0])
    else
      var rest := FirstNumbered(ts[1..], number);
      if rest.Some? then
        ghost var i :| 0 <= i < |ts[1..]| && ts[1..][i] == rest.value
                       && (forall j | 0 <= j < i :: ts[1..][j].number != number);
        assert ts[i + 1] == rest.value;
        rest
      else rest
  }

  /** What the use-cases throw when the store has no table under the id they were given. */
  const ErrTableNotFound := Error(NotFound, "Mesa no encontrada")

  /** The object stored under `id`, as a set: empty when there is none (a frame for callers). */
  function StoredTable(tables: MockTableRepository, id: string): set<Table>
    reads tables
  {
    if id in tables.tables.entries then {tables.tables.entries[id]} else {}
  }

  /** Whether `t` is the object the store holds under its id. */
  predicate HoldsTable(tables: MockTableRepository, t: Table)
    reads tables
  {
    t.id in tables.tables.entries && tables.tables.entries[t.id] == t
  }

  /**
   * `table.free()` followed by `tableRepository.update(table)` on a stored table: the
   * table goes to CLEANING and the store keeps the same object under the same id.
   */
  method FreeStored(tables: MockTableRepository, t: Table, now: Time)
    requires tables.Valid() && HoldsTable(tables, t)
    modifies tables, t
    ensures tables.Valid() && tables.tables == old(tables.tables)
    ensures t.State() == Freed(old(t.State()), now)
  {
    t.Free(now);
    var _ := tables.Update(t);
  }

  class MockTableRepository {
    var tables: OrderedMap<Table>

    /** Each table is stored under its own id. */
    ghost predicate Valid()
      reads this
    {
      tables.Valid() && forall k | k in tables.entries :: tables.entries[k].id == k
    }

    /** The store as built by `seedInitialTables`: tables 1 to 12, in that order. */
    constructor (now: Time)
      ensures Valid()
      ensures |tables.keys| == 12 && forall j | 0 <= j < 12 :: tables.keys[j] == SeedTableId(j + 1)
      ensures forall k | k in tables.entries :: fresh(tables.entries[k])
      ensures forall i | 1 <= i <= 12 :: SeedTableId(i) in tables.entries
                                        && tables.entries[SeedTableId(i)].State() == SeedTable(i, now)
    {
      var seeded := SeedInitialTables(now);
      tables := seeded;
    }

    /** `seedInitialTables`: one new AVAILABLE table per number from 1 to 12. */
    static method SeedInitialTables(now: Time) returns (m: OrderedMap<Table>)
      ensures m.Valid() && |m.keys| == 12
      ensures forall j | 0 <= j < 12 :: m.keys[j] == SeedTableId(j + 1)
      ensures forall k | k in m.entries :: m.entries[k].id == k && fresh(m.entries[k])
      ensures forall i | 1 <= i <= 12 :: SeedTableId(i) in m.entries
                                        && m.entries[SeedTableId(i)].State() == SeedTable(i, now)
    {
      m := Empty();
      for i := 1 to 13
        invariant m.Valid() && |m.keys| == i - 1
        invariant forall j | 0 <= j < i - 1 :: m.keys[j] == SeedTableId(j + 1)
        invariant forall k | k in m.entries :: m.entries[k].id == k && fresh(m.entries[k])
        invariant forall j | 0 <= j < i - 1 :: m.entries[m.keys[j]].State() == SeedTable(j + 1, now)
      {
        var t := new Table(SeedTableId(i), i, SeedCapacity(i), TableStatus.AVAILABLE, None, SeedLocation(i), now);
        SeedTableIdNew(m.keys, i);
        m := Put(m, t.id, t);
      }
      forall i | 1 <= i <= 12
        ensures SeedTableId(i) in m.entries && m.entries[SeedTableId(i)].State() == SeedTable(i, now)
      {
        assert m.keys[i - 1] == SeedTableId(i);
      }
    }

    /** `findById`: the stored object itself, or `null`. */
    function FindById(id: string): (r: Option<Table>)
      reads this
      requires Valid()
      ensures r.Some? <==> id in tables.entries
      ensures r.Some? ==> r.value == tables.entries[id] && r.value.id == id
    {
      Get(tables, id)
    }

    /** `findAll`: the stored tables in insertion order. */
    function FindAll(): (r: seq<Table>)
      reads this
      requires Valid()
      ensures |r| == |tables.keys|
      ensures forall i | 0 <= i < |r| :: r[i] == tables.entries[tables.keys[i]]
    {
      Values(tables)
    }

    /** `findByStatus`: exactly the stored tables with that status. */
    function FindByStatus(status: TableStatus): (r: seq<Table>)
      reads this, tables.entries.Values
      requires Valid()
      ensures forall t | t in r :: t in tables.entries.Values && t.status == status
      ensures forall t | t in tables.entries.Values && t.status == status :: t in r
    {
      ValuesAreEntries(tables);
      WithStatus(FindAll(), status)
    }

    /** `findByNumber`: a stored table with that number, or `null` when there is none. */
    function FindByNumber(number: int): (r: Option<Table>)
      reads this, tables.entries.Values
      requires Valid()
      ensures r.Some? ==> r.value in tables.entries.Values && r.value.number == number
      ensures r.None? <==> forall t | t in tables.entries.Values :: t.number != number
    {
      ValuesAreEntries(tables);
      FirstNumbered(FindAll(), number)
    }

    /** `save`: upsert under the table's id. */
    method Save(table: Table) returns (r: Table)
      requires Valid()
      modifies this
      ensures Valid() && r == table
      ensures tables == Put(old(tables), table.id, table)
    {
      tables := Put(tables, table.id, table);
      return table;
    }

    /**
     * `update`: the same upsert as `save`. Putting back the object already stored under its id,
     * as the use-cases do after changing it in place, leaves the store as it was.
     */
    method Update(table: Table) returns (r: Table)
      requires Valid()
      modifies this
      ensures Valid() && r == table
      ensures tables == Put(old(tables), table.id, table)
      ensures old(table.id in tables.entries && tables.entries[table.id] == table) ==> tables == old(tables)
    {
      if table.id in tables.entries && tables.entries[table.id] == table {
        PutSame(tables, table.id);
      }
      tables := Put(tables, table.id, table);
      return table;
    }

    /** `delete`: removes that key, if present. */
    method Delete(id: string)
      requires Valid()
      modifies this
      ensures Valid()
      ensures tables == Remove(old(tables), id)
    {
      tables := Remove(tables, id);
    }
  }
}
