/** The table use-cases (src/application/use-cases/table.use-cases.ts). */
module TableUseCases {
  import opened Wrappers
  import opened DomainTypes
  import opened OrderedMaps
  import opened Tables
  import opened TableRepositories
  import opened Events

  const ErrNumberTaken := Error(Conflict, "Ya existe una mesa con ese número")
  const ErrDeleteOccupied := Error(Conflict, "No se puede eliminar una mesa ocupada. Libera la mesa primero.")

  /** `GetAllTablesUseCase.execute`: every stored table, in store order. */
  function GetAllTables(tables: MockTableRepository): (r: seq<Table>)
    reads tables
    requires tables.Valid()
    ensures |r| == |tables.tables.keys|
    ensures forall i | 0 <= i < |r| :: r[i] == tables.tables.entries[tables.tables.keys[i]]
  {
    tables.FindAll()
  }

  /** `GetAvailableTablesUseCase.execute`: exactly the stored tables that are AVAILABLE. */
  function GetAvailableTables(tables: MockTableRepository): (r: seq<Table>)
    reads tables, tables.tables.entries.Values
    requires tables.Valid()
    ensures forall t | t in r :: t in tables.tables.entries.Values && t.IsAvailable()
    ensures forall t | t in tables.tables.entries.Values && t.IsAvailable() :: t in r
  {
    tables.FindByStatus(TableStatus.AVAILABLE)
  }

  /**
   * `CreateTableUseCase.execute`: refused when a stored table already has that number;
   * otherwise a new AVAILABLE table without an order is stored under the fresh id `id` and
   * announced. No location means the main room; the capacity is not checked.
   */
  method CreateTable(tables: MockTableRepository, ws: EventSink, number: int, capacity: int,
                     location: Option<string>, id: string, now: Time)
    returns (r: Result<Table>)
    requires tables.Valid()
    modifies tables, ws
    ensures tables.Valid()
    ensures old(exists t | t in tables.tables.entries.Values :: t.number == number) ==>
      r == Err(ErrNumberTaken) && tables.tables == old(tables.tables) && ws.log == old(ws.log)
    ensures old(forall t | t in tables.tables.entries.Values :: t.number != number) ==>
      r.Ok? && fresh(r.value) && r.value.id == id && r.value.createdAt == now
      && r.value.State() == TableState(number, capacity, TableStatus.AVAILABLE, None,
                                       location.GetOr("main"), now)
      && tables.tables == Put(old(tables.tables), id, r.value)
      && ws.log == old(ws.log) + [TableEvent(TableCreated, r.value)]
  {
    var existing := tables.FindByNumber(number);
    if existing.Some? {
      return Err(ErrNumberTaken);
    }
    var table := new Table(id, number, capacity, TableStatus.AVAILABLE, None, location.GetOr("main"), now);
    var saved := tables.Save(table);
    ws.Emit(TableCreated, TablePayload(saved.id, saved.State()));
    return Ok(saved);
  }

  /**
   * The effect of `UpdateTableUseCase` on a table: a given capacity goes through
   * `updateCapacity` (which may refuse it and stops the use-case), then a given location is
   * written directly, without touching `updatedAt`.
   */
  function Reconfigured(s: TableState, capacity: Option<int>, location: Option<string>, now: Time)
    : (r: Result<TableState>)
    ensures r.Err? <==> capacity.Some? && capacity.value < 1
    ensures r.Err? ==> r.error == ErrCapacity
    ensures r.Ok? ==> (r.value.capacity == capacity.GetOr(s.capacity)
                   && r.value.location == location.GetOr(s.location)
                   && r.value.number == s.number && r.value.status == s.status
                   && r.value.currentOrderId == s.currentOrderId
                   && r.value.updatedAt == (if capacity.Some? then now else s.updatedAt))
  {
    var sized := if capacity.Some? then CapacityUpdated(s, capacity.value, now) else Ok(s);
    if sized.Err? then sized
    else Ok(sized.value.(location := location.GetOr(sized.value.location)))
  }

  /** An update never breaks "an order id exactly while OCCUPIED", and the empty update is a no-op. */
  lemma {:induction false} ReconfiguredKeepsConsistency(s: TableState, capacity: Option<int>,
                                                        location: Option<string>, now: Time)
    requires Consistent(s)
    ensures Consistent(After(Reconfigured(s, capacity, location, now), s))
    ensures Reconfigured(s, None, None, now) == Ok(s)
  {
    var r := Reconfigured(s, capacity, location, now);
    if r.Ok? {
      assert r.value.status == s.status && r.value.currentOrderId == s.currentOrderId;
    }
  }

  /**
   * `UpdateTableUseCase.execute`: the table must exist; a refused capacity throws with the table
   * unchanged; otherwise the table is changed in place, put back and announced.
   */
  method UpdateTable(tables: MockTableRepository, ws: EventSink, tableId: string,
                     capacity: Option<int>, location: Option<string>, now: Time)
    returns (r: Result<Table>)
    requires tables.Valid()
    modifies tables, ws, StoredTable(tables, tableId)
    ensures tables.Valid() && tables.tables == old(tables.tables)
    ensures tableId !in tables.tables.entries ==> r == Err(ErrTableNotFound) && ws.log == old(ws.log)
    ensures tableId in tables.tables.entries ==>
      var t := tables.tables.entries[tableId];
      var u := Reconfigured(old(t.State()), capacity, location, now);
      t.State() == After(u, old(t.State()))
      && (u.Err? ==> r == Err(u.error) && ws.log == old(ws.log))
      && (u.Ok? ==> r == Ok(t) && ws.log == old(ws.log) + [TableEvent(TableUpdated, t)])
  {
    var found := tables.FindById(tableId);
    if found.None? {
      return Err(ErrTableNotFound);
    }
    var table := found.value;
    if capacity.Some? {
      var sized := table.UpdateCapacity(capacity.value, now);
      if sized.Fail? {
        return Err(sized.error);
      }
    }
    if location.Some? {
      table.location := location.value;
    }
    var updated := tables.Update(table);
    ws.Emit(TableUpdated, TablePayload(updated.id, updated.State()));
    return Ok(updated);
  }

  /** `FreeTableUseCase.execute`: frees the stored table to CLEANING, whatever its state. */
  method FreeTable(tables: MockTableRepository, ws: EventSink, tableId: string, now: Time)
    returns (r: Result<Table>)
    requires tables.Valid()
    modifies tables, ws, StoredTable(tables, tableId)
    ensures tables.Valid() && tables.tables == old(tables.tables)
    ensures tableId !in tables.tables.entries ==> r == Err(ErrTableNotFound) && ws.log == old(ws.log)
    ensures tableId in tables.tables.entries ==>
      var t := tables.tables.entries[tableId];
      r == Ok(t) && t.State() == Freed(old(t.State()), now)
      && ws.log == old(ws.log) + [TableEvent(TableFreed, t)]
  {
    var found := tables.FindById(tableId);
    if found.None? {
      return Err(ErrTableNotFound);
    }
    var table := found.value;
    table.Free(now);
    var freed := tables.Update(table);
    ws.Emit(TableFreed, TablePayload(freed.id, freed.State()));
    return Ok(freed);
  }

  /**
   * `MarkTableAsAvailableUseCase.execute`: makes the stored table AVAILABLE, whatever its
   * state; an order id it held stays on it.
   */
  method MarkTableAsAvailable(tables: MockTableRepository, ws: EventSink, tableId: string, now: Time)
    returns (r: Result<Table>)
    requires tables.Valid()
    modifies tables, ws, StoredTable(tables, tableId)
    ensures tables.Valid() && tables.tables == old(tables.tables)
    ensures tableId !in tables.tables.entries ==> r == Err(ErrTableNotFound) && ws.log == old(ws.log)
    ensures tableId in tables.tables.entries ==>
      var t := tables.tables.entries[tableId];
      r == Ok(t) && t.State() == MadeAvailable(old(t.State()), now)
      && ws.log == old(ws.log) + [TableEvent(TableAvailable, t)]
  {
    var found := tables.FindById(tableId);
    if found.None? {
      return Err(ErrTableNotFound);
    }
    var table := found.value;
    table.MarkAsAvailable(now);
    var available := tables.Update(table);
    ws.Emit(TableAvailable, TablePayload(available.id, available.State()));
    return Ok(available);
  }

  /** `ReserveTableUseCase.execute`: only an AVAILABLE table is reserved; others throw unchanged. */
  method ReserveTable(tables: MockTableRepository, ws: EventSink, tableId: string, now: Time)
    returns (r: Result<Table>)
    requires tables.Valid()
    modifies tables, ws, StoredTable(tables, tableId)
    ensures tables.Valid() && tables.tables == old(tables.tables)
    ensures tableId !in tables.tables.entries ==> r == Err(ErrTableNotFound) && ws.log == old(ws.log)
    ensures tableId in tables.tables.entries ==>
      var t := tables.tables.entries[tableId];
      var u := Reserved(old(t.State()), now);
      t.State() == After(u, old(t.State()))
      && (u.Err? ==> r == Err(u.error) && ws.log == old(ws.log))
      && (u.Ok? ==> r == Ok(t) && ws.log == old(ws.log) + [TableEvent(TableReserved, t)])
  {
    var found := tables.FindById(tableId);
    if found.None? {
      return Err(ErrTableNotFound);
    }
    var table := found.value;
    var reserved := table.Reserve(now);
    if reserved.Fail? {
      return Err(reserved.error);
    }
    var updated := tables.Update(table);
    ws.Emit(TableReserved, TablePayload(updated.id, updated.State()));
    return Ok(updated);
  }

  /**
   * `DeleteTableUseCase.execute`: an OCCUPIED table is kept; any other stored table is removed
   * and its id announced. Only the OCCUPIED status is checked, not the orders on the table.
   */
  method DeleteTable(tables: MockTableRepository, ws: EventSink, tableId: string)
    returns (r: Outcome)
    requires tables.Valid()
    modifies tables, ws
    ensures tables.Valid()
    ensures tableId !in old(tables.tables.entries) ==>
      r == Fail(ErrTableNotFound) && tables.tables == old(tables.tables) && ws.log == old(ws.log)
    ensures tableId in old(tables.tables.entries) && old(tables.tables.entries[tableId].IsOccupied()) ==>
      r == Fail(ErrDeleteOccupied) && tables.tables == old(tables.tables) && ws.log == old(ws.log)
    ensures tableId in old(tables.tables.entries) && !old(tables.tables.entries[tableId].IsOccupied()) ==>
      r == Pass && tables.tables == Remove(old(tables.tables), tableId) && tableId !in tables.tables.entries
      && ws.log == old(ws.log) + [Event(TableDeleted, IdPayload(tableId))]
  {
    var found := tables.FindById(tableId);
    if found.None? {
      return Fail(ErrTableNotFound);
    }
    if found.value.IsOccupied() {
      return Fail(ErrDeleteOccupied);
    }
    tables.Delete(tableId);
    ws.Emit(TableDeleted, IdPayload(tableId));
    return Pass;
  }
}
