# Restaurant order, table and payment engine — a Dafny model

This project models the core of a restaurant order-management system ("Comandas").

- **Domain entities.** These are classes whose methods change fields in place:
  - `Order` is a six-state lifecycle with an item list and derived totals;
  - `OrderItem` is a quantity × unit-price line;
  - `Table` is a four-state occupancy machine;
  - `Payment` accumulates partial payments into PAID and can be refunded;
  - `MenuItem` has a price guard, an availability toggle and a patch-style `update`;
  - `User` answers role predicates.
- **In-memory mock repositories.** Each keeps its objects in a JavaScript `Map`. `OrderedMap` models that `Map`: a map together with the key insertion order. The repository holds the map as a field and reassigns it on `save`, `update` and `delete`.
- **Use-cases.** Each fetches an entity, mutates it, writes it back and publishes websocket events, in a fixed order of side effects.

**Entities.** Each entity is a Dafny `class` with the source's fields.
- `State()` gives the mutable fields as a value.
- Every guarded mutator is specified by a pure transition function on that value: `Confirmed`, `Occupied`, `Processed`, `Patched`, …
- That function returns `Result` (ok, or the error the source throws with its message) and carries the contract.
- The method's `ensures` ties `State()` to the function applied to `old(State())`.
- Lemmas about the transition functions state the lifecycle properties.

**Repositories.**
- They hand out the stored object itself, so a use-case's in-place mutation is visible in the store before `update` is called. The model keeps this aliasing: the use-cases' postconditions speak of the object the store holds.
- `Update` on the object already stored under its id leaves the map as it was.

**Events.** The websocket sink is an append-only log of `(name, payload)`. Socket.io serialises the data when it is emitted, so a payload is a snapshot of the entity's state at that moment.

**Inputs and conventions.**
- Fresh UUIDs (`crypto.randomUUID()`) are parameters: `orderId`, `itemIds`, `paymentId`, `id`, and the sixteen menu seed ids.
- Every `new Date()` inside one operation is the one parameter `now: Time`.
- Money is `int` in the source's unit, as the seed prices are written. The model neither scales nor rounds.
- Where the source throws, the model returns `Err(Error(kind, message))` (or `Fail(...)` for `void` operations), with the source's Spanish message.

## Model

| member | source | states |
|---|---|---|
| DomainTypes.CategoryNameInjective | src/domain/types.ts:25-31 | the string values of the menu categories are pairwise distinct, so filtering by the string is filtering by the category |
| OrderItems.ItemError | src/domain/entities/OrderItem.ts:11-16 | a line is accepted iff quantity > 0 and unit price >= 0; quantity is checked first, so a line failing both reports the quantity error |
| OrderItems.LineTotal | src/domain/entities/OrderItem.ts:19-21 | a line costs its quantity times its unit price |
| OrderItems.OrderItem.Total | src/domain/entities/OrderItem.ts:19-21 | the `total` getter of a line object is its quantity times its unit price |
| OrderItems.OrderItem.New | src/domain/entities/OrderItem.ts:2-17 | construction fails exactly when the checks fail, with that error; otherwise a fresh line with the given fields |
| OrderItems.OrderItem.UpdateQuantity | src/domain/entities/OrderItem.ts:23-28 | fails iff the new quantity is <= 0 and then changes nothing; otherwise only the quantity changes |
| OrderItems.OrderItem.AddQuantity | src/domain/entities/OrderItem.ts:30-32 | adds the amount (default 1) to the quantity with no validation; nothing else changes |
| OrderItems.OrderItem.UpdateNotes | src/domain/entities/OrderItem.ts:34-36 | only the notes change |
| Orders.ItemsTotal | src/domain/entities/Order.ts:18-20 | the sum of the line totals; never negative when every line is valid |
| Orders.ItemsCount | src/domain/entities/Order.ts:22-24 | the sum of the quantities; at least the number of lines when every quantity is positive |
| Orders.FoldsAreSums | src/domain/entities/Order.ts:18-24 | the left folds `FoldTotal` and `FoldCount` that the getters run (`reduce` from 0) equal the recursive sums `ItemsTotal` and `ItemsCount` |
| Orders.Order.Total | src/domain/entities/Order.ts:18-20 | the order total is the sum of quantity × unit price over its lines |
| Orders.Order.ItemCount | src/domain/entities/Order.ts:22-24 | the item count is the sum of the line quantities |
| Orders.SumsAppend | src/domain/entities/Order.ts:18-24 | total and count split over concatenated line lists |
| Orders.SumsAfterQuantityChange | src/domain/entities/Order.ts:18-24 | raising one line's quantity by d raises the count by d and the total by d × that line's unit price |
| Orders.AddedItem | src/domain/entities/Order.ts:26-34 | with a line for the same menu item the list keeps its length; without one the item is appended at the end; either way the count grows by the item's quantity |
| Orders.MergeIntoFirstLine | src/domain/entities/Order.ts:27-30 | the merge changes exactly the first line for that menu item, adding to its quantity |
| Orders.MergeChargesLinePrice | src/domain/entities/Order.ts:27-30 | a merged item is charged at the existing line's unit price, not at its own |
| Orders.AppendNewLine | src/domain/entities/Order.ts:31-32 | an appended line adds its own total to the order total |
| Orders.Order.AddItem | src/domain/entities/Order.ts:26-34 | the lines become `AddedItem` of the old lines; a merge changes the existing line object in place, an append adds the given object itself; only the lines and `updatedAt` change |
| Orders.Order.MergeInto | src/domain/entities/Order.ts:27-30 | the first line for the menu item grows in place and the line values equal `AddedItem` |
| Orders.Order.AppendLine | src/domain/entities/Order.ts:31-32 | the given object is pushed; the line values equal `AddedItem`; nothing else changes |
| Orders.WithoutItem | src/domain/entities/Order.ts:36-39 | keeps exactly the lines with another id; with no line of that id the list is unchanged |
| Orders.WithoutItemAppend | src/domain/entities/Order.ts:36-39 | removal by id distributes over concatenation, so the kept lines stay in their original order |
| Orders.StatesOfWithout | src/domain/entities/Order.ts:36-39 | filtering the line objects and then taking their values equals filtering the values |
| Orders.Order.RemoveItem | src/domain/entities/Order.ts:36-39 | the line objects are filtered by id; the state is the old one with `WithoutItem` lines and a new `updatedAt` |
| Orders.QuantityUpdated | src/domain/entities/Order.ts:41-48 | an absent id is "Item no encontrado"; a present id with quantity <= 0 is the quantity error; otherwise exactly the first line with that id gets the new quantity |
| Orders.Order.UpdateItemQuantity | src/domain/entities/Order.ts:41-48 | the outcome and new state follow `QuantityUpdated`; on any error nothing changes, not even `updatedAt` |
| Orders.Confirmed | src/domain/entities/Order.ts:50-60 | succeeds iff PENDING with lines; the status check comes before the empty check; success gives CONFIRMED with `confirmedAt` and `updatedAt` set and the content untouched |
| Orders.PreparingStarted | src/domain/entities/Order.ts:62-68 | succeeds iff CONFIRMED, giving PREPARING; otherwise "Solo se pueden preparar pedidos confirmados" |
| Orders.MarkedReady | src/domain/entities/Order.ts:70-76 | succeeds iff PREPARING, giving READY |
| Orders.Delivered | src/domain/entities/Order.ts:78-85 | succeeds iff READY, giving DELIVERED with `deliveredAt` set |
| Orders.Cancelled | src/domain/entities/Order.ts:87-96 | fails only for DELIVERED (a CANCELLED order is cancelled again); a non-empty reason appends `\n[Cancelado: reason]` to the notes, so the old notes stay a prefix |
| Orders.Order.Confirm | src/domain/entities/Order.ts:50-60 | outcome and new state are those of `Confirmed`; a failure changes nothing |
| Orders.Order.StartPreparing | src/domain/entities/Order.ts:62-68 | outcome and new state are those of `PreparingStarted` |
| Orders.Order.MarkAsReady | src/domain/entities/Order.ts:70-76 | outcome and new state are those of `MarkedReady` |
| Orders.Order.Deliver | src/domain/entities/Order.ts:78-85 | outcome and new state are those of `Delivered` |
| Orders.Order.Cancel | src/domain/entities/Order.ts:87-96 | outcome and new state are those of `Cancelled` (the reason defaults to empty) |
| Orders.StatusQueries | src/domain/entities/Order.ts:98-124 | exactly one of `isPending` .. `isCancelled` holds; `canBeModified` (`CanBeModified`) holds exactly while pending; `IsActive`, the filter of `findActive` (mock-order.repository.ts:95-99), holds exactly while neither delivered nor cancelled |
| Orders.PathRank | src/domain/types.ts:9-16 | places the five non-cancelled statuses on the forward path, ranks 0 to 4 |
| Orders.PathRankInjective | src/domain/types.ts:9-16 | distinct non-cancelled statuses have distinct ranks, so the forward path is a strict order |
| Orders.AdvanceFollowsPath | src/domain/entities/Order.ts:50-85 | each advancing step moves exactly one place forward and never touches CANCELLED; the lines never change; from CANCELLED or DELIVERED every advance fails and leaves the state as it was |
| Orders.PendingExits | src/domain/entities/Order.ts:50-96 | from PENDING only `confirm` (of the advances) can succeed, and `cancel` always succeeds |
| Orders.Order.constructor | src/domain/entities/Order.ts:5-16 | a new order is PENDING with the given lines, empty notes and no confirmation or delivery instant |
| Tables.Occupied | src/domain/entities/Table.ts:23-30 | succeeds iff AVAILABLE, giving OCCUPIED with that order id; otherwise "La mesa no está disponible" |
| Tables.Freed | src/domain/entities/Table.ts:32-36 | from any state: CLEANING with no order id, layout untouched |
| Tables.MadeAvailable | src/domain/entities/Table.ts:38-41 | from any state: AVAILABLE, and the order id is kept as it was |
| Tables.Reserved | src/domain/entities/Table.ts:43-49 | succeeds iff AVAILABLE, giving RESERVED; otherwise "La mesa no está disponible para reservar" |
| Tables.CapacityUpdated | src/domain/entities/Table.ts:51-57 | fails iff the capacity is below 1; otherwise only capacity and `updatedAt` change |
| Tables.FreeIdempotent | src/domain/entities/Table.ts:32-36 | freeing twice is freeing once (only the instant differs) |
| Tables.TransitionsKeepConsistency | src/domain/entities/Table.ts:23-57 | "an order id exactly while OCCUPIED" is kept by occupy, free, reserve and capacity changes, and by markAsAvailable from any state but OCCUPIED |
| Tables.AvailableKeepsStaleOrder | src/domain/entities/Table.ts:38-41 | marking an OCCUPIED table available leaves an AVAILABLE table that still names its order |
| Tables.ReservedBlocksOccupy | src/domain/entities/Table.ts:23-49 | a reserved table cannot be occupied until it is marked available again |
| Tables.Table.Queries | src/domain/entities/Table.ts:15-49 | `isAvailable` holds exactly when `occupy` and `reserve` succeed, and no table is both available and occupied (`isOccupied`) |
| Tables.Table.constructor | src/domain/entities/Table.ts:4-13 | the table holds the given fields, created and updated at `now` |
| Tables.Table.Occupy | src/domain/entities/Table.ts:23-30 | outcome and new state are those of `Occupied` |
| Tables.Table.Free | src/domain/entities/Table.ts:32-36 | the new state is `Freed` of the old one |
| Tables.Table.MarkAsAvailable | src/domain/entities/Table.ts:38-41 | the new state is `MadeAvailable` of the old one |
| Tables.Table.Reserve | src/domain/entities/Table.ts:43-49 | outcome and new state are those of `Reserved` |
| Tables.Table.UpdateCapacity | src/domain/entities/Table.ts:51-57 | outcome and new state are those of `CapacityUpdated` |
| Payments.Pending | src/domain/entities/Payment.ts:20-22 | what is owed is never negative, is zero iff paid covers amount, and otherwise completes paid to amount |
| Payments.Change | src/domain/entities/Payment.ts:24-26 | the excess is never negative, is zero iff paid does not exceed amount, and otherwise is paid minus amount |
| Payments.PendingOrChange | src/domain/entities/Payment.ts:20-26 | at most one of owed and excess is non-zero, and owed minus excess is the balance |
| Payments.Processed | src/domain/entities/Payment.ts:40-55 | fails iff the part is <= 0; otherwise paid grows by exactly the part, the status is PAID iff the cumulative paid covers the amount and PARTIAL otherwise, and `paidAt` is set only on PAID |
| Payments.Refunded | src/domain/entities/Payment.ts:57-63 | succeeds iff PAID, giving REFUNDED with the paid amount untouched |
| Payments.PaidStaysPaid | src/domain/entities/Payment.ts:47-52 | a PAID payment whose paid amount covers its amount (settled) stays PAID under any further part, valid or not |
| Payments.TransitionsKeepSettled | src/domain/entities/Payment.ts:40-63 | `processPayment` and `refund`, accepted or refused, keep "PAID implies the paid amount covers the amount" |
| Payments.ProcessAllKeepsSettled | src/domain/entities/Payment.ts:40-55 | any sequence of parts keeps a settled payment settled, so `PaidStaysPaid` applies to every payment the use-cases create |
| Payments.ProcessAll | src/domain/entities/Payment.ts:40-55 | applying the parts in turn never changes the order, amount or method and never lowers the paid amount |
| Payments.Payment.Queries | src/domain/entities/Payment.ts:28-38 | at most one of `isPaid`, `isPartial`, `isPending` holds; `isPaid` is exactly when `refund` succeeds; an accepted part never leaves the payment pending |
| Payments.RefundedPaysAgain | src/domain/entities/Payment.ts:40-63 | with no status guard on `processPayment`, a refunded payment becomes PAID again after another positive part |
| Payments.PositiveSum | src/domain/entities/Payment.ts:41-45 | the sum of the accepted parts is never negative |
| Payments.ProcessAllAccumulates | src/domain/entities/Payment.ts:40-55 | after any sequence of parts, paid has grown by the sum of the positive parts; if any was accepted, the status is PAID iff that covers the amount, else the status is unchanged |
| Payments.Payment.New | src/domain/entities/Payment.ts:4-18 | construction fails iff the amount is negative; otherwise a fresh payment with the given fields and no `paidAt` |
| Payments.Payment.ProcessPayment | src/domain/entities/Payment.ts:40-55 | outcome and new state are those of `Processed` |
| Payments.Payment.Refund | src/domain/entities/Payment.ts:57-63 | outcome and new state are those of `Refunded` |
| MenuItems.PriceUpdated | src/domain/entities/MenuItem.ts:22-28 | fails iff the price is negative; otherwise only price and instant change |
| MenuItems.Toggled | src/domain/entities/MenuItem.ts:30-33 | negates availability and touches nothing else but the instant |
| MenuItems.ToggleTwice | src/domain/entities/MenuItem.ts:30-33 | toggling twice restores every field but the instant |
| MenuItems.Described | src/domain/entities/MenuItem.ts:36-37 | the first two lines of `update` write a truthy name and a truthy description and nothing else |
| MenuItems.Completed | src/domain/entities/MenuItem.ts:39-44 | the lines after the price keep name, description and price, apply a defined availability, ignore a falsy time and set the instant |
| MenuItems.Patched | src/domain/entities/MenuItem.ts:35-45 | the patch fails iff it has a negative price, and then name and description from the patch are already written |
| MenuItems.PatchEffect | src/domain/entities/MenuItem.ts:35-45 | a patch that does not fail applies name, description and preparation time when truthy, and price, category, image, availability and ingredients whenever defined |
| MenuItems.EmptyPatchTouchesOnlyTime | src/domain/entities/MenuItem.ts:35-45 | the empty patch changes only the instant |
| MenuItems.PatchIdempotent | src/domain/entities/MenuItem.ts:35-45 | a patch that succeeded changes nothing more when applied a second time |
| MenuItems.FalsyFieldsIgnored | src/domain/entities/MenuItem.ts:36-43 | an empty name or description and a zero time are ignored, while `isAvailable: false` and an empty ingredient list are applied |
| MenuItems.MenuItem.New | src/domain/entities/MenuItem.ts:2-19 | construction fails iff the price is negative; otherwise a fresh item with the given fields |
| MenuItems.MenuItem.UpdatePrice | src/domain/entities/MenuItem.ts:22-28 | outcome and new state are those of `PriceUpdated` |
| MenuItems.MenuItem.ToggleAvailability | src/domain/entities/MenuItem.ts:30-33 | the new state is `Toggled` of the old one |
| MenuItems.MenuItem.Update | src/domain/entities/MenuItem.ts:35-45 | the new state and outcome are `Patched`, including the partial write before a refused price |
| MenuItems.MenuItem.CompleteUpdate | src/domain/entities/MenuItem.ts:39-44 | the lines after the price apply category, image, availability, truthy time and ingredients, and set the instant |
| Users.ExactlyOneRole | src/domain/entities/User.ts:14-24 | exactly one of the role predicates `IsAdmin`, `IsWaiter`, `IsChef` holds |
| Users.Permissions | src/domain/entities/User.ts:26-32 | `CanManageOrders` iff not a chef, `CanPrepareOrders` iff not a waiter, both iff administrator, and every role has one |
| Users.UserUpdated | src/domain/entities/User.ts:34-39 | name and email change only when truthy, `isActive` whenever defined, and the role never |
| Users.UserUpdateIdempotent | src/domain/entities/User.ts:34-39 | applying a patch twice is applying it once |
| Users.User.constructor | src/domain/entities/User.ts:2-12 | the user holds the given fields |
| Users.User.Update | src/domain/entities/User.ts:34-39 | the new state is `UserUpdated` of the old one |
| OrderedMaps.Empty | src/infrastructure/repositories/mock-order.repository.ts:10 | `new Map()` has no binding |
| OrderedMaps.Get | src/infrastructure/repositories/mock-order.repository.ts:75-77 | `get` finds a value iff the key is bound, and then it is the bound value |
| OrderedMaps.GetAfterPut | src/infrastructure/repositories/mock-order.repository.ts:101-109 | after `set(k, v)`, `get(k)` is `v` and every other key reads as before |
| OrderedMaps.GetAfterRemove | src/infrastructure/repositories/mock-order.repository.ts:111-113 | after `delete(k)`, `get(k)` is undefined and every other key reads as before |
| OrderedMaps.Put | src/infrastructure/repositories/mock-order.repository.ts:101-104 | `set` binds the key to the value, keeps every other binding, and appends the key to the iteration order only when it is new |
| OrderedMaps.Remove | src/infrastructure/repositories/mock-order.repository.ts:111-113 | `delete` unbinds exactly that key, keeps every other binding, and keeps the other keys in their iteration order |
| OrderedMaps.Values | src/infrastructure/repositories/mock-order.repository.ts:79-81 | `values()` lists the bound values in key insertion order |
| OrderedMaps.ValuesAreEntries | src/infrastructure/repositories/mock-order.repository.ts:79-81 | the listed values are exactly the bound values |
| OrderedMaps.PutSame | src/infrastructure/repositories/mock-order.repository.ts:106-109 | putting back the value already bound changes nothing |
| OrderedMaps.PutNewAppends | src/infrastructure/repositories/mock-order.repository.ts:101-104 | a new key's value is listed last |
| OrderedMaps.PutExistingInPlace | src/infrastructure/repositories/mock-order.repository.ts:106-109 | an existing key's value is replaced at its old place in the listing |
| TableRepositories.SeedTableIdShape | src/infrastructure/repositories/mock-table.repository.ts:17 | `SeedTableId(i)`, the seed id of table `i`, is `table-` followed by `i` in decimal |
| TableRepositories.SeedCapacity | src/infrastructure/repositories/mock-table.repository.ts:19 | 2 seats exactly for tables up to 4, 4 for 5 to 8, 6 above |
| TableRepositories.SeedLocation | src/infrastructure/repositories/mock-table.repository.ts:22 | main room exactly for tables up to 6, terrace for 7 to 10, vip above |
| Wrappers.NatToString | src/infrastructure/repositories/mock-table.repository.ts:17 | a number prints as a non-empty string (its digits: `NatToStringDigits`), a single digit exactly below 10 |
| Wrappers.NatToStringDigits | src/infrastructure/repositories/mock-table.repository.ts:17 | every character of a printed number is a decimal digit |
| Wrappers.NatToStringInjective | src/infrastructure/repositories/mock-table.repository.ts:17 | different numbers print differently |
| Wrappers.Filter | src/domain/entities/Order.ts:37 | `Array.prototype.filter` keeps exactly the elements passing the test, never lengthens, keeps distinctness, and keeps all when all pass |
| TableRepositories.SeedTableIdInjective | src/infrastructure/repositories/mock-table.repository.ts:17 | distinct table numbers get distinct `table-${i}` ids |
| TableRepositories.SeedTable | src/infrastructure/repositories/mock-table.repository.ts:14-25 | a seeded table is AVAILABLE with no order id, capacity 2, 4 or 6 and location main, terrace or vip |
| TableRepositories.WithStatus | src/infrastructure/repositories/mock-table.repository.ts:36-38 | keeps exactly the tables with that status |
| TableRepositories.FirstNumbered | src/infrastructure/repositories/mock-table.repository.ts:40-42 | the first table with that number, or none iff no table has it |
| TableRepositories.FreeStored | src/application/use-cases/order.use-cases.ts:181-183 | `free` then `update` on a stored table: the table is `Freed` and the store map is unchanged |
| TableRepositories.MockTableRepository.constructor | src/infrastructure/repositories/mock-table.repository.ts:8-11 | the store holds exactly tables 1 to 12 in that order, each in its seeded state |
| TableRepositories.MockTableRepository.SeedInitialTables | src/infrastructure/repositories/mock-table.repository.ts:13-26 | the loop stores table `i` under `table-${i}` for i = 1..12, in that order, with capacity by number range (2/4/6) and location by number range (main/terrace/vip) |
| TableRepositories.MockTableRepository.FindById | src/infrastructure/repositories/mock-table.repository.ts:28-30 | the stored object itself, or none iff the id is absent |
| TableRepositories.MockTableRepository.FindAll | src/infrastructure/repositories/mock-table.repository.ts:32-34 | the stored tables in insertion order |
| TableRepositories.MockTableRepository.FindByStatus | src/infrastructure/repositories/mock-table.repository.ts:36-38 | exactly the stored tables with that status |
| TableRepositories.MockTableRepository.FindByNumber | src/infrastructure/repositories/mock-table.repository.ts:40-42 | a stored table with that number, or none iff there is none |
| TableRepositories.MockTableRepository.Save | src/infrastructure/repositories/mock-table.repository.ts:44-47 | upserts the table under its id and returns it |
| TableRepositories.MockTableRepository.Update | src/infrastructure/repositories/mock-table.repository.ts:49-52 | the same upsert; putting back the stored object leaves the store as it was |
| TableRepositories.MockTableRepository.Delete | src/infrastructure/repositories/mock-table.repository.ts:54-56 | removes exactly that key |
| OrderRepositories.Select | src/infrastructure/repositories/mock-order.repository.ts:83-99 | keeps exactly the orders passing the filter |
| OrderRepositories.SelectAppend | src/infrastructure/repositories/mock-order.repository.ts:83-99 | filtering distributes over concatenation, so the results keep store order |
| OrderRepositories.MockOrderRepository.constructor | src/infrastructure/repositories/mock-order.repository.ts:12-16 | the store starts empty (the seeding call is commented out) |
| OrderRepositories.MockOrderRepository.FindById | src/infrastructure/repositories/mock-order.repository.ts:75-77 | the stored object itself, or none iff the id is absent |
| OrderRepositories.MockOrderRepository.FindAll | src/infrastructure/repositories/mock-order.repository.ts:79-81 | the stored orders in insertion order |
| OrderRepositories.MockOrderRepository.Find | src/infrastructure/repositories/mock-order.repository.ts:83-99 | exactly the stored orders passing the filter |
| OrderRepositories.MockOrderRepository.FindByStatus | src/infrastructure/repositories/mock-order.repository.ts:83-85 | exactly the stored orders with that status |
| OrderRepositories.MockOrderRepository.FindByTable | src/infrastructure/repositories/mock-order.repository.ts:87-89 | exactly the stored orders of that table |
| OrderRepositories.MockOrderRepository.FindByWaiter | src/infrastructure/repositories/mock-order.repository.ts:91-93 | exactly the stored orders of that waiter |
| OrderRepositories.MockOrderRepository.FindActive | src/infrastructure/repositories/mock-order.repository.ts:95-99 | exactly the stored orders neither DELIVERED nor CANCELLED |
| OrderRepositories.MockOrderRepository.Save | src/infrastructure/repositories/mock-order.repository.ts:101-104 | upserts the order under its id and returns it |
| OrderRepositories.MockOrderRepository.Update | src/infrastructure/repositories/mock-order.repository.ts:106-109 | the same upsert; putting back the stored object leaves the store as it was |
| OrderRepositories.MockOrderRepository.Delete | src/infrastructure/repositories/mock-order.repository.ts:111-113 | removes exactly that key |
| PaymentRepositories.FirstForOrder | src/infrastructure/repositories/mock-payment.repository.ts:11-13 | the first payment for that order, or none iff there is none |
| PaymentRepositories.MockPaymentRepository.constructor | src/infrastructure/repositories/mock-payment.repository.ts:5 | the store starts empty |
| PaymentRepositories.MockPaymentRepository.FindById | src/infrastructure/repositories/mock-payment.repository.ts:7-9 | the stored object itself, or none iff the id is absent |
| PaymentRepositories.MockPaymentRepository.FindByOrder | src/infrastructure/repositories/mock-payment.repository.ts:11-13 | a stored payment for that order, or none iff no stored payment is for it |
| PaymentRepositories.MockPaymentRepository.FindAll | src/infrastructure/repositories/mock-payment.repository.ts:15-17 | the stored payments in insertion order |
| PaymentRepositories.MockPaymentRepository.Save | src/infrastructure/repositories/mock-payment.repository.ts:19-22 | upserts the payment under its id and returns it |
| PaymentRepositories.MockPaymentRepository.Update | src/infrastructure/repositories/mock-payment.repository.ts:24-27 | the same upsert; putting back the stored object leaves the store as it was |
| MenuRepositories.SeedPricesValid | src/infrastructure/repositories/mock-menu.repository.ts:13-37 | the seed has 16 dishes, each with a non-negative price and a positive time |
| MenuRepositories.SeedItem | src/infrastructure/repositories/mock-menu.repository.ts:39-51 | a seeded item is available with no image and no ingredients, with the dish's name, description, price, category and time, updated at `now` |
| MenuRepositories.Select | src/infrastructure/repositories/mock-menu.repository.ts:62-68 | keeps exactly the items passing the filter |
| MenuRepositories.MockMenuItemRepository.constructor | src/infrastructure/repositories/mock-menu.repository.ts:8-10 | the store holds the sixteen seeded items under the given ids, in seed order |
| MenuRepositories.MockMenuItemRepository.SeedInitialItems | src/infrastructure/repositories/mock-menu.repository.ts:12-52 | dish `i` of the seed list is stored under the `i`-th fresh id in its seeded state |
| MenuRepositories.MockMenuItemRepository.SeedFrom | src/infrastructure/repositories/mock-menu.repository.ts:39-51 | the `forEach` loop stores each dish under its id, in order, as a fresh object |
| MenuRepositories.MockMenuItemRepository.FindById | src/infrastructure/repositories/mock-menu.repository.ts:54-56 | the stored object itself, or none iff the id is absent |
| MenuRepositories.MockMenuItemRepository.FindAll | src/infrastructure/repositories/mock-menu.repository.ts:58-60 | the stored items in insertion order |
| MenuRepositories.MockMenuItemRepository.Find | src/infrastructure/repositories/mock-menu.repository.ts:62-68 | exactly the stored items passing the filter |
| MenuRepositories.MockMenuItemRepository.FindAvailable | src/infrastructure/repositories/mock-menu.repository.ts:62-64 | exactly the stored items that are available |
| MenuRepositories.MockMenuItemRepository.FindByCategory | src/infrastructure/repositories/mock-menu.repository.ts:66-68 | exactly the stored items whose category has that string value |
| MenuRepositories.MockMenuItemRepository.Save | src/infrastructure/repositories/mock-menu.repository.ts:70-73 | upserts the item under its id and returns it |
| MenuRepositories.MockMenuItemRepository.Update | src/infrastructure/repositories/mock-menu.repository.ts:75-78 | the same upsert; putting back the stored object leaves the store as it was |
| MenuRepositories.MockMenuItemRepository.Delete | src/infrastructure/repositories/mock-menu.repository.ts:80-82 | removes exactly that key |
| Events.EventSink.constructor | src/infrastructure/websocket/service.ts:50-55 | the log starts empty |
| Events.EventSink.Emit | src/infrastructure/websocket/service.ts:50-55 | `emit` appends exactly one `(name, payload)` entry |
| OrderUseCases.RequestedLine | src/application/use-cases/order.use-cases.ts:25-35 | a request becomes a line with its id, menu item, name, quantity and price; missing notes become empty |
| OrderUseCases.RequestedLines | src/application/use-cases/order.use-cases.ts:25-35 | line `i` is request `i`'s line under id `i` |
| OrderUseCases.RequestError | src/application/use-cases/order.use-cases.ts:25-35 | the list is refused iff some request fails the line checks |
| OrderUseCases.RequestErrorAt | src/application/use-cases/order.use-cases.ts:25-35 | the error thrown is that of the first rejected request |
| OrderUseCases.BuildItems | src/application/use-cases/order.use-cases.ts:25-35 | the `map` fails with the first rejected request's error; otherwise fresh, distinct line objects whose values are the requested lines in request order |
| OrderUseCases.CreateOrder | src/application/use-cases/order.use-cases.ts:12-53 | an unknown table, a rejected line and an empty list fail before anything is saved or emitted; otherwise the CONFIRMED order with the requested lines, created at `now`, is saved; if the table is not AVAILABLE it fails with the order still saved, the table unchanged and no event; otherwise the table is OCCUPIED by the new order and `order:created` then `order:confirmed` are sent |
| OrderUseCases.NewConfirmedOrder | src/application/use-cases/order.use-cases.ts:24-40 | builds the lines and confirms, failing on a rejected line or an empty list; on success a fresh CONFIRMED order created at `now` |
| OrderUseCases.SaveAndOccupy | src/application/use-cases/order.use-cases.ts:42-52 | saves the order first, then occupies the table; unless it is AVAILABLE the failure leaves the order saved and no event |
| OrderUseCases.AnnounceCreated | src/application/use-cases/order.use-cases.ts:49-50 | appends `order:created` then `order:confirmed`, both carrying the saved order, and nothing else to the log |
| OrderUseCases.UpdateOrder | src/application/use-cases/order.use-cases.ts:62-100 | unknown id and a non-PENDING order fail unchanged; a rejected line fails with the order unchanged; otherwise a given item list replaces all lines, given notes replace the notes, `updatedAt` is untouched, and `order:updated` is sent |
| OrderUseCases.UpdateStored | src/application/use-cases/order.use-cases.ts:74-99 | the same, once the order is found |
| OrderUseCases.ApplyUpdates | src/application/use-cases/order.use-cases.ts:78-94 | the in-place item replacement and notes assignment, or the line error with nothing changed |
| OrderUseCases.AdvanceOrder | src/application/use-cases/order.use-cases.ts:109-160 | the stored order takes the step; on failure nothing is sent, on success the named event carries the new state |
| OrderUseCases.Apply | src/domain/entities/Order.ts:50-85 | runs the entity method of the step; outcome and state are those of `Advanced` |
| OrderUseCases.ConfirmOrder | src/application/use-cases/order.use-cases.ts:109-120 | unknown id fails; otherwise `Confirmed` is applied and `order:confirmed` sent on success |
| OrderUseCases.StartPreparingOrder | src/application/use-cases/order.use-cases.ts:129-140 | unknown id fails; otherwise `PreparingStarted` is applied and `order:preparing` sent on success |
| OrderUseCases.MarkOrderAsReady | src/application/use-cases/order.use-cases.ts:149-160 | unknown id fails; otherwise `MarkedReady` is applied and `order:ready` sent on success |
| OrderUseCases.DeliverOrder | src/application/use-cases/order.use-cases.ts:170-189 | unknown id or a refused delivery sends nothing, and a refused delivery leaves the table as it was; otherwise the order is DELIVERED and, if its table is stored, the table is freed to CLEANING and `table:freed` is sent before `order:delivered`; a missing table is not an error |
| OrderUseCases.AnnounceDelivery | src/application/use-cases/order.use-cases.ts:180-187 | frees the table if found, then the event pair or `order:delivered` alone |
| OrderUseCases.CancelOrder | src/application/use-cases/order.use-cases.ts:199-217 | unknown id or a DELIVERED order fails, and the refusal leaves the table as it was; otherwise the order is CANCELLED, its stored table is freed whatever order it holds, and only `order:cancelled` is sent |
| OrderUseCases.FreeIfPresent | src/application/use-cases/order.use-cases.ts:209-213 | frees the table the store returned, if any |
| OrderUseCases.GetActiveOrders | src/application/use-cases/order.use-cases.ts:223-225 | exactly the stored orders neither DELIVERED nor CANCELLED |
| TableUseCases.GetAllTables | src/application/use-cases/table.use-cases.ts:8-10 | every stored table in store order |
| TableUseCases.GetAvailableTables | src/application/use-cases/table.use-cases.ts:16-18 | exactly the stored AVAILABLE tables |
| TableUseCases.CreateTable | src/application/use-cases/table.use-cases.ts:27-40 | a taken number fails with nothing saved; otherwise a fresh AVAILABLE table without an order, with the given capacity unchecked and the location defaulting to `main`, is saved and `table:created` sent |
| TableUseCases.Reconfigured | src/application/use-cases/table.use-cases.ts:55-61 | a given capacity below 1 fails before the location is touched; otherwise capacity and location take the given values, and `updatedAt` moves only when a capacity was given |
| TableUseCases.ReconfiguredKeepsConsistency | src/application/use-cases/table.use-cases.ts:55-61 | an update keeps "an order id exactly while OCCUPIED", and the empty update changes nothing |
| TableUseCases.UpdateTable | src/application/use-cases/table.use-cases.ts:49-67 | unknown id fails; otherwise the stored table follows `Reconfigured`, and `table:updated` is sent on success |
| TableUseCases.FreeTable | src/application/use-cases/table.use-cases.ts:76-87 | unknown id fails; otherwise the table is freed from any state and `table:freed` sent |
| TableUseCases.MarkTableAsAvailable | src/application/use-cases/table.use-cases.ts:96-107 | unknown id fails; otherwise the table becomes AVAILABLE from any state and `table:available` is sent |
| TableUseCases.ReserveTable | src/application/use-cases/table.use-cases.ts:116-127 | unknown id fails; otherwise the AVAILABLE-only guard of `reserve` applies and `table:reserved` is sent on success |
| TableUseCases.DeleteTable | src/application/use-cases/table.use-cases.ts:136-149 | unknown id (not found) and an OCCUPIED table (a conflict) fail with nothing deleted; any other table (RESERVED and CLEANING included) is removed and `{id}` sent |
| PaymentUseCases.NewPaymentState | src/application/use-cases/payment.use-cases.ts:29 | a new payment is PENDING with nothing paid and no `paidAt`, so all of its amount is owed and it is settled |
| PaymentUseCases.CreatePayment | src/application/use-cases/payment.use-cases.ts:12-35 | a missing order, an order not DELIVERED, an existing payment for it and a negative amount each fail with nothing saved and nothing sent; otherwise a fresh PENDING payment for the caller's amount (not the order total) is saved and `payment:created` sent |
| PaymentUseCases.ProcessPayment | src/application/use-cases/payment.use-cases.ts:46-71 | unknown id and a part <= 0 fail; otherwise the payment follows `Processed` and is put back; when it is PAID the order's stored table (if order and table exist) is freed and `payment:completed` sent, else `payment:partial` is sent and the table is left as it was; a refused part leaves the table as it was too; no table event |
| PaymentUseCases.ProcessStored | src/application/use-cases/payment.use-cases.ts:52-70 | the same, once the payment is found |
| PaymentUseCases.RefundPayment | src/application/use-cases/payment.use-cases.ts:80-91 | unknown id fails; otherwise `Refunded` applies and `payment:refunded` is sent on success |
| PaymentUseCases.GetPaymentByOrder | src/application/use-cases/payment.use-cases.ts:97-99 | a stored payment for that order, or none iff none exists |
| MenuUseCases.GetAllMenuItems | src/application/use-cases/menu.use-cases.ts:8-10 | every stored item in store order |
| MenuUseCases.GetAvailableMenuItems | src/application/use-cases/menu.use-cases.ts:16-18 | exactly the stored available items |
| MenuUseCases.GetMenuItemsByCategory | src/application/use-cases/menu.use-cases.ts:24-26 | exactly the stored items of that category |
| MenuUseCases.CreatedItem | src/application/use-cases/menu.use-cases.ts:44-54 | the new item is available, has the given image exactly when it is truthy and none otherwise, never a zero time (15 unless a truthy time is given), takes the given name, description, price and category, and has no ingredients unless given |
| MenuUseCases.CreateMenuItem | src/application/use-cases/menu.use-cases.ts:35-60 | a negative price fails before anything is saved or sent; otherwise the fresh item is saved and `menuItem:created` sent |
| MenuUseCases.UpdateMenuItem | src/application/use-cases/menu.use-cases.ts:69-91 | unknown id fails; otherwise the stored item takes `Patched`, so a refused price leaves name and description written in the store with nothing sent; on success `menuItem:updated` is sent |
| MenuUseCases.ToggleMenuItemAvailability | src/application/use-cases/menu.use-cases.ts:100-111 | unknown id fails; otherwise availability flips and `menuItem:availabilityChanged` is sent |
| MenuUseCases.DeleteMenuItem | src/application/use-cases/menu.use-cases.ts:120-128 | unknown id fails; otherwise exactly that id is removed and `{id}` sent |

## Left out

- Time: each `new Date()` is the caller's `now`. Two `new Date()` calls in one method (as in `confirm` and `deliver`) are modelled as the same instant.
- `async`/`await`: each use-case is one sequential step, with no interleaving between use-cases.
- The websocket transport (socket.io connection, reconnection, listeners) is not modelled; only `emit` is, as appending to a log.
- Floating-point money is modelled as unbounded integers. Fractional prices, rounding and `NaN` are not modelled.
- The other JavaScript numbers are also whole numbers in the model: the line quantity (`OrderItem.quantity`), the table's number and capacity, and the dish's preparation time. The source would take `0.5` as a quantity (it only rejects `<= 0`), take `NaN` (since `NaN <= 0` is false), and take a capacity of `1.5` (while it rejects `0.5`). The model admits none of these values.
- `User`'s constructor defaults `isActive` to `true`. The model always passes it explicitly, so the default is not modelled.
- `Payment`'s constructor takes an optional `paidAt` argument. The model always starts it as null (`None`), as `CreatePaymentUseCase` does by not passing it.
- `CancelOrderUseCase.execute` defaults `reason` to `''`. `CancelOrder` always takes the reason explicitly, and the caller passes `""` for the default. `Order.Cancel` itself keeps the `""` default.
- `crypto.randomUUID()`: ids are parameters. Their freshness is the caller's concern, as it is the source's assumption. For the use-cases the model does not assume that a fresh id misses the store: `Put` overwrites an existing key as `Map.set` does. The menu seed (`MockMenuItemRepository.constructor`, `SeedInitialItems`, `SeedFrom`) does assume that its sixteen UUIDs are pairwise distinct.
- The use-case classes with injected repositories become methods. They take the repositories and the event sink as parameters.
- The `Order` constructor's optional status, notes and instant parameters are not modelled: the source's callers never pass them, so the model always uses the defaults.
- `MockOrderRepository.seedData` (mock-order.repository.ts:19-73) is never called, because the call is commented out; it is not part of this model.
- The `method` field of a payment is named `paymentMethod`, because `method` is a Dafny keyword.
- `findByCategory` takes the category's string value, as the repository's signature does; the use-case passes the enum's value.
- `updates` in `UpdateMenuItem` is the entity's full patch type. The use-case's declared type omits `isAvailable`, but the object is passed through unchanged, so the model allows it.
- Presentation, HTTP adapters, notifications, the auth store, schemas and the port interfaces are not part of this model. The port interfaces are used only as shapes.
