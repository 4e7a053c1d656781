# Domain events and order rows, modelled in Dafny

This project models two pieces of a small domain-driven e-commerce code base (customers, products and orders):

* **The domain event dispatcher** (`registry.dfy`, `dispatcher.dfy`). It maps an event-type name to an ordered list of handler instances. `register` appends a handler to the list for a name, creating the list if it is missing. `unregister` splices out the first occurrence of a handler, found by identity. If the name is absent or the handler is not listed, `unregister` does nothing, and it never deletes the key, even when the list becomes empty. `unregisterAll` drops every key. `notify(event)` calls `handle(event)` on every handler listed under the event's class name, in registration order.
  * `Registry` holds the value-level specification: the functions `Registered`, `Unregistered` and `Calls`, and the lemmas about them.
  * `EventDispatcher.Dispatcher` is the mutable dispatcher. Its field `eventHandlers` is what `getEventHandlers` exposes, and its ghost field `trace` records every `handle` call. `Register`, `Unregister` and `Notify` are proved against `Registered`, `Unregistered` and `Calls`. `UnregisterAll` and `GetEventHandlers` state their effect directly.
  * The methods `ShouldRegisterAnEventHandler` through `ShouldNotifyWhenCustomerChangesAddress` replay the dispatcher's test scenarios and state what each one observes.
* **The order repository's row mapping** (`order_repository.dfy`). This is the translation between an `Order` entity and the persisted order row with its nested item rows. The row literal is built in `create`, and `toOrder`, `toOrders`, `toOrderItem` and `toOrdersItems` rebuild entities from rows. The ORM table is an abstract map from order id to row. `findAll` is modelled by the listing of rows the table returns.

Handlers are Dafny objects, so the identity comparison of `indexOf` is reference equality. Two distinct instances of the same handler class are therefore different handlers. An event is its class name plus an opaque payload. The class name is the registry key: `CustomerCreatedEvent` is registered under `"CustomerCreatedEvent"`.

The dispatcher's implementation file is not part of this model. Its behaviour is fixed here by what its test suite asserts through `getEventHandlers` and the handler spies. Where the tests are silent, the model uses the usual implementation shape: create-then-push for `register`, and `indexOf` followed by `splice(index, 1)` for `unregister`.

## Model

| member | source | states |
|---|---|---|
| `Registry.Handler.constructor` | src/domain/customer/event/handler/notify-when-customer-change-address.handler.ts:5-9 | a handler instance is a fresh object; handler identity is object identity |
| `Registry.IndexOf` | src/domain/@shared/event/event-dispatcher.spec.ts:40-47 | the position unregister removes is -1 exactly when the handler is not listed; otherwise it holds the handler and no earlier position does |
| `Registry.RegisterOnEmpty` | src/domain/@shared/event/event-dispatcher.spec.ts:13-27 | after one register on a fresh registry, the key is defined, its list has length 1, and element 0 is the handler |
| `Registry.RegisterAppends` | src/domain/@shared/event/event-dispatcher.spec.ts:17-27 | register creates the key if absent, appends the handler at the end of its list, and leaves every other key unchanged |
| `Registry.RegisterInCallOrder` | src/domain/@shared/event/event-dispatcher.spec.ts:99-104 | registering A then B under one key yields the former list followed by [A, B] |
| `Registry.UnregisterMissingIsNoOp` | src/domain/@shared/event/event-dispatcher.spec.ts:40 | unregistering a handler that is not listed, or under an absent key, leaves the registry unchanged |
| `Registry.UnregisterRemovesFirst` | src/domain/@shared/event/event-dispatcher.spec.ts:40-47 | unregister keeps all keys, removes only the first occurrence of the handler (order of the rest kept, one copy fewer), and changes no other key |
| `Registry.RegisterThenUnregister` | src/domain/@shared/event/event-dispatcher.spec.ts:30-47 | register then unregister of a handler not yet listed restores the former list and leaves the key present |
| `Registry.RegisterThenUnregisterLeavesEmptyList` | src/domain/@shared/event/event-dispatcher.spec.ts:42-47 | register then unregister on a fresh key leaves the key defined with an empty list, not undefined |
| `Registry.RegisterThenUnregisterKeepsHandlers` | src/domain/@shared/event/event-dispatcher.spec.ts:34-47 | for any registry, register then unregister of the same handler keeps the key and the multiset of its handlers |
| `Registry.CallsExtend` | src/domain/@shared/event/event-dispatcher.spec.ts:85-87 | calling one more listed handler extends the calls made so far by exactly that handler's call |
| `Registry.NotifyCallsInRegistrationOrder` | src/domain/@shared/event/event-dispatcher.spec.ts:99-111 | notify makes one call per listed handler, in list order, each with the notified event |
| `Registry.CallsToCountsRegistrations` | src/domain/@shared/event/event-dispatcher.spec.ts:67-87 | notify calls each handler exactly as many times as it is listed (once, twice for a double registration, never if unlisted) |
| `Registry.NotifySkipsOtherTypes` | src/domain/@shared/event/event-dispatcher.spec.ts:114-133 | a handler not listed under the event's class name is never called by notify, whatever else it is registered under |
| `Registry.NotifyReachesRegistered` | src/domain/@shared/event/event-dispatcher.spec.ts:110-111 | every handler listed under the event's class name is called by notify |
| `EventDispatcher.Dispatcher.constructor` | src/domain/@shared/event/event-dispatcher.spec.ts:14 | a new dispatcher has no keys and has made no calls |
| `EventDispatcher.Dispatcher.GetEventHandlers` | src/domain/@shared/event/event-dispatcher.spec.ts:19-27 | the lookup is undefined exactly when the key is absent, and otherwise returns the stored list |
| `EventDispatcher.Dispatcher.Register` | src/domain/@shared/event/event-dispatcher.spec.ts:17 | the new registry is `Registered` of the old one; no handler is called |
| `EventDispatcher.Dispatcher.Unregister` | src/domain/@shared/event/event-dispatcher.spec.ts:40 | the new registry is `Unregistered` of the old one; no handler is called |
| `EventDispatcher.Dispatcher.UnregisterAll` | src/domain/@shared/event/event-dispatcher.spec.ts:60-64 | the registry has no keys afterwards; no handler is called |
| `EventDispatcher.Dispatcher.Notify` | src/domain/@shared/event/event-dispatcher.spec.ts:85-87 | the registry is unchanged, and the calls made are `Calls` of the list under the event's class name, appended to the trace in order |
| `EventDispatcher.ShouldRegisterAnEventHandler` | src/domain/@shared/event/event-dispatcher.spec.ts:13-28 | the test's lookup is defined, has length 1, and holds the registered handler |
| `EventDispatcher.ShouldUnregisterAnEventHandler` | src/domain/@shared/event/event-dispatcher.spec.ts:30-48 | element 0 is the handler before unregister; afterwards the lookup is defined with length 0 |
| `EventDispatcher.ShouldUnregisterAllEventHandlers` | src/domain/@shared/event/event-dispatcher.spec.ts:50-65 | after unregisterAll the lookup is undefined |
| `EventDispatcher.ShouldNotifyAllEventHandlers` | src/domain/@shared/event/event-dispatcher.spec.ts:67-88 | element 0 of the list is the registered handler, and notifying a ProductCreatedEvent calls it exactly once, with that event |
| `EventDispatcher.ShouldNotifyWhenCustomerIsCreated` | src/domain/@shared/event/event-dispatcher.spec.ts:90-112 | two distinct handlers are listed as [notify, sendEmail], and notify calls both in that order |
| `EventDispatcher.ShouldNotifyWhenCustomerChangesAddress` | src/domain/@shared/event/event-dispatcher.spec.ts:114-134 | the handler is the only one listed, and notifying the CustomerChangeAddressEvent calls it once with that event |
| `OrderRepository.ToItemModel` | src/infrastructure/order/repository/sequilize/order.repository.ts:14-20 | the `.map` callback: the item row carries the item's id, name, price and quantity, `product_id` = productId, and the order's id as `order_id` |
| `OrderRepository.ToItemModels` | src/infrastructure/order/repository/sequilize/order.repository.ts:14-20 | one item row per entity item, in the same order, carrying id, name, price, product_id = productId, quantity, and the order's id as order_id |
| `OrderRepository.ToModel` | src/infrastructure/order/repository/sequilize/order.repository.ts:9-20 | the row has id = entity.id, customer_id = entity.customerId, total = total(entity), and item rows in entity order |
| `OrderRepository.Create` | src/infrastructure/order/repository/sequilize/order.repository.ts:8-26 | within the abstract order table, create succeeds exactly when the order id is not yet stored; it then stores `ToModel` under that id and keeps every row under its own key |
| `OrderRepository.ToOrderItem` | src/infrastructure/order/repository/sequilize/order.repository.ts:51-53 | `new OrderItem(id, name, price, product_id, quantity)`; the item row for the rebuilt item under the row's own `order_id` is the original row, so only the foreign key is dropped |
| `OrderRepository.ToOrder` | src/infrastructure/order/repository/sequilize/order.repository.ts:42-45 | `new Order(id, customer_id, items)`: it keeps the row's id and customer id, and rebuilds one item per item row. The total column is not read back. When every item row carries the order's id, the row `create` would build for the rebuilt order, with the stored total, is the original row |
| `OrderRepository.ToOrdersItems` | src/infrastructure/order/repository/sequilize/order.repository.ts:55-57 | one entity item per item row, same count, same order |
| `OrderRepository.ToOrders` | src/infrastructure/order/repository/sequilize/order.repository.ts:47-49 | one entity per row, same count, same order |
| `OrderRepository.Find` | src/infrastructure/order/repository/sequilize/order.repository.ts:32-35 | find succeeds exactly when a row is stored under the id, with that row's id and customer id; otherwise it fails |
| `OrderRepository.FindAll` | src/infrastructure/order/repository/sequilize/order.repository.ts:37-40 | one order per listed row, in listing order, each with its row's id |
| `OrderRepository.FindById` | src/infrastructure/order/repository/sequilize/order.repository.spec.ts:167-168 | the test's `orders.find` returns nothing exactly when no order has the id; otherwise it returns the first order with that id |
| `OrderRepository.ItemRoundTrip` | src/infrastructure/order/repository/sequilize/order.repository.ts:51-53 | `toOrderItem` of the row built for an item gives back that item |
| `OrderRepository.ItemsRoundTrip` | src/infrastructure/order/repository/sequilize/order.repository.ts:55-57 | `toOrdersItems` of the item rows built for a list of items gives back the list |
| `OrderRepository.OrderRoundTrip` | src/infrastructure/order/repository/sequilize/order.repository.ts:42-45 | `toOrder` of the row built for an order gives back the order, whatever its total |
| `OrderRepository.FindAfterCreate` | src/infrastructure/order/repository/sequilize/order.repository.spec.ts:103-109 | on an unused id, create succeeds and find then yields an order equal to the original |
| `OrderRepository.CreateKeepsOthers` | src/infrastructure/order/repository/sequilize/order.repository.ts:8-26 | creating an order does not change what find returns for any other id |
| `OrderRepository.FindInListing` | src/infrastructure/order/repository/sequilize/order.repository.spec.ts:165-168 | in findAll's result, the first order with a stored id is that stored order as read back |
| `OrderRepository.FindAllAfterCreatingTwo` | src/infrastructure/order/repository/sequilize/order.repository.spec.ts:152-168 | after creating two orders with distinct ids, findAll contains each of them unchanged, found by id |
| `OrderRepository.Update` | src/infrastructure/order/repository/sequilize/order.repository.ts:28-30 | always `Failure(NotImplemented("Method not implemented."))`; the table is never changed |
| `OrderRepository.UpdateNeverReplaces` | src/infrastructure/order/repository/sequilize/order.repository.ts:28-30 | update fails with "Method not implemented." for every table and entity |
| `OrderRepository.UpdateScenarioAsWritten` | src/infrastructure/order/repository/sequilize/order.repository.spec.ts:112-139 | with the update test's data, update fails and find still yields the old order, which differs from the new one |
| `OrderRepository.UpdateIntended` | src/infrastructure/order/repository/sequilize/order.repository.spec.ts:132-139 | the intended update replaces the row of a stored id with the new entity's row. Its failure on an id with no row (`NoSuchOrder`) is a modelling choice; neither the repository nor its test shows that case |
| `OrderRepository.FindAfterUpdateIntended` | src/infrastructure/order/repository/sequilize/order.repository.spec.ts:136-139 | with the intended update, find after update(newOrder) yields newOrder |

## Left out

- Dispatcher implementation: the dispatcher's own source file is not part of this model. `register`, `unregister`, `unregisterAll`, `notify` and `getEventHandlers` follow what the test file asserts. They also follow the usual create-then-push and `indexOf`/`splice` shape.
- Registry keys: the registry is a plain JavaScript object read by bracket indexing. Names inherited from `Object.prototype`, such as `"toString"` or `"constructor"`, are not ordinary keys there: they are defined on a fresh dispatcher, and `register` under them would fail. The model treats every string as an ordinary key that starts absent.
- Aliasing and re-entrancy in `GetEventHandlers`, `Register`, `Unregister` and `Notify` are not modelled. The registry holds values, so the list `GetEventHandlers` returns is a snapshot. In the dispatcher it is the live array that `push` and `splice` change in place. Three consequences are therefore not captured: a list read before `unregister` would show the removal, a caller pushing into that list would change the registry, and a `handle` that unregisters during `notify` would make `forEach` skip the next handler. `Notify` iterates over the list as it was when the call began, and handlers cannot call back into the dispatcher.
- Handler bodies, such as the `console.log` of the address-change handler, are side-effecting I/O. A `handle` call is only recorded as an `Invocation` in the dispatcher's ghost trace.
- Handler exceptions: a fault in `handle` would abort the remaining calls of that `notify`. The model has no failing handlers, so this abort is not modelled.
- Jest spies are replaced by the ghost trace. `toMatchObject`/`toEqual` on a handler is modelled as identity with the registered instance.
- Event timestamps are not modelled, because `new Date()` is a clock read. The `any`-typed event payload is an opaque type parameter.
- Sequelize I/O: the sqlite setup and the async `OrderModel.create`/`findOne`/`findAll` calls are left out. The table is an abstract map from id to row.
  - A duplicate primary key on create is modelled as a `UniqueConstraint` failure.
  - `Create`: no other insert failure is modelled. The model does not cover foreign keys to the customer and product rows, an item id already used by another item row, or column validation. "Succeeds exactly when the id is not yet stored" is relative to the order-id key of the abstract table.
  - On `find`, a missing row gives a `NullModel` failure. It stands for the `TypeError` that `toOrder(null)` throws.
  - `findAll` takes the table's listing of rows as input, in whatever order the table lists them.
  - The item rows are assumed to come back in the order they were created.
- `order_id`: the key in each item row is not in the literal built in `create`. The ORM fills it in from the parent row through the nested `include` (checked at order.repository.spec.ts:78). `ToItemModel` sets it directly.
- `Order.total()` is not part of this model. It is a parameter `total: Order -> int` of `ToModel` and `Create`, and the round trips hold for every choice of it.
- Prices and quantities are `int`, not JavaScript floating-point numbers.
- The `Order` and `OrderItem` constructors: their validation is not part of this model. Rebuilding an entity from a row never fails here.
- The `Order` and `OrderItem` classes are modelled as plain records. Their accessors (`id`, `customerId`, `items`, `name`, `price`, `productId`, `quantity`) are assumed to return exactly the constructor's arguments. Any other field is assumed to be derived from those arguments. `ItemRoundTrip`, `ItemsRoundTrip`, `OrderRoundTrip`, `FindAfterCreate` and `FindAllAfterCreatingTwo` depend on this assumption.
- `toStrictEqual` is modelled as datatype equality.

## Findings

| source | as written | input that shows it | evidently intended | confidence | as-written member | corrected member |
|---|---|---|---|---|---|---|
| src/infrastructure/order/repository/sequilize/order.repository.ts:28-30 | `update` always throws "Method not implemented." | the update test at order.repository.spec.ts:112-139: order "123" with item "1", then `update` with order "123" and item "2" | replace the stored row of an existing order, so that `find` yields the new order | medium, not executed | `OrderRepository.UpdateScenarioAsWritten` | `OrderRepository.FindAfterUpdateIntended` |
