/**
 * The order repository's translation between the `Order` entity and the
 * persisted order row with its nested item rows.  The ORM table is an
 * abstract map from order id to row; `Order.total()` is a parameter, since
 * its definition is not part of this model.
 */
module OrderRepository {
  import opened Wrappers

  datatype OrderItem = OrderItem(id: string, name: string, price: int, productId: string, quantity: int)

  datatype Order = Order(id: string, customerId: string, items: seq<OrderItem>)

  /** A row of the order item table; `order_id` is the foreign key the ORM
      fills in from the parent row when the items are created nested in it. */
  datatype OrderItemModel = OrderItemModel(
    id: string, name: string, price: int, product_id: string, quantity: int, order_id: string)

  /** A row of the order table with its item rows (`include: ["items"]`). */
  datatype OrderModel = OrderModel(id: string, customer_id: string, total: int, items: seq<OrderItemModel>)

  /** The order table, keyed by primary key. */
  type Store = map<string, OrderModel>

  /** Every row is stored under its own primary key. */
  ghost predicate Keyed(store: Store)
  {
    forall id :: id in store ==> store[id].id == id
  }

  datatype RepositoryError =
    | UniqueConstraint(id: string)     // a row with that primary key exists
    | NullModel                        // `findOne` found nothing and `toOrder(null)` throws
    | NotImplemented(message: string)  // `update` throws
    | NoSuchOrder(id: string)          // the intended update, given an id with no row

  datatype Result<T> = Success(value: T) | Failure(error: RepositoryError)

  // -------------------------------------------------------------------------
  // Entity to row (create)

  /** One item row, from one entity item of order `orderId`. */
  function ToItemModel(orderId: string, item: OrderItem): (model: OrderItemModel)
    ensures model.id == item.id && model.name == item.name && model.price == item.price
    ensures model.product_id == item.productId && model.quantity == item.quantity
    ensures model.order_id == orderId
  {
    OrderItemModel(item.id, item.name, item.price, item.productId, item.quantity, orderId)
  }

  /** `entity.items.map(...)`: one item row per item, in the same order, each
      carrying the item's fields and the order's id as foreign key. */
  function ToItemModels(orderId: string, items: seq<OrderItem>): (models: seq<OrderItemModel>)
    ensures |models| == |items|
    ensures forall i :: 0 <= i < |items| ==>
      && models[i].id == items[i].id
      && models[i].name == items[i].name
      && models[i].price == items[i].price
      && models[i].product_id == items[i].productId
      && models[i].quantity == items[i].quantity
      && models[i].order_id == orderId
  {
    if items == [] then [] else [ToItemModel(orderId, items[0])] + ToItemModels(orderId, items[1..])
  }

  /** The row `create` persists for `entity`. */
  function ToModel(entity: Order, total: Order -> int): (model: OrderModel)
    ensures model.id == entity.id
    ensures model.customer_id == entity.customerId
    ensures model.total == total(entity)
    ensures |model.items| == |entity.items|
    ensures forall i :: 0 <= i < |entity.items| ==>
      model.items[i] == ToItemModel(entity.id, entity.items[i])
  {
    OrderModel(entity.id, entity.customerId, total(entity), ToItemModels(entity.id, entity.items))
  }

  /** `create(entity)`: inserts the row; a second row with the same primary
      key is refused by the table. */
  function Create(store: Store, entity: Order, total: Order -> int): (r: Result<Store>)
    ensures r.Success? <==> entity.id !in store
    ensures r.Success? ==> r.value == store[entity.id := ToModel(entity, total)]
    ensures r.Failure? ==> r.error == UniqueConstraint(entity.id)
    ensures r.Success? && Keyed(store) ==> Keyed(r.value)
  {
    if entity.id in store then Failure(UniqueConstraint(entity.id))
    else Success(store[entity.id := ToModel(entity, total)])
  }

  /** `update(entity)` throws, whatever the entity and the table. */
  function Update(store: Store, entity: Order): (r: Result<Store>)
    ensures r.Failure? && r.error == NotImplemented("Method not implemented.")
  {
    Failure(NotImplemented("Method not implemented."))
  }

  // -------------------------------------------------------------------------
  // Row to entity (find, findAll)

  /** `toOrderItem`: the entity item a row stands for; the foreign key is dropped. */
  function ToOrderItem(model: OrderItemModel): (item: OrderItem)
    ensures ToItemModel(model.order_id, item) == model
  {
    OrderItem(model.id, model.name, model.price, model.product_id, model.quantity)
  }

  /** `toOrdersItems`: one entity item per row, in row order. */
  function ToOrdersItems(models: seq<OrderItemModel>): (items: seq<OrderItem>)
    ensures |items| == |models|
    ensures forall i :: 0 <= i < |models| ==> items[i] == ToOrderItem(models[i])
  {
    if models == [] then [] else [ToOrderItem(models[0])] + ToOrdersItems(models[1..])
  }

  /** `toOrder`: the entity a row stands for; its total column is not read back. */
  function ToOrder(model: OrderModel): (order: Order)
    ensures order.id == model.id && order.customerId == model.customer_id
    ensures |order.items| == |model.items|
    ensures forall i :: 0 <= i < |model.items| ==>
      ToItemModel(model.items[i].order_id, order.items[i]) == model.items[i]
    ensures (forall i :: 0 <= i < |model.items| ==> model.items[i].order_id == model.id) ==>
      ToModel(order, o => model.total) == model
  {
    Order(model.id, model.customer_id, ToOrdersItems(model.items))
  }

  /** `toOrders`: one entity per row, same count, same order. */
  function ToOrders(models: seq<OrderModel>): (orders: seq<Order>)
    ensures |orders| == |models|
    ensures forall i :: 0 <= i < |models| ==> orders[i] == ToOrder(models[i])
  {
    if models == [] then [] else [ToOrder(models[0])] + ToOrders(models[1..])
  }

  /** `find(id)`: the entity stored under `id`; a missing row makes `toOrder`
      dereference null, which throws. */
  function Find(store: Store, id: string): (r: Result<Order>)
    ensures r.Success? <==> id in store
    ensures r.Success? ==> r.value.id == store[id].id && r.value.customerId == store[id].customer_id
    ensures r.Failure? ==> r.error == NullModel
  {
    if id in store then Success(ToOrder(store[id])) else Failure(NullModel)
  }

  /** `rows` is a listing of the whole table, as `findAll` returns it: every
      row is the stored row for its id, and every stored row is listed. */
  ghost predicate Lists(rows: seq<OrderModel>, store: Store)
  {
    && (forall i :: 0 <= i < |rows| ==> rows[i].id in store && store[rows[i].id] == rows[i])
    && (forall id :: id in store ==> exists i :: 0 <= i < |rows| && rows[i] == store[id])
  }

  /** `findAll()`, given the rows the table lists (in the table's order). */
  function FindAll(rows: seq<OrderModel>): (orders: seq<Order>)
    ensures |orders| == |rows|
    ensures forall i :: 0 <= i < |rows| ==> orders[i].id == rows[i].id
  {
    ToOrders(rows)
  }

  /** `Array.prototype.find(o => o.id === id)`: the first order with that id. */
  function FindById(orders: seq<Order>, id: string): (r: Option<Order>)
    ensures r.None? <==> forall i :: 0 <= i < |orders| ==> orders[i].id != id
    ensures r.Some? ==> exists i :: 0 <= i < |orders| && orders[i] == r.value
                           && r.value.id == id
                           && forall j :: 0 <= j < i ==> orders[j].id != id
  {
    if orders == [] then None
    else if orders[0].id == id then Some(orders[0])
    else
      var r := FindById(orders[1..], id);
      assert r.Some? ==> r.value in orders[1..];
      r
  }

  // -------------------------------------------------------------------------
  // Round trips

  /** Reading back an item row gives back the item. */
  lemma ItemRoundTrip(orderId: string, item: OrderItem)
    ensures ToOrderItem(ToItemModel(orderId, item)) == item
  {
  }

  /** Reading back the item rows gives back the items, in order. */
  lemma ItemsRoundTrip(orderId: string, items: seq<OrderItem>)
    ensures ToOrdersItems(ToItemModels(orderId, items)) == items
  {
  }

  /** Reading back the row of an order gives back that order, whatever its total. */
  lemma OrderRoundTrip(entity: Order, total: Order -> int)
    ensures ToOrder(ToModel(entity, total)) == entity
  {
    ItemsRoundTrip(entity.id, entity.items);
  }

  /** `find(order.id)` after a successful `create(order)` yields the order. */
  lemma FindAfterCreate(store: Store, entity: Order, total: Order -> int)
    requires entity.id !in store
    ensures Create(store, entity, total).Success?
    ensures Find(Create(store, entity, total).value, entity.id) == Success(entity)
  {
    OrderRoundTrip(entity, total);
  }

  /** Creating another order does not change what `find` returns for an
      order created before. */
  lemma CreateKeepsOthers(store: Store, entity: Order, total: Order -> int, id: string)
    requires entity.id !in store && id != entity.id
    ensures Find(Create(store, entity, total).value, id) == Find(store, id)
  {
  }

  /** In a listing of the table, the first order whose id is that of a stored
      order is that order as read back. */
  lemma FindInListing(rows: seq<OrderModel>, store: Store, id: string)
    requires Keyed(store) && Lists(rows, store) && id in store
    ensures FindById(FindAll(rows), id) == Some(ToOrder(store[id]))
  {
    var orders := FindAll(rows);
    var k :| 0 <= k < |rows| && rows[k] == store[id];
    assert orders[k].id == id;
    var r := FindById(orders, id);
    var i :| 0 <= i < |orders| && orders[i] == r.value && r.value.id == id;
    assert rows[i].id == id;
  }

  /** `findAll` after creating two orders on an empty table: looking each one
      up by id in the result gives that order unchanged. */
  lemma FindAllAfterCreatingTwo(order1: Order, order2: Order, total: Order -> int, rows: seq<OrderModel>)
    requires order1.id != order2.id
    ensures Create(map[], order1, total).Success?
    ensures Create(Create(map[], order1, total).value, order2, total).Success?
    ensures Lists(rows, Create(Create(map[], order1, total).value, order2, total).value) ==>
      FindById(FindAll(rows), order1.id) == Some(order1)
      && FindById(FindAll(rows), order2.id) == Some(order2)
  {
    var store := Create(Create(map[], order1, total).value, order2, total).value;
    if Lists(rows, store) {
      FindInListing(rows, store, order1.id);
      FindInListing(rows, store, order2.id);
      OrderRoundTrip(order1, total);
      OrderRoundTrip(order2, total);
    }
  }

  // -------------------------------------------------------------------------
  // update

  /** As written, `update` fails with "Method not implemented." whatever the
      table and the entity, so the update scenario of the repository's test
      suite cannot succeed: the stored order is never replaced. */
  lemma UpdateNeverReplaces(store: Store, newOrder: Order)
    ensures Update(store, newOrder) == Failure(NotImplemented("Method not implemented."))
  {
  }

  /** The update test's own data: order "123" with item "1" is created, then
      replaced by order "123" with item "2".  As written the update fails and
      `find("123")` still yields the first order, which is not the new one. */
  lemma {:induction false} UpdateScenarioAsWritten(total: Order -> int)
    ensures var order := Order("123", "c1", [OrderItem("1", "Product 1", 10, "123", 1)]);
      var newOrder := Order("123", "c1", [OrderItem("2", "Product 2", 20, "456", 2)]);
      var store := Create(map[], order, total).value;
      && Update(store, newOrder).Failure?
      && Find(store, newOrder.id) == Success(order)
      && order != newOrder
  {
    var order := Order("123", "c1", [OrderItem("1", "Product 1", 10, "123", 1)]);
    FindAfterCreate(map[], order, total);
  }

  /** The behaviour the update test expects: the row of an existing order is
      replaced by the row of the new entity. */
  function UpdateIntended(store: Store, entity: Order, total: Order -> int): (r: Result<Store>)
    ensures r.Success? <==> entity.id in store
    ensures r.Success? ==> r.value == store[entity.id := ToModel(entity, total)]
    ensures r.Failure? ==> r.error == NoSuchOrder(entity.id)
  {
    if entity.id in store then Success(store[entity.id := ToModel(entity, total)]) else Failure(NoSuchOrder(entity.id))
  }

  /** With the intended update, `find` after `update(newOrder)` yields newOrder. */
  lemma FindAfterUpdateIntended(store: Store, newOrder: Order, total: Order -> int)
    requires newOrder.id in store
    ensures UpdateIntended(store, newOrder, total).Success?
    ensures Find(UpdateIntended(store, newOrder, total).value, newOrder.id) == Success(newOrder)
  {
    OrderRoundTrip(newOrder, total);
  }
}
