/**
 * The order controller (controllers/orderController.js): direct order intake with its
 * required-field check, the case-insensitive placeholder blocklist and the fixed
 * projection of the saved record; the two lookups; and the status update.
 */
module OrderController {
  import opened Wrappers
  import Json
  import JsString
  import Collections
  import OrderModel

  // ---------------------------------------------------------------------------
  // createOrder
  // ---------------------------------------------------------------------------

  const BlockedOrderIds: seq<string> := ["dummy_order", "test_order"]
  const BlockedPaymentIds: seq<string> := ["dummy_payment", "test_payment"]

  datatype CreateOrderOutcome =
    | MissingFields
    | TestDataRejected
    | OrderFailed
    | OrderCreated(order: OrderModel.Order)

  function CreateOrderStatus(r: CreateOrderOutcome): int {
    match r
    case MissingFields => 400
    case TestDataRejected => 400
    case OrderFailed => 500
    case OrderCreated(_) => 201
  }

  /** One element of `items.map(item => ({ name, quantity, price }))` once the schema has cast
      it: `None` when `item.name` throws (a null item) or a path fails (an absent quantity or
      price, a value of another type). An absent name becomes "", which the required check refuses. */
  function ProjectLine(item: Json.Value): (r: Option<OrderModel.OrderItem>)
    ensures item.Null? ==> r.None?
    ensures r.Some? ==>
      var name := Json.Get(item, "name");
      && (name.None? || name.value == Json.Str(r.value.name))
      && Json.Get(item, "quantity") == Some(Json.Num(r.value.quantity))
      && Json.Get(item, "price") == Some(Json.Num(r.value.price))
  {
    if item.Null? then None
    else
      var name := Json.Get(item, "name");
      var quantity := Json.Get(item, "quantity");
      var price := Json.Get(item, "price");
      if name.Some? && !name.value.Str? then None
      else if !(quantity.Some? && quantity.value.Num?) || !(price.Some? && price.value.Num?) then None
      else Some(OrderModel.OrderItem(if name.None? then "" else name.value.s, quantity.value.n, price.value.n))
  }

  /** The projected items, one per input item and in input order; `None` when one fails. */
  function ProjectLines(items: seq<Json.Value>): (r: Option<seq<OrderModel.OrderItem>>)
    ensures r.Some? <==> forall i :: 0 <= i < |items| ==> ProjectLine(items[i]).Some?
    ensures r.Some? ==> |r.value| == |items|
    ensures r.Some? ==> forall i :: 0 <= i < |items| ==> r.value[i] == ProjectLine(items[i]).value
  {
    if items == [] then Some([])
    else
      var head := ProjectLine(items[0]);
      var rest := ProjectLines(items[1..]);
      assert forall i :: 1 <= i < |items| ==> items[i] == items[1..][i - 1];
      if head.None? || rest.None? then None else Some([head.value] + rest.value)
  }

  /** An optional String path of a new document: undefined or null both leave it without a
      value (`None`), a string is kept, and any other value is outside what the model casts. */
  function OptionalString(v: Option<Json.Value>): (r: Option<Option<string>>)
    ensures Json.Nullish(v) ==> r == Some(None)
    ensures v.Some? && v.value.Str? ==> r == Some(Some(v.value.s))
    ensures r.None? <==> !Json.Nullish(v) && !v.value.Str?
  {
    if Json.Nullish(v) then Some(None)
    else if v.value.Str? then Some(Some(v.value.s))
    else None
  }

  /** The five fields whose falsiness gives the "Missing required fields" reply. */
  predicate RequiredPresent(body: Json.Value) {
    && Json.Truthy(Json.Get(body, "orderId")) && Json.Truthy(Json.Get(body, "paymentId"))
    && Json.Truthy(Json.Get(body, "total")) && Json.Truthy(Json.Get(body, "items"))
    && Json.Truthy(Json.Get(body, "customerName"))
  }

  /** The document built from the body: guest order (no customer id), status "processing",
      the projected items, and the payment time. `None` when building it throws or a path
      cannot be cast. */
  function OrderDocument(body: Json.Value, orderId: string, paymentId: string, now: nat,
                         newId: OrderModel.ObjectId): (r: Option<OrderModel.Order>)
    ensures r.Some? ==> r.value.orderId == orderId && r.value.paymentId == paymentId
    ensures r.Some? ==> r.value.customerId.None? && r.value.status == Some("processing")
    ensures r.Some? ==> r.value.id == newId && r.value.paymentDate == now && r.value.createdAt == now
    ensures r.Some? ==> Json.Get(body, "total") == Some(Json.Num(r.value.total))
    ensures r.Some? ==> Json.Get(body, "customerName") == Some(Json.Str(r.value.customerName))
    ensures r.Some? ==>
      && Json.Get(body, "items").Some? && Json.Get(body, "items").value.Arr?
      && Some(r.value.items) == ProjectLines(Json.Get(body, "items").value.elems)
  {
    var total := Json.Get(body, "total");
    var items := Json.Get(body, "items");
    var name := Json.Get(body, "customerName");
    var email := OptionalString(Json.Get(body, "customerEmail"));
    var phone := OptionalString(Json.Get(body, "customerPhone"));
    var address := OptionalString(Json.Get(body, "customerAddress"));
    var city := OptionalString(Json.Get(body, "customerCity"));
    var pincode := OptionalString(Json.Get(body, "customerPincode"));
    if !(items.Some? && items.value.Arr?) then None
    else
      var lines := ProjectLines(items.value.elems);
      if lines.None? || !(name.Some? && name.value.Str?) || !(total.Some? && total.value.Num?)
         || email.None? || phone.None? || address.None? || city.None? || pincode.None?
      then None
      else
        Some(OrderModel.Order(newId, None, name.value.s, email.value, phone.value, address.value,
                              city.value, pincode.value, orderId, paymentId, now, lines.value,
                              total.value.n, Some("processing"), now))
  }

  /** `createOrder`: the falsy check, the blocklist (each id lower-cased only when the check
      reaches it, so a non-string there throws), the document, and the save. */
  function CreateOrder(body: Json.Value, store: seq<OrderModel.Order>, now: nat, newId: OrderModel.ObjectId)
    : (r: (CreateOrderOutcome, seq<OrderModel.Order>))
  {
    var orderId := Json.Get(body, "orderId");
    var paymentId := Json.Get(body, "paymentId");
    if !RequiredPresent(body) then (MissingFields, store)
    else if !orderId.value.Str? then (OrderFailed, store)
    else if JsString.ToLower(orderId.value.s) in BlockedOrderIds then (TestDataRejected, store)
    else if !paymentId.value.Str? then (OrderFailed, store)
    else if JsString.ToLower(paymentId.value.s) in BlockedPaymentIds then (TestDataRejected, store)
    else
      var doc := OrderDocument(body, orderId.value.s, paymentId.value.s, now, newId);
      if doc.None? then (OrderFailed, store)
      else
        var saved := OrderModel.Save(store, doc.value);
        if saved.Saved? then (OrderCreated(doc.value), saved.store) else (OrderFailed, store)
  }

  /** 400 "Missing required fields" exactly when one of the five fields is falsy. */
  lemma MissingFieldsIff(body: Json.Value, store: seq<OrderModel.Order>, now: nat, newId: OrderModel.ObjectId)
    ensures CreateOrder(body, store, now, newId).0 == MissingFields <==> !RequiredPresent(body)
  {
  }

  /** The blocklist reply comes exactly when the fields are present and a lower-cased id is a
      placeholder; the payment id is looked at only when the order id passes. */
  lemma TestDataIff(body: Json.Value, store: seq<OrderModel.Order>, now: nat, newId: OrderModel.ObjectId)
    ensures CreateOrder(body, store, now, newId).0 == TestDataRejected <==>
      var orderId := Json.Get(body, "orderId");
      var paymentId := Json.Get(body, "paymentId");
      && RequiredPresent(body) && orderId.value.Str?
      && (JsString.ToLower(orderId.value.s) in BlockedOrderIds
          || (paymentId.value.Str? && JsString.ToLower(paymentId.value.s) in BlockedPaymentIds))
  {
  }

  /** The match is exact after lower-casing, so a mixed-case placeholder is still refused. */
  lemma MixedCaseIsBlocked(orderId: string)
    requires orderId == "Test_Order"
    ensures JsString.ToLower(orderId) in BlockedOrderIds
  {
    assert JsString.ToLower(orderId) == "test_order";
  }

  /** Only a successful save changes the collection, by appending the one document the reply
      carries, with the given ids, no customer, status "processing" and the projected items. */
  lemma CreateOrderWritesOnlyOnSuccess(body: Json.Value, store: seq<OrderModel.Order>, now: nat,
                                       newId: OrderModel.ObjectId)
    ensures var r := CreateOrder(body, store, now, newId);
      !r.0.OrderCreated? ==> r.1 == store
    ensures var r := CreateOrder(body, store, now, newId);
      r.0.OrderCreated? ==>
        && r.1 == store + [r.0.order]
        && Json.Get(body, "orderId") == Some(Json.Str(r.0.order.orderId))
        && Json.Get(body, "paymentId") == Some(Json.Str(r.0.order.paymentId))
        && r.0.order.customerId.None? && r.0.order.status == Some("processing")
        && Some(r.0.order.items) == ProjectLines(Json.Get(body, "items").value.elems)
        && OrderModel.ValidOrder(r.0.order) && !OrderModel.Clashes(store, r.0.order)
  {
  }

  /** No lookup by payment id precedes the save: the collection matters only through the unique
      `_id` and `orderId` indexes, so a collection that already holds an order with the same payment
      id accepts the new one, and the collection then holds two orders for one payment. */
  lemma PaymentIdNotChecked(body: Json.Value, s1: seq<OrderModel.Order>, s2: seq<OrderModel.Order>,
                            now: nat, newId: OrderModel.ObjectId, k: nat)
    requires CreateOrder(body, s1, now, newId).0.OrderCreated?
    requires !OrderModel.Clashes(s2, CreateOrder(body, s1, now, newId).0.order)
    requires k < |s2| && s2[k].paymentId == CreateOrder(body, s1, now, newId).0.order.paymentId
    ensures CreateOrder(body, s2, now, newId).0 == CreateOrder(body, s1, now, newId).0
    ensures var s := CreateOrder(body, s2, now, newId).1;
      |s| == |s2| + 1 && s[k].paymentId == s[|s2|].paymentId
  {
  }

  // ---------------------------------------------------------------------------
  // Lookups and the status update
  // ---------------------------------------------------------------------------

  datatype Lookup = OrderNotFound | OrderFound(order: OrderModel.Order)

  /** `getOrderById`: `findOne({ orderId })`, 404 when nothing matches. */
  function GetOrderById(store: seq<OrderModel.Order>, orderId: string): (r: Lookup)
    ensures r.OrderNotFound? <==> forall i :: 0 <= i < |store| ==> store[i].orderId != orderId
    ensures r.OrderFound? ==> r.order in store && r.order.orderId == orderId
  {
    var o := OrderModel.FindByOrderId(store, orderId);
    if o.None? then OrderNotFound else OrderFound(o.value)
  }

  /** Under the unique index on `orderId`, the lookup returns the one order with that id. */
  lemma GetOrderByIdUnique(store: seq<OrderModel.Order>, orderId: string, i: nat)
    requires OrderModel.UniqueKeys(store)
    requires i < |store| && store[i].orderId == orderId
    ensures GetOrderById(store, orderId) == OrderFound(store[i])
  {
    OrderModel.FindByOrderIdIsTheOnly(store, orderId, i);
  }

  /** `getOrderByPaymentId`: the first order with that payment id, 404 when there is none.
      Payment ids are not unique, so earlier orders win. */
  function GetOrderByPaymentId(store: seq<OrderModel.Order>, paymentId: string): (r: Lookup)
    ensures r.OrderNotFound? <==> forall i :: 0 <= i < |store| ==> store[i].paymentId != paymentId
    ensures r.OrderFound? ==>
      exists i :: 0 <= i < |store| && store[i] == r.order && r.order.paymentId == paymentId
        && forall j :: 0 <= j < i ==> store[j].paymentId != paymentId
  {
    var i := Collections.FirstIndex(store, OrderModel.HasPaymentId(paymentId));
    if i.None? then OrderNotFound
    else
      assert OrderModel.HasPaymentId(paymentId)(store[i.value]);
      OrderFound(store[i.value])
  }

  /** `getAllOrders`: every order, newest first. */
  function GetAllOrders(store: seq<OrderModel.Order>): (r: seq<OrderModel.Order>)
    ensures multiset(r) == multiset(store)
    ensures forall i, j :: 0 <= i < j < |r| ==> r[i].createdAt >= r[j].createdAt
  {
    Collections.SortNewestFirst(store, CreatedAtKey)
  }

  function CreatedAtKey(o: OrderModel.Order): int {
    o.createdAt
  }

  datatype StatusOutcome = StatusFailed | StatusOrderNotFound | StatusChanged(order: OrderModel.Order)

  function StatusCode(r: StatusOutcome): int {
    match r
    case StatusFailed => 500
    case StatusOrderNotFound => 404
    case StatusChanged(_) => 200
  }

  /** The update's `status`: undefined is dropped from `{ status }`, null and strings are
      set, and any other value is outside what the model casts (`None`). */
  function StatusChangeOf(v: Option<Json.Value>): (r: Option<OrderModel.StatusChange>)
    ensures v.None? <==> r == Some(OrderModel.KeepStatus)
    ensures v == Some(Json.Null) <==> r == Some(OrderModel.SetStatus(None))
    ensures forall t :: v == Some(Json.Str(t)) <==> r == Some(OrderModel.SetStatus(Some(t)))
    ensures r.None? <==> v.Some? && !v.value.Null? && !v.value.Str?
  {
    if v.None? then Some(OrderModel.KeepStatus)
    else if v.value.Null? then Some(OrderModel.SetStatus(None))
    else if v.value.Str? then Some(OrderModel.SetStatus(Some(v.value.s)))
    else None
  }

  /** `updateOrderStatus`: the path id cast to an ObjectId (`None` when the cast fails, a 500),
      the body's `status` passed to `findByIdAndUpdate`, and 404 when no order has the id. */
  function UpdateOrderStatus(store: seq<OrderModel.Order>, id: Option<OrderModel.ObjectId>, body: Json.Value)
    : (r: (StatusOutcome, seq<OrderModel.Order>))
    ensures !r.0.StatusChanged? ==> r.1 == store
    ensures r.0.StatusFailed? <==> id.None? || StatusChangeOf(Json.Get(body, "status")).None?
    ensures (&& id.Some? && StatusChangeOf(Json.Get(body, "status")).Some?
             && forall i :: 0 <= i < |store| ==> store[i].id != id.value)
            <==> r.0 == StatusOrderNotFound
    ensures r.0.StatusChanged? ==>
      && id.Some? && |r.1| == |store|
      && (forall j :: 0 <= j < |store| ==> r.1[j].(status := store[j].status) == store[j])
      && (forall j :: 0 <= j < |store| && store[j].id != id.value ==> r.1[j] == store[j])
      && r.0.order in r.1 && r.0.order.id == id.value
    ensures r.0.StatusChanged? ==>
      var k := OrderModel.IndexOfId(store, id.value).value;
      && r.1[k] == r.0.order
      && (forall t :: Json.Get(body, "status") == Some(Json.Str(t)) ==> r.0.order.status == Some(t))
      && (Json.Get(body, "status") == Some(Json.Null) ==> r.0.order.status.None?)
      && (Json.Get(body, "status").None? ==> r.0.order == store[k])
  {
    var change := StatusChangeOf(Json.Get(body, "status"));
    if id.None? || change.None? then (StatusFailed, store)
    else
      var u := OrderModel.UpdateStatus(store, id.value, change.value);
      if u.NoSuchOrder? then (StatusOrderNotFound, store)
      else (StatusChanged(u.order), u.store)
  }

  /** A null status is stored as null, and the order then fails the status enum. */
  lemma NullStatusIsStored(store: seq<OrderModel.Order>, id: OrderModel.ObjectId, k: nat)
    requires k < |store| && store[k].id == id
    ensures var r := UpdateOrderStatus(store, Some(id), Json.Obj(map["status" := Json.Null]));
      r.0.StatusChanged? && r.0.order.status.None? && !OrderModel.ValidOrder(r.0.order)
  {
    var body := Json.Obj(map["status" := Json.Null]);
    assert Json.Get(body, "status") == Some(Json.Null);
  }

  /** A status string outside the enum is accepted and stored. */
  lemma StatusOutsideEnumIsStored(store: seq<OrderModel.Order>, id: OrderModel.ObjectId, s: string, k: nat)
    requires s !in OrderModel.Statuses
    requires k < |store| && store[k].id == id
    ensures var r := UpdateOrderStatus(store, Some(id), Json.Obj(map["status" := Json.Str(s)]));
      r.0.StatusChanged? && r.0.order.status == Some(s) && !OrderModel.ValidOrder(r.0.order)
  {
    var body := Json.Obj(map["status" := Json.Str(s)]);
    assert Json.Get(body, "status") == Some(Json.Str(s));
    OrderModel.UpdateStatusCanLeaveEnum(store, id, s);
  }
}
