/**
 * The Order schema (models/Order.js): the stored record, its required fields,
 * the status enum with its default, and the unique index on `orderId`, together
 * with what saving a new document does to the order collection.
 */
module OrderModel {
  import opened Wrappers
  import Collections

  /** A document `_id`. */
  type ObjectId = nat

  /** The values the `status` enum admits. "completed" is not one of them. */
  const Statuses: seq<string> := ["pending", "processing", "shipped", "delivered", "cancelled"]

  /** The status a document gets when none is given. */
  const DefaultStatus: string := "pending"

  /** One line item: the schema keeps only these three fields of an item. */
  datatype OrderItem = OrderItem(name: string, quantity: real, price: real)

  /** A stored order. The schema has no `paymentStatus` or gateway order id field, so a
      document built with those keeps neither. */
  datatype Order = Order(
    id: ObjectId,
    customerId: Option<ObjectId>,
    customerName: string,
    customerEmail: Option<string>,
    customerPhone: Option<string>,
    customerAddress: Option<string>,
    customerCity: Option<string>,
    customerPincode: Option<string>,
    orderId: string,
    paymentId: string,
    paymentDate: nat,
    items: seq<OrderItem>,
    total: real,
    status: Option<string>,
    createdAt: nat)

  /** A required String path accepts only a non-empty string. */
  predicate RequiredString(s: string) {
    s != ""
  }

  /** The validators that run when a document is saved: the required strings
      (`customerName`, `orderId`, `paymentId`, every item's `name`; the numbers are
      present by construction) and the status enum, which a null status is no member of. */
  predicate ValidOrder(o: Order) {
    && RequiredString(o.customerName)
    && RequiredString(o.orderId)
    && RequiredString(o.paymentId)
    && (forall i :: 0 <= i < |o.items| ==> RequiredString(o.items[i].name))
    && o.status.Some? && o.status.value in Statuses
  }

  /** The unique indexes of the collection: `_id` and `orderId`. `paymentId` has none. */
  predicate UniqueKeys(store: seq<Order>) {
    forall i, j :: 0 <= i < j < |store| ==> store[i].id != store[j].id && store[i].orderId != store[j].orderId
  }

  /** A new document clashes with the store on one of the unique indexes. */
  predicate Clashes(store: seq<Order>, o: Order) {
    exists i :: 0 <= i < |store| && (store[i].id == o.id || store[i].orderId == o.orderId)
  }

  datatype SaveOutcome = Saved(store: seq<Order>) | ValidationFailed | DuplicateKey

  /** `new Order(data).save()`: validation first, then the insert, which the unique
      indexes refuse on a clash. Exactly one document is added, and only on success. */
  function Save(store: seq<Order>, o: Order): (r: SaveOutcome)
    ensures r.Saved? <==> ValidOrder(o) && !Clashes(store, o)
    ensures r.Saved? ==> r.store == store + [o]
    ensures r.ValidationFailed? <==> !ValidOrder(o)
  {
    if !ValidOrder(o) then ValidationFailed
    else if Clashes(store, o) then DuplicateKey
    else Saved(store + [o])
  }

  /** Saving keeps every unique index unique. */
  lemma SaveKeepsKeysUnique(store: seq<Order>, o: Order)
    requires UniqueKeys(store)
    requires Save(store, o).Saved?
    ensures UniqueKeys(Save(store, o).store)
  {
    var s := store + [o];
    forall i, j | 0 <= i < j < |s| ensures s[i].id != s[j].id && s[i].orderId != s[j].orderId {
      if j == |store| {
        assert !(store[i].id == o.id || store[i].orderId == o.orderId);
      }
    }
  }

  /** Every document that a save let in carries an enum status; only the update handlers,
      which bypass the validators, can store anything else. */
  predicate AllValid(store: seq<Order>) {
    forall i :: 0 <= i < |store| ==> ValidOrder(store[i])
  }

  lemma SaveKeepsAllValid(store: seq<Order>, o: Order)
    requires AllValid(store)
    requires Save(store, o).Saved?
    ensures AllValid(Save(store, o).store)
  {
    var s := store + [o];
    assert forall i :: 0 <= i < |store| ==> s[i] == store[i];
  }

  /** The status value "completed" that a gateway-verified order reports is outside the enum,
      so a document carrying it would fail validation. */
  lemma CompletedIsNotAStatus()
    ensures "completed" !in Statuses && DefaultStatus in Statuses
  {
  }

  function HasOrderId(orderId: string): Order -> bool {
    (o: Order) => o.orderId == orderId
  }

  function HasPaymentId(paymentId: string): Order -> bool {
    (o: Order) => o.paymentId == paymentId
  }

  function HasId(id: ObjectId): Order -> bool {
    (o: Order) => o.id == id
  }

  /** `Order.findOne({ paymentId })`: the first such document in store order. */
  function FindByPaymentId(store: seq<Order>, paymentId: string): (r: Option<Order>)
    ensures r.Some? ==> r.value in store && r.value.paymentId == paymentId
    ensures r.None? <==> forall i :: 0 <= i < |store| ==> store[i].paymentId != paymentId
  {
    Collections.First(store, HasPaymentId(paymentId))
  }

  /** `Order.findOne({ orderId })`: with `orderId` unique there is at most one. */
  function FindByOrderId(store: seq<Order>, orderId: string): (r: Option<Order>)
    ensures r.Some? ==> r.value in store && r.value.orderId == orderId
    ensures r.None? <==> forall i :: 0 <= i < |store| ==> store[i].orderId != orderId
  {
    Collections.First(store, HasOrderId(orderId))
  }

  /** Under the unique index, the document `findOne({ orderId })` returns is the only one. */
  lemma FindByOrderIdIsTheOnly(store: seq<Order>, orderId: string, i: nat)
    requires UniqueKeys(store)
    requires i < |store| && store[i].orderId == orderId
    ensures FindByOrderId(store, orderId) == Some(store[i])
  {
    var r := FindByOrderId(store, orderId);
    var k :| 0 <= k < |store| && store[k] == r.value;
    assert k == i by {
      if k < i {
      } else if i < k {
      }
    }
  }

  /** Position of the document with this `_id`, if any (`findById`). */
  function IndexOfId(store: seq<Order>, id: ObjectId): (r: Option<nat>)
    ensures r.Some? ==> r.value < |store| && store[r.value].id == id
    ensures r.None? <==> forall i :: 0 <= i < |store| ==> store[i].id != id
  {
    Collections.FirstIndex(store, HasId(id))
  }

  datatype UpdateOutcome = NoSuchOrder | StatusUpdated(order: Order, store: seq<Order>)

  /** The `status` of the update `{ status }`: an undefined one is dropped and leaves the
      stored status, anything else is `$set`, null included. */
  datatype StatusChange = KeepStatus | SetStatus(status: Option<string>)

  /** The status a document has after the change. */
  function Changed(current: Option<string>, change: StatusChange): Option<string> {
    if change.KeepStatus? then current else change.status
  }

  /** `Order.findByIdAndUpdate(id, { status }, { new: true })`. No validators run on this
      update, so any string, and null, is stored. The updated document is returned. */
  function UpdateStatus(store: seq<Order>, id: ObjectId, change: StatusChange): (r: UpdateOutcome)
    ensures r.NoSuchOrder? <==> forall i :: 0 <= i < |store| ==> store[i].id != id
    ensures r.StatusUpdated? ==>
      var i := IndexOfId(store, id).value;
      && r.order == store[i].(status := Changed(store[i].status, change))
      && r.store == store[i := r.order]
  {
    var i := IndexOfId(store, id);
    if i.None? then NoSuchOrder
    else
      var o := store[i.value].(status := Changed(store[i.value].status, change));
      StatusUpdated(o, store[i.value := o])
  }

  /** A status update changes one document and in it only the status, so the unique keys stay
      unique and the collection keeps its size. */
  lemma UpdateStatusKeepsKeys(store: seq<Order>, id: ObjectId, change: StatusChange)
    requires UniqueKeys(store)
    ensures var r := UpdateStatus(store, id, change);
      r.StatusUpdated? ==>
        && UniqueKeys(r.store) && |r.store| == |store|
        && forall j :: 0 <= j < |store| ==> r.store[j].(status := store[j].status) == store[j]
  {
  }

  /** Because the update skips validation, a status outside the enum is stored as given and the
      document no longer passes the validators. */
  lemma UpdateStatusCanLeaveEnum(store: seq<Order>, id: ObjectId, s: string)
    requires s !in Statuses
    requires exists i :: 0 <= i < |store| && store[i].id == id
    ensures UpdateStatus(store, id, SetStatus(Some(s))).StatusUpdated?
    ensures UpdateStatus(store, id, SetStatus(Some(s))).order.status == Some(s)
    ensures !ValidOrder(UpdateStatus(store, id, SetStatus(Some(s))).order)
  {
  }
}
