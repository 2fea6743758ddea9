/**
 * The dashboard controller (controllers/dashboardController.js): the statistics over the
 * user, order and product collections, the customer listing, the order listing and the
 * status update.
 */
module DashboardController {
  import opened Wrappers
  import Json
  import Collections
  import OrderModel
  import UserModel
  import OrderController

  datatype Stats = Stats(totalCustomers: nat, totalOrders: nat, totalRevenue: real, pendingOrders: nat, totalProducts: nat)

  predicate IsCustomer(u: UserModel.User) {
    u.role == UserModel.Customer
  }

  predicate IsAdmin(u: UserModel.User) {
    u.role == UserModel.Admin
  }

  predicate IsPending(o: OrderModel.Order) {
    o.status == Some("pending")
  }

  function OrderTotal(o: OrderModel.Order): real {
    o.total
  }

  /** The `$group` sum of `total`, or 0 when the aggregate yields no group (no orders). */
  function Revenue(orders: seq<OrderModel.Order>): real {
    if |orders| > 0 then Collections.Sum(orders, OrderTotal) else 0.0
  }

  /** `getDashboardStats`: the customers are the users whose role is customer, the pending
      orders those whose status is "pending", the revenue the sum of the order totals, and the
      product collection counts only by its size. */
  function DashboardStats(users: seq<UserModel.User>, orders: seq<OrderModel.Order>, productCount: nat): (s: Stats)
    ensures s.pendingOrders <= s.totalOrders == |orders|
    ensures s.totalCustomers <= |users|
    ensures s.totalProducts == productCount
    ensures s.totalCustomers == |Collections.Filter(users, IsCustomer)|
    ensures s.pendingOrders == |Collections.Filter(orders, IsPending)|
    ensures s.totalRevenue == Collections.Sum(orders, OrderTotal)
    ensures orders == [] ==> s.totalRevenue == 0.0
  {
    Collections.CountFilter(users, IsCustomer);
    Collections.CountFilter(orders, IsPending);
    Stats(Collections.CountWhere(users, IsCustomer), |orders|, Revenue(orders),
          Collections.CountWhere(orders, IsPending), productCount)
  }

  /** A new order adds one to the order count, its total to the revenue, and one to the
      pending count exactly when it is pending; the customer and product counts stay. */
  lemma NewOrderStats(users: seq<UserModel.User>, orders: seq<OrderModel.Order>, o: OrderModel.Order,
                      productCount: nat)
    ensures var before := DashboardStats(users, orders, productCount);
      var after := DashboardStats(users, orders + [o], productCount);
      && after.totalOrders == before.totalOrders + 1
      && after.totalRevenue == before.totalRevenue + o.total
      && after.pendingOrders == before.pendingOrders + (if o.status == Some("pending") then 1 else 0)
      && after.totalCustomers == before.totalCustomers && after.totalProducts == before.totalProducts
  {
    RevenueAppend(orders, o);
    Collections.CountWhereAppend(orders, [o], IsPending);
    assert [o][1..] == [];
  }

  /** The revenue is the sum of the order totals; each new order adds its own total. */
  lemma RevenueAppend(orders: seq<OrderModel.Order>, o: OrderModel.Order)
    ensures Revenue(orders + [o]) == Revenue(orders) + o.total
  {
    Collections.SumAppend(orders, [o], OrderTotal);
    assert [o][1..] == [];
  }

  /** With non-negative totals the revenue is non-negative. */
  lemma RevenueNonNegative(orders: seq<OrderModel.Order>)
    requires forall i :: 0 <= i < |orders| ==> orders[i].total >= 0.0
    ensures Revenue(orders) >= 0.0
  {
    Collections.SumNonNegative(orders, OrderTotal);
  }

  /** Customers and administrators together are all the users, so admins are never counted. */
  lemma CustomersAndAdmins(users: seq<UserModel.User>)
    ensures DashboardStats(users, [], 0).totalCustomers + Collections.CountWhere(users, IsAdmin) == |users|
  {
    Collections.CountSplits(users, IsCustomer, IsAdmin);
  }

  /** The fields `getCustomers` selects; `_id` comes with every selection. */
  datatype CustomerView = CustomerView(id: UserModel.UserId, name: string, email: string, orderCount: int,
                                       totalSpent: real, createdAt: nat)

  function View(u: UserModel.User): CustomerView {
    CustomerView(u.id, u.name, u.email, u.orderCount, u.totalSpent, u.createdAt)
  }

  function UserCreatedAt(u: UserModel.User): int {
    u.createdAt
  }

  function CustomersNewestFirst(users: seq<UserModel.User>): seq<UserModel.User> {
    Collections.SortNewestFirst(Collections.Filter(users, IsCustomer), UserCreatedAt)
  }

  /** `getCustomers`: the customers only, newest first, projected to the selected fields. */
  function GetCustomers(users: seq<UserModel.User>): (r: seq<CustomerView>)
    ensures |r| == Collections.CountWhere(users, IsCustomer)
    ensures forall i, j :: 0 <= i < j < |r| ==> r[i].createdAt >= r[j].createdAt
  {
    var sorted := CustomersNewestFirst(users);
    Collections.CountFilter(users, IsCustomer);
    Collections.SameElements(sorted, Collections.Filter(users, IsCustomer));
    Collections.Map(sorted, View)
  }

  /** The views of the customers, in store order. */
  function CustomerViews(users: seq<UserModel.User>): seq<CustomerView> {
    Collections.Map(Collections.Filter(users, IsCustomer), View)
  }

  /** The listing holds exactly the views of the customers: every entry is one, and every
      customer's view is listed. */
  lemma GetCustomersSelectsCustomers(users: seq<UserModel.User>)
    ensures forall c :: c in GetCustomers(users) <==> c in CustomerViews(users)
    ensures forall u :: u in users && IsCustomer(u) ==> View(u) in GetCustomers(users)
  {
    var customers := Collections.Filter(users, IsCustomer);
    var sorted := CustomersNewestFirst(users);
    Collections.SameElements(sorted, customers);
    forall c ensures c in GetCustomers(users) <==> c in CustomerViews(users) {
      Collections.InMap(sorted, View, c);
      Collections.InMap(customers, View, c);
    }
    forall u | u in users && IsCustomer(u) ensures View(u) in GetCustomers(users) {
      Collections.InMap(sorted, View, View(u));
    }
  }

  /** `getDashboardOrders`: every order, newest first. */
  function GetDashboardOrders(orders: seq<OrderModel.Order>): (r: seq<OrderModel.Order>)
    ensures multiset(r) == multiset(orders)
    ensures forall i, j :: 0 <= i < j < |r| ==> r[i].createdAt >= r[j].createdAt
  {
    OrderController.GetAllOrders(orders)
  }

  /** `updateOrderStatus` from the dashboard, the same update as on the order routes: 404 for an
      unknown id and otherwise only the status of that one order changes. */
  function UpdateOrderStatus(store: seq<OrderModel.Order>, id: Option<OrderModel.ObjectId>, body: Json.Value)
    : (r: (OrderController.StatusOutcome, seq<OrderModel.Order>))
    ensures !r.0.StatusChanged? ==> r.1 == store
    ensures r.0.StatusChanged? ==>
      && id.Some? && |r.1| == |store|
      && (forall j :: 0 <= j < |store| ==> r.1[j].(status := store[j].status) == store[j])
      && (forall j :: 0 <= j < |store| && store[j].id != id.value ==> r.1[j] == store[j])
    ensures r.0.StatusChanged? ==>
      && (forall t :: Json.Get(body, "status") == Some(Json.Str(t)) ==> r.0.order.status == Some(t))
      && (Json.Get(body, "status") == Some(Json.Null) ==> r.0.order.status.None?)
  {
    OrderController.UpdateOrderStatus(store, id, body)
  }
}
