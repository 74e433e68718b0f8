/**
 * The orders page: the status changes each order offers, the tab filter and
 * order of the list, the status update and the status badge.
 */
module Orders {
  import opened Wrappers
  import opened Seqs
  import opened Badge
  import Constants

  /** An order row; `orderDate` is a timestamp the list is ordered by. */
  datatype Order = Order(id: string, doctorId: string, status: string, orderDate: int)

  /** The tabs: every order, or one status (pending, confirmed, shipped or delivered). */
  datatype OrderTab = AllOrders | StatusTab(status: string)

  const Tabs: seq<OrderTab> :=
    [AllOrders, StatusTab("pending"), StatusTab("confirmed"), StatusTab("shipped"), StatusTab("delivered")]

  /** The status buttons an order card shows: Confirm and Cancel, Mark as Shipped, Mark as Delivered, or none. */
  function OfferedChanges(status: string): (r: seq<string>)
    ensures forall t :: t in r ==> t != status && t in Constants.OrderStatuses()
    ensures r == [] <==> status != "pending" && status != "confirmed" && status != "shipped"
  {
    if status == "pending" then ["confirmed", "cancelled"]
    else if status == "confirmed" then ["shipped"]
    else if status == "shipped" then ["delivered"]
    else []
  }

  /** Position along the delivery line pending → confirmed → shipped → delivered. */
  function Rank(status: string): Option<nat> {
    if status == "pending" then Some(0)
    else if status == "confirmed" then Some(1)
    else if status == "shipped" then Some(2)
    else if status == "delivered" then Some(3)
    else None
  }

  /**
   * The offered changes are exactly the one-step moves forward along the line
   * and, for a pending order, cancelling it.
   */
  lemma ChangesMoveForward(status: string, t: string)
    ensures t in OfferedChanges(status) <==>
      (status == "pending" && t == "cancelled")
      || (Rank(status).Some? && Rank(t).Some? && Rank(t).value == Rank(status).value + 1)
  {
  }

  /** Delivered and cancelled orders offer no change. */
  lemma TerminalStatuses()
    ensures OfferedChanges("delivered") == [] && OfferedChanges("cancelled") == []
  {
  }

  /** A run of statuses where each next one is a change offered by the one before. */
  predicate IsRun(path: seq<string>) {
    forall i :: 0 <= i < |path| - 1 ==> path[i + 1] in OfferedChanges(path[i])
  }

  /** How many changes can still follow a status. */
  function Remaining(status: string): nat {
    if status == "pending" then 3
    else if status == "confirmed" then 2
    else if status == "shipped" then 1
    else 0
  }

  /** An order goes through at most three status changes: no run of offered changes is longer. */
  lemma {:induction false} RunsAreShort(path: seq<string>)
    requires IsRun(path) && |path| > 0
    ensures |path| <= Remaining(path[0]) + 1
    decreases |path|
  {
    if |path| > 1 {
      assert IsRun(path[1..]) by {
        forall i | 0 <= i < |path[1..]| - 1
          ensures path[1..][i + 1] in OfferedChanges(path[1..][i])
        {
          assert path[i + 2] in OfferedChanges(path[i + 1]);
        }
      }
      RunsAreShort(path[1..]);
      assert path[1] in OfferedChanges(path[0]);
    }
  }

  function Selects(userId: string, tab: OrderTab): Order -> bool {
    (o: Order) => o.doctorId == userId && (tab.AllOrders? || o.status == tab.status)
  }

  /** `order('order_date', { ascending: false })`. */
  function NewestFirst(): Order -> seq<int> {
    (o: Order) => [-o.orderDate]
  }

  /** The rows `loadOrders` receives for a signed-in doctor. */
  function Query(userId: string, tab: OrderTab, rows: seq<Order>): (r: seq<Order>)
    ensures forall o :: multiset(r)[o] == if Selects(userId, tab)(o) then multiset(rows)[o] else 0
  {
    SortBy(Filter(rows, Selects(userId, tab)), NewestFirst())
  }

  /** An order is listed iff it is the doctor's and, on a status tab, has that status. */
  lemma QueryMembership(userId: string, tab: OrderTab, rows: seq<Order>, o: Order)
    ensures o in Query(userId, tab, rows) <==>
      o in rows && o.doctorId == userId && (tab.StatusTab? ==> o.status == tab.status)
  {
    var r := Query(userId, tab, rows);
    assert o in r <==> multiset(r)[o] > 0;
    assert o in rows <==> multiset(rows)[o] > 0;
  }

  /** The list runs from the newest order to the oldest. */
  lemma QueryNewestFirst(userId: string, tab: OrderTab, rows: seq<Order>)
    ensures var r := Query(userId, tab, rows);
      forall i, j :: 0 <= i < j < |r| ==> r[i].orderDate >= r[j].orderDate
  {
    var r := Query(userId, tab, rows);
    SortByIsSorted(Filter(rows, Selects(userId, tab)), NewestFirst());
    forall i, j | 0 <= i < j < |r|
      ensures r[i].orderDate >= r[j].orderDate
    {
      assert LexLe([-r[i].orderDate], [-r[j].orderDate]);
    }
  }

  /** The database update `update({ status }).eq('id', orderId)`. */
  function SetStatus(rows: seq<Order>, orderId: string, newStatus: string): (r: seq<Order>)
    ensures |r| == |rows|
    ensures forall i :: 0 <= i < |rows| ==>
      r[i] == if rows[i].id == orderId then rows[i].(status := newStatus) else rows[i]
  {
    UpdateWhere(rows, (o: Order) => o.id == orderId, (o: Order) => o.(status := newStatus))
  }

  /** Only the status of the matching orders changes: ids, owners and dates stay as they were. */
  lemma SetStatusKeepsOtherFields(rows: seq<Order>, orderId: string, newStatus: string)
    ensures var r := SetStatus(rows, orderId, newStatus);
      forall i :: 0 <= i < |rows| ==>
        r[i].id == rows[i].id && r[i].doctorId == rows[i].doctorId && r[i].orderDate == rows[i].orderDate
        && (r[i].status == rows[i].status || rows[i].id == orderId)
  {
  }

  /** `getStatusVariant`: coloured exactly for the five order statuses. */
  function StatusVariant(status: string): (v: Variant)
    ensures v != Default <==> status in Constants.OrderStatuses()
    ensures v == Success <==> status == "delivered"
    ensures v == Info <==> status == "shipped" || status == "confirmed"
    ensures v == Warning <==> status == "pending"
    ensures v == Error <==> status == "cancelled"
  {
    if status == "delivered" then Success
    else if status == "shipped" || status == "confirmed" then Info
    else if status == "pending" then Warning
    else if status == "cancelled" then Error
    else Default
  }

  /** The orders page's state: the active tab, the rows shown and the loading flag. */
  class OrdersPage {
    var activeTab: OrderTab
    var orders: seq<Order>
    var loading: bool

    constructor()
      ensures activeTab == AllOrders && orders == [] && loading
    {
      activeTab := AllOrders;
      orders := [];
      loading := true;
    }

    /** `loadOrders`: nothing without a user; a failed query (`rows == None`) keeps the list. */
    method Load(user: Option<string>, rows: Option<seq<Order>>)
      modifies this
      ensures activeTab == old(activeTab)
      ensures user.None? ==> orders == old(orders) && loading == old(loading)
      ensures user.Some? ==> !loading
      ensures user.Some? && rows.Some? ==> orders == Query(user.value, activeTab, rows.value)
      ensures user.Some? && rows.None? ==> orders == old(orders)
    {
      if user.None? {
        return;
      }
      loading := true;
      if rows.Some? {
        orders := Query(user.value, activeTab, rows.value);
      }
      loading := false;
    }

    /**
     * `updateOrderStatus`: when the update succeeds (`updateOk`) the table's
     * matching order takes the new status, a failed update leaves the table
     * as it was; either way the list is then reloaded from the table, and a
     * failed reload (`reloadOk` false) keeps the list. The table is returned.
     */
    method UpdateOrderStatus(orderId: string, newStatus: string, user: Option<string>, table: seq<Order>,
                             updateOk: bool, reloadOk: bool)
      returns (updated: seq<Order>)
      modifies this
      ensures updated == if updateOk then SetStatus(table, orderId, newStatus) else table
      ensures activeTab == old(activeTab)
      ensures user.Some? ==> !loading
      ensures user.Some? && reloadOk ==> orders == Query(user.value, activeTab, updated)
      ensures user.Some? && !reloadOk ==> orders == old(orders)
      ensures user.None? ==> orders == old(orders) && loading == old(loading)
    {
      updated := if updateOk then SetStatus(table, orderId, newStatus) else table;
      Load(user, if reloadOk then Some(updated) else None);
    }
  }
}
