/** The order administration page: the order list, the status filter, and the status update
    that keeps the list and the open order detail in step with the store. */
module AdminOrders {
  import opened Wrappers
  import opened Types
  import Seqs

  /** The list with every order of id `id` given status `status`. */
  function WithStatus(orders: seq<Order>, id: string, status: OrderStatus): (r: seq<Order>)
    ensures |r| == |orders|
    ensures forall i :: 0 <= i < |r| && orders[i].id == id ==> r[i] == orders[i].(status := status)
    ensures forall i :: 0 <= i < |r| && orders[i].id != id ==> r[i] == orders[i]
  {
    seq(|orders|, i requires 0 <= i < |orders| =>
      if orders[i].id == id then orders[i].(status := status) else orders[i])
  }

  /** Only the status of the matching orders changes: ids, amounts and every other column
      stay, and afterwards every order with that id has the new status. */
  lemma WithStatusChangesOnlyStatus(orders: seq<Order>, id: string, status: OrderStatus)
    ensures var r := WithStatus(orders, id, status);
      && (forall i :: 0 <= i < |r| ==> r[i].(status := orders[i].status) == orders[i])
      && (forall i :: 0 <= i < |r| && r[i].id == id ==> r[i].status == status)
  {
  }

  /** Setting a status twice is setting it once, with the later one winning. */
  lemma LaterStatusWins(orders: seq<Order>, id: string, first: OrderStatus, second: OrderStatus)
    ensures WithStatus(WithStatus(orders, id, first), id, second) == WithStatus(orders, id, second)
  {
  }

  /** The status filter: an empty filter shows every order, any other value the orders whose
      status has that name. */
  function PassesFilter(statusFilter: string, o: Order): (ok: bool)
    ensures statusFilter == "" ==> ok
    ensures statusFilter != "" ==> (ok <==> ParseStatus(statusFilter) == Some(o.status))
  {
    statusFilter == "" || StatusName(o.status) == statusFilter
  }

  /** `filteredOrders`: the orders that pass, in list order. */
  function FilteredOrders(orders: seq<Order>, statusFilter: string): (r: seq<Order>)
    ensures forall o :: o in r <==> o in orders && PassesFilter(statusFilter, o)
    ensures |r| <= |orders|
  {
    Seqs.Filter(orders, o => PassesFilter(statusFilter, o))
  }

  /** An empty filter shows the whole list. */
  lemma EmptyFilterShowsAll(orders: seq<Order>)
    ensures FilteredOrders(orders, "") == orders
  {
    Seqs.FilterAll(orders, o => PassesFilter("", o));
  }

  /** Filtering by a status's name shows exactly the orders with that status. */
  lemma FilterByStatusName(orders: seq<Order>, s: OrderStatus)
    ensures forall o :: o in FilteredOrders(orders, StatusName(s)) <==> o in orders && o.status == s
  {
    forall o: Order | StatusName(o.status) == StatusName(s) ensures o.status == s {
      StatusNameRoundTrip(o.status);
      StatusNameRoundTrip(s);
    }
  }

  /** A filter that is no status's name shows nothing. */
  lemma UnknownFilterShowsNothing(orders: seq<Order>, statusFilter: string)
    requires statusFilter != "" && ParseStatus(statusFilter).None?
    ensures FilteredOrders(orders, statusFilter) == []
  {
    forall i | 0 <= i < |orders| ensures !PassesFilter(statusFilter, orders[i]) {
      StatusNameRoundTrip(orders[i].status);
    }
    Seqs.FilterNone(orders, o => PassesFilter(statusFilter, o));
  }

  /** The page's order list and the order open in the detail view, if any. */
  class OrdersPage {
    var orders: seq<Order>
    var selectedOrder: Option<Order>
    var statusFilter: string

    constructor(loaded: seq<Order>)
      ensures orders == loaded && selectedOrder.None? && statusFilter == ""
    {
      orders := loaded;
      selectedOrder := None;
      statusFilter := "";
    }

    /** `updateOrderStatus(orderId, newStatus)`: once the store accepts the change, the list
        gives that order the new status and the open order follows only if it is that order;
        on a store error nothing changes. */
    method UpdateOrderStatus(orderId: string, newStatus: OrderStatus, storeFails: bool)
      modifies this
      ensures statusFilter == old(statusFilter)
      ensures storeFails ==> orders == old(orders) && selectedOrder == old(selectedOrder)
      ensures !storeFails ==> orders == WithStatus(old(orders), orderId, newStatus)
      ensures !storeFails && old(selectedOrder).Some? && old(selectedOrder).value.id == orderId ==>
        selectedOrder == Some(old(selectedOrder).value.(status := newStatus))
      ensures !(old(selectedOrder).Some? && old(selectedOrder).value.id == orderId) ==>
        selectedOrder == old(selectedOrder)
    {
      if storeFails {
        return;
      }
      orders := WithStatus(orders, orderId, newStatus);
      if selectedOrder.Some? && selectedOrder.value.id == orderId {
        selectedOrder := Some(selectedOrder.value.(status := newStatus));
      }
    }
  }
}
