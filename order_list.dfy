/** The admin order table (src/components/admin/OrderList.jsx): loading the
    orders, the status change with its `updating` flag, and the short id shown
    for each order. */
module OrderList {
  import opened Wrappers
  import opened Js

  /** An order row; `status` is whatever the server or the select holds. */
  datatype Order = Order(id: string, customerName: Option<string>, totalAmount: int, status: string)

  /** The local update after a successful PUT: the orders with that `_id` take
      the new status; every other order, and every other field, is kept. */
  function WithStatus(orders: seq<Order>, id: string, status: string): (r: seq<Order>)
    ensures |r| == |orders|
    ensures forall i :: 0 <= i < |orders| && orders[i].id == id ==> r[i] == orders[i].(status := status)
    ensures forall i :: 0 <= i < |orders| && orders[i].id != id ==> r[i] == orders[i]
  {
    if orders == [] then []
    else [if orders[0].id == id then orders[0].(status := status) else orders[0]] +
         WithStatus(orders[1..], id, status)
  }

  /** Of two changes to the same order the later one wins. */
  lemma WithStatusLastWins(orders: seq<Order>, id: string, a: string, b: string)
    ensures WithStatus(WithStatus(orders, id, a), id, b) == WithStatus(orders, id, b)
  {
  }

  /** Changes to different orders do not interfere: their order does not matter. */
  lemma WithStatusCommutes(orders: seq<Order>, id1: string, a: string, id2: string, b: string)
    requires id1 != id2
    ensures WithStatus(WithStatus(orders, id1, a), id2, b) == WithStatus(WithStatus(orders, id2, b), id1, a)
  {
  }

  /** Setting an order to the status it already has changes nothing. */
  lemma WithStatusSame(orders: seq<Order>, id: string, status: string)
    requires forall o :: o in orders && o.id == id ==> o.status == status
    ensures WithStatus(orders, id, status) == orders
  {
    var r := WithStatus(orders, id, status);
    forall i | 0 <= i < |orders| ensures r[i] == orders[i] {
      assert orders[i] in orders;
    }
  }

  /** `_id.slice(-6).toUpperCase()`: the last six characters (all of a
      shorter id), with no lower-case letter left. */
  function ShortId(id: string): (r: string)
    ensures |r| == if |id| < 6 then |id| else 6
    ensures forall i :: 0 <= i < |r| ==> !IsLower(r[i])
  {
    ToUpper(SliceLast(id, 6))
  }

  /** The short id depends only on the last six characters of the id, so
      ids that end alike are shown alike. */
  lemma ShortIdOfSuffix(id: string, other: string)
    requires |id| >= 6 && |other| >= 6
    requires id[|id| - 6..] == other[|other| - 6..]
    ensures ShortId(id) == ShortId(other)
  {
    assert SliceLast(id, 6) == SliceLast(other, 6);
  }

  /** Showing a short id in short form again changes nothing. */
  lemma ShortIdIdempotent(id: string)
    ensures ShortId(ShortId(id)) == ShortId(id)
  {
    var r := ShortId(id);
    assert SliceLast(r, 6) == r;
    forall i | 0 <= i < |r| ensures ToUpper(r)[i] == r[i] {
      assert !IsLower(r[i]);
    }
  }

  /** The order fetch: `res.data.orders` when present, or a failure. */
  datatype Fetch = Fetched(orders: Option<seq<Order>>) | FetchFailed

  /** What happens, in order, during a status change. */
  datatype Event =
    | GetOrders(ok: bool)
    | PutStatus(id: string, status: string, updating: Option<string>, ok: bool)

  class OrderBoard {
    var orders: seq<Order>
    var loading: bool
    var updating: Option<string>
    ghost var trace: seq<Event>

    constructor ()
      ensures orders == [] && loading && updating == None && trace == []
    {
      orders := [];
      loading := true;
      updating := None;
      trace := [];
    }

    /** `fetchOrders`: `res.data.orders || []`; a failure keeps the orders. */
    method Load(fetch: Fetch)
      modifies this
      ensures !loading && updating == old(updating)
      ensures fetch.Fetched? ==> orders == fetch.orders.GetOr([]) && trace == old(trace) + [GetOrders(true)]
      ensures fetch.FetchFailed? ==> orders == old(orders) && trace == old(trace) + [GetOrders(false)]
    {
      match fetch {
        case Fetched(got) =>
          orders := got.GetOr([]);
          trace := trace + [GetOrders(true)];
        case FetchFailed =>
          trace := trace + [GetOrders(false)];
      }
      loading := false;
    }

    /** `handleStatusChange(orderId, newStatus)`; `ok` is the outcome of the
        PUT, which is sent while `updating` names the order. Afterwards
        `updating` is cleared whatever the outcome. */
    method HandleStatusChange(orderId: string, newStatus: string, ok: bool)
      modifies this
      ensures updating == None && loading == old(loading)
      ensures trace == old(trace) + [PutStatus(orderId, newStatus, Some(orderId), ok)]
      ensures ok ==> orders == WithStatus(old(orders), orderId, newStatus)
      ensures !ok ==> orders == old(orders)
    {
      updating := Some(orderId);
      trace := trace + [PutStatus(orderId, newStatus, updating, ok)];
      if ok {
        orders := WithStatus(orders, orderId, newStatus);
      }
      updating := None;
    }
  }
}
