/** Open-order bookkeeping of the data feed, keyed by (instrument, order id)
    (data_feed.py, initial_open_orders and manage_orders). */
module Orders {
  import opened Outcomes
  import opened LastWins

  /** The fields of an order record the model reads. `replaced` and
      `originalOrderType` are the stamps initial_open_orders adds; a record
      that arrives on the orders channel does not carry them (None). */
  datatype Order = Order(
    instrument: string,
    orderId: string,
    orderType: string,
    orderState: string,
    filledAmount: real,
    maxShow: real,
    replaced: Option<bool>,
    originalOrderType: Option<string>)

  datatype OrderKey = OrderKey(instrument: string, orderId: string)

  /** (instrument, order id) -> order. */
  type OpenOrders = map<OrderKey, Order>

  function KeyOf(o: Order): OrderKey { OrderKey(o.instrument, o.orderId) }

  /** The record initial_open_orders stores: the reported order with
      replaced = False and original_order_type = "limit". */
  function Stamped(o: Order): Order {
    o.(replaced := Some(false), originalOrderType := Some("limit"))
  }

  /** initial_open_orders: every reported order, stamped, under its key; a
      later record with the same key wins. */
  function InitialOpenOrders(orders: OpenOrders, data: seq<Order>): (r: OpenOrders)
    ensures r.Keys == orders.Keys + KeysOf(data, KeyOf)
  {
    InsertAll(orders, data, KeyOf, Stamped)
  }

  /** Each key the report mentions holds the stamped copy of its last record;
      every stored record that came from the report carries the stamps. */
  lemma InitialOpenOrdersLastWins(orders: OpenOrders, data: seq<Order>, i: int)
    requires IsLast(data, KeyOf, i)
    ensures var o := InitialOpenOrders(orders, data)[KeyOf(data[i])];
      && o.replaced == Some(false) && o.originalOrderType == Some("limit")
      && o == data[i].(replaced := Some(false), originalOrderType := Some("limit"))
  {
    InsertAllLast(orders, data, KeyOf, Stamped, i);
  }

  /** An update that removes a known order: a cancellation, or a fill whose
      filled amount equals the displayed amount. */
  predicate Closes(o: Order) {
    o.orderState == "cancelled" || (o.orderState == "filled" && o.filledAmount == o.maxShow)
  }

  /** Order types manage_orders never stores: "rejected" (only logged) and
      "market". */
  predicate Ignored(o: Order) {
    o.orderType == "rejected" || o.orderType == "market"
  }

  /** manage_orders with the partial-fill branch storing the update, as the
      comment on that branch says it should: ignored types change nothing; a
      known order is removed when the update closes it and replaced by the
      update otherwise; an unseen order is stored whatever its state. */
  function ManageOrders(orders: OpenOrders, data: Order): (r: OpenOrders)
    ensures forall k :: k != KeyOf(data) ==> (k in r <==> k in orders)
    ensures forall k :: k != KeyOf(data) && k in orders ==> r[k] == orders[k]
    ensures Ignored(data) ==> r == orders
    ensures !Ignored(data) ==>
      (KeyOf(data) in r <==> KeyOf(data) !in orders || !Closes(data))
    ensures KeyOf(data) in r && KeyOf(data) !in orders ==> !Ignored(data)
    ensures !Ignored(data) && KeyOf(data) in r ==> r[KeyOf(data)] == data
  {
    var key := KeyOf(data);
    if Ignored(data) then orders
    else if key in orders then
      if Closes(data) then orders - {key} else orders[key := data]
    else orders[key := data]
  }

  /** No stored order has an ignored type. */
  ghost predicate NoIgnoredStored(orders: OpenOrders) {
    forall k :: k in orders ==> !Ignored(orders[k])
  }

  /** Rejected and market orders never enter the book of open orders, so a
      book without them stays without them. */
  lemma ManageOrdersKeepsIgnoredOut(orders: OpenOrders, data: Order)
    requires NoIgnoredStored(orders)
    ensures NoIgnoredStored(ManageOrders(orders, data))
  {
  }

  /** A repeated cancellation re-creates the order it removed: the second copy
      finds no known order and is stored like any unseen order. */
  lemma RepeatedCancelReinserts(orders: OpenOrders, data: Order)
    requires KeyOf(data) in orders && !Ignored(data) && data.orderState == "cancelled"
    ensures KeyOf(data) !in ManageOrders(orders, data)
    ensures ManageOrders(ManageOrders(orders, data), data) == orders[KeyOf(data) := data]
  {
    assert ManageOrders(orders, data) == orders - {KeyOf(data)};
    assert (orders - {KeyOf(data)})[KeyOf(data) := data] == orders[KeyOf(data) := data];
  }

  // ---------------------------------------------------------------------
  // The source as written

  /** manage_orders as written: the branch for a known order that the update
      does not close writes to `self.order`, an attribute the feed does not
      have, so it raises AttributeError and the stale record stays. */
  function ManageOrdersAsWritten(orders: OpenOrders, data: Order): (r: Outcome<OpenOrders>)
    ensures r.Raised? <==> !Ignored(data) && KeyOf(data) in orders && !Closes(data)
    ensures r.Raised? ==> r == Raised(orders, AttributeError("order"))
    ensures r.Done? ==> r.state == ManageOrders(orders, data)
  {
    var key := KeyOf(data);
    if Ignored(data) then Done(orders)
    else if key in orders then
      if Closes(data) then Done(orders - {key}) else Raised(orders, AttributeError("order"))
    else Done(orders[key := data])
  }

  /** A partial fill of a known open order: as written the update is lost and
      AttributeError escapes; corrected, the stored record becomes the update. */
  lemma PartialFillAsWrittenRaises(orders: OpenOrders, data: Order)
    requires KeyOf(data) in orders
    requires data.orderType == "limit" && data.orderState == "open"
    ensures ManageOrdersAsWritten(orders, data) == Raised(orders, AttributeError("order"))
    ensures ManageOrders(orders, data)[KeyOf(data)] == data
  {
  }
}
