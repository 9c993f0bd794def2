/** message_distribution and the callbacks around it (ws_client.py): a reply
    to one of the client's requests is routed by its id through the
    registry; a channel notification is routed by its channel name to the
    feed, and the portfolio and trades channels then run the hedger, whose
    order goes out through the client. The JSON text itself is not modelled:
    a message arrives already decoded into `Reply`. */
module Dispatch {
  import opened Outcomes
  import opened PyText
  import opened OrderBook
  import opened Positions
  import opened Orders
  import opened DataFeed
  import opened Hedger
  import opened WsClient

  /** The three objects the bot wires together. */
  datatype Bot = Bot(client: Client, feed: Feed, hedger: HedgerState)

  /** The `result` of a reply, in the shapes the handlers read. */
  datatype ResultBody =
    | TokenGrant(tokenType: string)
    | InstrumentList(names: seq<string>)
    | PositionList(positions: seq<Position>)
    | OrderList(orders: seq<Order>)
    | OtherResult

  /** The `data` of a notification, in the shapes the handlers read. */
  datatype PushData =
    | RawBook(kind: Option<string>, msg: BookMessage)
    | TopOfBook(bidPrices: seq<real>, askPrices: seq<real>)
    | TickerData(ticker: Ticker)
    | OrderData(order: Order)
    | PortfolioData(portfolio: Portfolio)
    | TradeData(fills: seq<Fill>)

  datatype PushParams = PushParams(channel: Option<string>, data: Option<PushData>)

  /** A decoded message; None stands for an absent key. */
  datatype Reply = Reply(
    id: Option<int>,
    result: Option<ResultBody>,
    methodName: Option<string>,
    params: Option<PushParams>)

  // ---------------------------------------------------------------------
  // Replies to requests

  /** The call types a reply is matched against, in the order tried. */
  const RouteOrder: seq<string> := [
    "public/get_instruments", "public/auth", "public/subscribe",
    "private/subscribe", "private/get_positions", "private/get_open_orders_by_currency"]

  /** The first of `types` whose id list holds `id`, or None; looking up a
      type that has no list raises KeyError. */
  function RouteAmong(callIds: map<string, seq<nat>>, types: seq<string>, id: int): (r: Result<Option<string>>)
    ensures r.Ok? && r.value.Some? ==>
      r.value.value in types && r.value.value in callIds && id in callIds[r.value.value]
    ensures r == Ok(None) <==> forall t :: t in types ==> t in callIds && id !in callIds[t]
    ensures r.Err? ==> exists t :: t in types && t !in callIds && r.fault == KeyError(t)
    decreases |types|
  {
    if |types| == 0 then Ok(None)
    else if types[0] !in callIds then Err(KeyError(types[0]))
    else if id in callIds[types[0]] then Ok(Some(types[0]))
    else
      var r := RouteAmong(callIds, types[1..], id);
      assert forall t :: t in types ==> t == types[0] || t in types[1..];
      r
  }

  /** A client whose registry has a list for every routed call type. */
  predicate RoutesAll(c: Client) {
    forall t :: t in RouteOrder ==> t in c.callIds
  }

  /** With the routed types registered and the registry consistent, a reply
      is routed to the call type of the request whose id it carries, and to
      nothing when that request was of another type or never sent. */
  lemma RouteFindsRequest(c: Client, id: int)
    requires Consistent(c) && RoutesAll(c)
    ensures RouteAmong(c.callIds, RouteOrder, id).Ok?
    ensures RouteAmong(c.callIds, RouteOrder, id).value.Some? <==>
      0 <= id < |c.sent| && c.sent[id].callType in RouteOrder
    ensures RouteAmong(c.callIds, RouteOrder, id).value.Some? ==>
      RouteAmong(c.callIds, RouteOrder, id).value.value == c.sent[id].callType
  {
    var r := RouteAmong(c.callIds, RouteOrder, id);
    if r.value.Some? {
      RegisteredIdIsItsRequest(c, r.value.value, id);
    }
  }

  /** Both client registries route every reply type. */
  lemma RegistriesRouteAll(now: real)
    ensures RoutesAll(NewClient(ApiCallTypes, now))
    ensures RoutesAll(NewClient(ApiCallTypesCorrected, now))
  {
    assert RouteOrder[0] == ApiCallTypes[0] && RouteOrder[1] == ApiCallTypes[2];
    assert RouteOrder[2] == ApiCallTypes[1] && RouteOrder[3] == ApiCallTypes[3];
    assert RouteOrder[4] == ApiCallTypes[4] && RouteOrder[5] == ApiCallTypes[6];
    assert forall t :: t in RouteOrder ==> t in ApiCallTypes;
    assert forall t :: t in ApiCallTypes ==> t in ApiCallTypesCorrected;
  }

  /** collect_active_contracts: the names are appended to the client's list;
      once the list is non-empty the feed gets it and the client knows its
      contracts. */
  function CollectActiveContracts(b: Bot, names: seq<string>): (r: Bot)
    ensures r.client.activeContracts == b.client.activeContracts + names
    ensures r.client.gotActiveContracts <==> b.client.gotActiveContracts || |r.client.activeContracts| > 0
    ensures r.client == b.client.(activeContracts := r.client.activeContracts,
                                  gotActiveContracts := r.client.gotActiveContracts)
    ensures |r.client.activeContracts| > 0 ==> r.feed == UpdateContracts(b.feed, r.client.activeContracts)
    ensures |r.client.activeContracts| == 0 ==> r.feed == b.feed
    ensures r.hedger == b.hedger
  {
    var active := b.client.activeContracts + names;
    var c := b.client.(activeContracts := active);
    if |active| > 0 then
      Bot(c.(gotActiveContracts := true), UpdateContracts(b.feed, active), b.hedger)
    else
      b.(client := c)
  }

  /** The readiness flags agree with the acknowledgement counts: public
      subscriptions are confirmed exactly when five acknowledgements have
      been counted, private ones at the first. */
  predicate AcksCounted(c: Client) {
    && (c.subscribedPublic <==> c.publicCount >= 5)
    && (c.subscribedPrivate <==> c.privateCount >= 1)
  }

  /** Whether a result has the shape the handler of `t` reads. */
  predicate Fits(t: string, body: ResultBody) {
    && (t == "public/get_instruments" ==> body.InstrumentList?)
    && (t == "public/auth" ==> body.TokenGrant?)
    && (t == "private/get_positions" ==> body.PositionList?)
    && (t == "private/get_open_orders_by_currency" ==> body.OrderList?)
  }

  /** The handler of a routed reply, one per call type:
      - instruments: collect_active_contracts on the names;
      - auth: authenticated exactly when the token type is "bearer";
      - an acknowledgement: its count moves by one, and its flag is set when
        the count reaches 5 (public) or 1 (private);
      - positions and open orders: initial_positions and initial_open_orders.
      A body of the wrong shape raises TypeError and changes nothing. Only
      instruments, positions and open orders replies touch the feed, only an
      auth reply touches the authentication flag; the hedger, the id
      counter, the registry and the sent frames stay as they are. */
  function HandleResult(b: Bot, t: string, body: ResultBody): (r: Outcome<Bot>)
    requires t in RouteOrder
    ensures r.Raised? <==> !Fits(t, body)
    ensures r.Raised? ==> r == Raised(b, TypeError)
    ensures t == "public/get_instruments" && r.Done? ==> r.state == CollectActiveContracts(b, body.names)
    ensures t == "public/auth" && r.Done? ==>
      r.state == b.(client := r.state.client) && r.state.client.authenticated == (body.tokenType == "bearer")
    ensures t == "private/get_positions" && r.Done? ==>
      r.state == b.(feed := b.feed.(positions := InitialPositions(b.feed.positions, body.positions)))
    ensures t == "private/get_open_orders_by_currency" && r.Done? ==>
      r.state == b.(feed := b.feed.(orders := InitialOpenOrders(b.feed.orders, body.orders)))
    ensures t == "public/subscribe" || t == "private/subscribe" ==> r.state.feed == b.feed
    ensures t != "public/auth" ==> r.state.client.authenticated == b.client.authenticated
    ensures t != "public/get_instruments" ==>
      r.state.client.activeContracts == b.client.activeContracts
      && r.state.client.gotActiveContracts == b.client.gotActiveContracts
    ensures r.state.hedger == b.hedger
    ensures r.state.client == b.client.(
      authenticated := r.state.client.authenticated,
      activeContracts := r.state.client.activeContracts,
      gotActiveContracts := r.state.client.gotActiveContracts,
      publicCount := r.state.client.publicCount,
      privateCount := r.state.client.privateCount,
      subscribedPublic := r.state.client.subscribedPublic,
      subscribedPrivate := r.state.client.subscribedPrivate)
    ensures r.state.client.publicCount == b.client.publicCount + (if t == "public/subscribe" then 1 else 0)
    ensures r.state.client.privateCount == b.client.privateCount + (if t == "private/subscribe" then 1 else 0)
    ensures AcksCounted(b.client) ==> AcksCounted(r.state.client)
  {
    if t == "public/get_instruments" then
      if body.InstrumentList? then Done(CollectActiveContracts(b, body.names)) else Raised(b, TypeError)
    else if t == "public/auth" then
      if body.TokenGrant? then Done(b.(client := b.client.(authenticated := body.tokenType == "bearer")))
      else Raised(b, TypeError)
    else if t == "public/subscribe" then
      var n := b.client.publicCount + 1;
      Done(b.(client := b.client.(publicCount := n, subscribedPublic := b.client.subscribedPublic || n == 5)))
    else if t == "private/subscribe" then
      var n := b.client.privateCount + 1;
      Done(b.(client := b.client.(privateCount := n, subscribedPrivate := b.client.subscribedPrivate || n == 1)))
    else if t == "private/get_positions" then
      if body.PositionList? then Done(b.(feed := b.feed.(positions := InitialPositions(b.feed.positions, body.positions))))
      else Raised(b, TypeError)
    else
      if body.OrderList? then Done(b.(feed := b.feed.(orders := InitialOpenOrders(b.feed.orders, body.orders))))
      else Raised(b, TypeError)
  }

  /** The reply half of message_distribution. A message without an id or
      without a result, or whose id no routed list holds, changes nothing.
      A reply never changes the hedger, the id counter or the registry;
      each acknowledgement advances its own count by one; the readiness
      flags keep agreeing with the counts. */
  function HandleResponse(b: Bot, m: Reply): (r: Outcome<Bot>)
    ensures m.id.None? || m.result.None? ==> r == Done(b)
    ensures m.id.Some? && m.result.Some? && RouteAmong(b.client.callIds, RouteOrder, m.id.value) == Ok(None) ==>
      r == Done(b)
    ensures m.id.Some? && m.result.Some? && RouteAmong(b.client.callIds, RouteOrder, m.id.value).Err? ==>
      r == Raised(b, RouteAmong(b.client.callIds, RouteOrder, m.id.value).fault)
    ensures forall t :: AnswersType(b.client, m, t) ==> t in RouteOrder && r == HandleResult(b, t, m.result.value)
    ensures r.state.hedger == b.hedger
    ensures r.state.client.callIds == b.client.callIds && r.state.client.sent == b.client.sent
    ensures r.state.client.counter == b.client.counter
    ensures r.state.client.publicCount == b.client.publicCount + PublicAck(b.client, m)
    ensures r.state.client.privateCount == b.client.privateCount + PrivateAck(b.client, m)
    ensures AcksCounted(b.client) ==> AcksCounted(r.state.client)
  {
    if m.id.None? || m.result.None? then Done(b)
    else
      match RouteAmong(b.client.callIds, RouteOrder, m.id.value)
      case Err(f) => Raised(b, f)
      case Ok(None) => Done(b)
      case Ok(Some(t)) => HandleResult(b, t, m.result.value)
  }

  /** Whether the message is an answer routed to `t`. */
  predicate AnswersType(c: Client, m: Reply, t: string) {
    m.id.Some? && m.result.Some? && RouteAmong(c.callIds, RouteOrder, m.id.value) == Ok(Some(t))
  }

  function PublicAck(c: Client, m: Reply): nat {
    if AnswersType(c, m, "public/subscribe") then 1 else 0
  }

  function PrivateAck(c: Client, m: Reply): nat {
    if AnswersType(c, m, "private/subscribe") then 1 else 0
  }

  /** Replies handled in order; the first exception ends the run. */
  function HandleAll(b: Bot, ms: seq<Reply>): (r: Outcome<Bot>)
    ensures r.state.hedger == b.hedger
    ensures r.state.client.counter == b.client.counter && r.state.client.callIds == b.client.callIds
    ensures r.state.client.sent == b.client.sent
    decreases |ms|
  {
    if |ms| == 0 then Done(b)
    else
      match HandleAll(b, ms[..|ms| - 1])
      case Raised(s, f) => Raised(s, f)
      case Done(s) => HandleResponse(s, ms[|ms| - 1])
  }

  /** How many of the replies answer a request of type `t`. */
  function AcksOf(c: Client, ms: seq<Reply>, t: string): nat
    decreases |ms|
  {
    if |ms| == 0 then 0
    else
      var one := if AnswersType(c, ms[|ms| - 1], t) then 1 else 0;
      AcksOf(c, ms[..|ms| - 1], t) + one
  }

  /** Over a run of replies the counts grow by the number of
      acknowledgements among them, and the flags keep agreeing. */
  lemma {:induction false} HandleAllCountsAcks(b: Bot, ms: seq<Reply>)
    requires AcksCounted(b.client)
    ensures var s := HandleAll(b, ms).state.client;
      && s.callIds == b.client.callIds
      && AcksCounted(s)
      && (HandleAll(b, ms).Done? ==>
          && s.publicCount == b.client.publicCount + AcksOf(b.client, ms, "public/subscribe")
          && s.privateCount == b.client.privateCount + AcksOf(b.client, ms, "private/subscribe"))
    decreases |ms|
  {
    if |ms| > 0 {
      HandleAllCountsAcks(b, ms[..|ms| - 1]);
    }
  }

  /** After a reset (a fresh client, a reconnection), the client is ready,
      as wait_for_subscriptions waits for, exactly when five public and one
      private acknowledgement have come back. */
  lemma ReadyAfterAcks(b: Bot, ms: seq<Reply>)
    requires HandleAll(b.(client := ResetVars(b.client)), ms).Done?
    ensures var s := HandleAll(b.(client := ResetVars(b.client)), ms).state.client;
      Ready(s) <==>
        && AcksOf(b.client, ms, "public/subscribe") >= 5
        && AcksOf(b.client, ms, "private/subscribe") >= 1
  {
    var b0 := b.(client := ResetVars(b.client));
    HandleAllCountsAcks(b0, ms);
    AcksOfSameRegistry(b0.client, b.client, ms, "public/subscribe");
    AcksOfSameRegistry(b0.client, b.client, ms, "private/subscribe");
  }

  /** Counting acknowledgements only consults the registry. */
  lemma {:induction false} AcksOfSameRegistry(c1: Client, c2: Client, ms: seq<Reply>, t: string)
    requires c1.callIds == c2.callIds
    ensures AcksOf(c1, ms, t) == AcksOf(c2, ms, t)
    decreases |ms|
  {
    if |ms| > 0 {
      AcksOfSameRegistry(c1, c2, ms[..|ms| - 1], t);
    }
  }

  /** The instrument names the replies carry, in order. */
  function NamesOf(ms: seq<Reply>): seq<string>
    decreases |ms|
  {
    if |ms| == 0 then []
    else
      var m := ms[|ms| - 1];
      var names := if m.result.Some? && m.result.value.InstrumentList? then m.result.value.names else [];
      NamesOf(ms[..|ms| - 1]) + names
  }

  /** The client knows its contracts exactly when its list is non-empty,
      and the feed then holds the same list. */
  predicate ContractsKnown(b: Bot) {
    && (b.client.gotActiveContracts <==> |b.client.activeContracts| > 0)
    && (|b.client.activeContracts| > 0 ==> b.feed.contracts == b.client.activeContracts)
  }

  /** A run of replies to instrument requests: the client's list of active
      contracts grows by their names in the order the replies came, and
      `ContractsKnown` is kept. */
  lemma {:induction false} InstrumentRepliesConcatenate(b: Bot, ms: seq<Reply>)
    requires ContractsKnown(b)
    requires forall i :: 0 <= i < |ms| ==>
      AnswersType(b.client, ms[i], "public/get_instruments") && ms[i].result.value.InstrumentList?
    ensures HandleAll(b, ms).Done?
    ensures var s := HandleAll(b, ms).state;
      && s.client.callIds == b.client.callIds
      && s.hedger == b.hedger
      && s.client.activeContracts == b.client.activeContracts + NamesOf(ms)
      && ContractsKnown(s)
    decreases |ms|
  {
    if |ms| == 0 {
      assert b.client.activeContracts + NamesOf(ms) == b.client.activeContracts;
    } else {
      var n := |ms| - 1;
      var pre := ms[..n];
      assert forall i :: 0 <= i < n ==> pre[i] == ms[i];
      InstrumentRepliesConcatenate(b, pre);
      var s := HandleAll(b, pre).state;
      var m := ms[n];
      assert HandleAll(b, ms) == HandleResponse(s, m);
      assert NamesOf(ms) == NamesOf(pre) + m.result.value.names;
      InstrumentReplyCollects(b, s, m, NamesOf(pre));
    }
  }

  /** One reply to an instrument request runs collect_active_contracts on a
      bot `s` that the earlier replies of the run made from `b`. */
  lemma InstrumentReplyCollects(b: Bot, s: Bot, m: Reply, earlier: seq<string>)
    requires ContractsKnown(s) && s.client.callIds == b.client.callIds && s.hedger == b.hedger
    requires s.client.activeContracts == b.client.activeContracts + earlier
    requires AnswersType(b.client, m, "public/get_instruments") && m.result.value.InstrumentList?
    ensures HandleResponse(s, m) == Done(CollectActiveContracts(s, m.result.value.names))
    ensures var t := HandleResponse(s, m).state;
      && t.client.callIds == b.client.callIds
      && t.hedger == b.hedger
      && t.client.activeContracts == b.client.activeContracts + (earlier + m.result.value.names)
      && ContractsKnown(t)
  {
    assert AnswersType(s.client, m, "public/get_instruments");
    assert HandleResponse(s, m) == HandleResult(s, "public/get_instruments", m.result.value);
  }

  // ---------------------------------------------------------------------
  // Channel notifications

  const OrdersChannel: string := "user.orders.any.any.raw"
  const PortfolioChannel: string := "user.portfolio.btc"
  const TradesChannel: string := "user.trades.any.any.raw"

  /** `channel[:n] == prefix` for a prefix of length n holds exactly when the
      channel starts with the prefix. */
  lemma SlicePrefix(ch: string, prefix: string)
    ensures Slice(ch, 0, |prefix|) == prefix <==> |ch| >= |prefix| && ch[..|prefix|] == prefix
  {
    if |ch| < |prefix| {
      assert |Slice(ch, 0, |prefix|)| <= |ch|;
    }
  }

  /** The perpetual's book channel also starts with "book.BTC-", so the
      order of the tests matters: it is caught by the exact test first and
      never reaches the option-book handler. */
  lemma PerpBookChannelHasOptionPrefix()
    ensures Slice(PerpBookChannel, 0, 9) == "book.BTC-"
  {
    assert PerpBookChannel[..9] == "book.BTC-";
  }

  /** A private channel ("user." ...) never passes either option prefix test. */
  lemma UserChannelIsNoOptionChannel(ch: string)
    requires |ch| > 0 && ch[0] == 'u'
    ensures Slice(ch, 0, 9) != "book.BTC-" && Slice(ch, 0, 11) != "ticker.BTC-"
  {
    SlicePrefix(ch, "book.BTC-");
    SlicePrefix(ch, "ticker.BTC-");
    if |ch| >= 11 {
      assert ch[..11][0] == 'u';
    }
    if |ch| >= 9 {
      assert ch[..9][0] == 'u';
    }
  }

  /** The perpetual's top of book: best bid from the first bid level, then
      best ask from the first ask level; an empty side raises IndexError,
      after the bid was stored if it was the asks that were empty. */
  function StoreTopOfBook(b: Bot, data: PushData): (r: Outcome<Bot>)
    ensures r.state == b.(feed := r.state.feed)
    ensures r.state.feed == b.feed.(bestBid := r.state.feed.bestBid, bestAsk := r.state.feed.bestAsk)
    ensures r.Done? <==> data.TopOfBook? && |data.bidPrices| > 0 && |data.askPrices| > 0
    ensures r.Done? ==> r.state.feed.bestBid == data.bidPrices[0] && r.state.feed.bestAsk == data.askPrices[0]
    ensures data.TopOfBook? && |data.bidPrices| > 0 ==> r.state.feed.bestBid == data.bidPrices[0]
    ensures data.TopOfBook? && |data.bidPrices| > 0 && |data.askPrices| == 0 ==> r.fault == IndexError
  {
    match data
    case TopOfBook(bids, asks) =>
      if |bids| == 0 then Raised(b, IndexError)
      else
        var b1 := b.(feed := b.feed.(bestBid := bids[0]));
        if |asks| == 0 then Raised(b1, IndexError)
        else Done(b1.(feed := b1.feed.(bestAsk := asks[0])))
    case _ => Raised(b, TypeError)
  }

  /** An option book notification: a snapshot rebuilds the instrument's
      book, a change applies its levels; data without one of these types is
      ignored. */
  function OptionBook(b: Bot, data: PushData): (r: Outcome<Bot>)
    ensures r.state == b.(feed := b.feed.(ob := r.state.feed.ob))
    ensures data.RawBook? && data.kind == Some("snapshot") ==>
      r == Done(b.(feed := b.feed.(ob := BuildObFromSnapshot(b.feed.ob, data.msg))))
    ensures data.RawBook? && data.kind == Some("change") ==>
      r.state.feed.ob == UpdateOb(b.feed.ob, data.msg).state
      && (r.Done? <==> UpdateOb(b.feed.ob, data.msg).Done?)
    ensures !(data.RawBook? && (data.kind == Some("snapshot") || data.kind == Some("change"))) ==>
      r == Done(b)
  {
    match data
    case RawBook(kind, msg) =>
      if kind == Some("snapshot") then Done(b.(feed := b.feed.(ob := BuildObFromSnapshot(b.feed.ob, msg))))
      else if kind == Some("change") then
        match UpdateOb(b.feed.ob, msg)
        case Done(ob) => Done(b.(feed := b.feed.(ob := ob)))
        case Raised(ob, f) => Raised(b.(feed := b.feed.(ob := ob)), f)
      else Done(b)
    case _ => Done(b)
  }

  /** The limit order a hedge order becomes on the wire. */
  function OrderParams(o: HedgeOrder): Params {
    LimitOrder(o.instrument, o.amount, o.orderType, o.orderLabel, o.price)
  }

  // The bot runs either the feed and hedger as written (`corrected` false)
  // or with the three corrections of the feed and hedger applied together:
  // the partial-fill branch of manage_orders stores the update, the first
  // fill of a new instrument opens its position, and the expiry year is
  // read from both digits.

  /** manage_orders under the chosen reading. */
  function OrdersUpdate(orders: OpenOrders, o: Order, corrected: bool): Outcome<OpenOrders> {
    if corrected then Done(ManageOrders(orders, o)) else ManageOrdersAsWritten(orders, o)
  }

  /** update_positions under the chosen reading. */
  function PositionsUpdate(positions: Positions, fills: seq<Fill>, corrected: bool): Outcome<Positions> {
    if corrected then UpdatePositions(positions, fills) else UpdatePositionsAsWritten(positions, fills)
  }

  /** The valuation determine_option_delta applies at the feed's best bid
      and ask, under the chosen reading. */
  function FeedValuer(feed: Feed, delta: Pricer, corrected: bool): Valuation {
    Valuer(feed.bestBid, feed.bestAsk, delta, corrected)
  }

  /** What check_deltas with the client's send_to_ws does to the bot `b`: a
      name that cannot be priced raises its own fault before anything
      changes; otherwise the hedger stores the option delta (the sum over
      the priced options) and the perpetual delta, and, when the gate
      fires, the rehedge order
      is sent as "private/buy" or "private/sell" exactly as send_to_ws
      sends it, raising KeyError after the send when that call type has no
      id list. */
  ghost predicate Rebalanced(b: Bot, delta: Pricer, corrected: bool, r: Outcome<Bot>) {
    var value := FeedValuer(b.feed, delta, corrected);
    && (!Priceable(b.feed.positions, value) ==>
          r.Raised? && r.state == b && UnpricedFault(b.feed.positions, value, r.fault))
    && (Priceable(b.feed.positions, value) ==>
          var opt := TotalDelta(b.feed.positions, value);
          var perp := PerpDelta(b.feed.positions);
          var o := Rehedge(opt, perp, b.feed.bestBid, b.feed.bestAsk);
          && r.state.feed == b.feed
          && r.state.hedger == b.hedger.(opDelta := opt, perpDelta := perp)
          && (!Fires(b.hedger.activated, opt, perp) ==> r == Done(r.state) && r.state.client == b.client)
          && (Fires(b.hedger.activated, opt, perp) ==>
                && r.state.client == SendToWs(b.client, OrderParams(o), CallType(o)).state
                && r.state.client.sent == b.client.sent + [Request("2.0", b.client.counter, CallType(o), OrderParams(o))]
                && (r.Raised? <==> CallType(o) !in b.client.callIds)
                && (r.Raised? ==> r.fault == KeyError(CallType(o)))))
  }

  /** check_deltas on the bot, with the hedge order sent through the client. */
  method Rebalance(b: Bot, delta: Pricer, corrected: bool) returns (r: Outcome<Bot>)
    ensures Rebalanced(b, delta, corrected, r)
  {
    var value := FeedValuer(b.feed, delta, corrected);
    var chk := CheckDeltas(b.hedger, b.feed.positions, b.feed.bestBid, b.feed.bestAsk, value);
    if chk.Err? {
      return Raised(b, chk.fault);
    }
    var b1 := b.(hedger := chk.value.hedger);
    match chk.value.order {
      case None =>
        r := Done(b1);
      case Some(o) =>
        match SendToWs(b1.client, OrderParams(o), CallType(o)) {
          case Done(c) => r := Done(b1.(client := c));
          case Raised(c, f) => r := Raised(b1.(client := c), f);
        }
    }
  }

  /** A subscription notification with a channel and data. */
  predicate IsNotification(m: Reply) {
    m.methodName == Some("subscription") && m.params.Some?
    && m.params.value.channel.Some? && m.params.value.data.Some?
  }

  /** What the notification half of message_distribution does, by channel:
      - the perpetual's book: its best bid and ask are stored;
      - any other "book.BTC-" channel: the option book is rebuilt or updated;
      - a "ticker.BTC-" channel: manage_option_oi;
      - the orders channel: manage_orders;
      - the portfolio channel: manage_portfolio, then check_deltas;
      - the trades channel: update_positions, then, unless it raised,
        check_deltas;
      - anything else, and any message that is not a notification: nothing.
      Data of the wrong shape for the channel raises TypeError. */
  ghost predicate PushHandled(b: Bot, m: Reply, delta: Pricer, corrected: bool, r: Outcome<Bot>) {
    if !IsNotification(m) then r == Done(b)
    else
      var ch := m.params.value.channel.value;
      var data := m.params.value.data.value;
      if ch == PerpBookChannel then r == StoreTopOfBook(b, data)
      else if Slice(ch, 0, 9) == "book.BTC-" then r == OptionBook(b, data)
      else if Slice(ch, 0, 11) == "ticker.BTC-" then
        r == if data.TickerData? then Done(b.(feed := ManageOptionOi(b.feed, data.ticker))) else Raised(b, TypeError)
      else if ch == OrdersChannel then
        if data.OrderData? then
          var u := OrdersUpdate(b.feed.orders, data.order, corrected);
          r.state == b.(feed := b.feed.(orders := u.state)) && (r.Raised? <==> u.Raised?)
          && (r.Raised? ==> r.fault == u.fault)
        else r == Raised(b, TypeError)
      else if ch == PortfolioChannel then
        if data.PortfolioData? then Rebalanced(b.(feed := ManagePortfolio(b.feed, data.portfolio)), delta, corrected, r)
        else r == Raised(b, TypeError)
      else if ch == TradesChannel then
        if data.TradeData? then
          var u := PositionsUpdate(b.feed.positions, data.fills, corrected);
          var b1 := b.(feed := b.feed.(positions := u.state));
          if u.Raised? then r == Raised(b1, u.fault) else Rebalanced(b1, delta, corrected, r)
        else r == Raised(b, TypeError)
      else r == Done(b)
  }

  /** The notification half of message_distribution, routed by channel. */
  method HandlePush(b: Bot, m: Reply, delta: Pricer, corrected: bool) returns (r: Outcome<Bot>)
    ensures PushHandled(b, m, delta, corrected, r)
    ensures r.state.hedger != b.hedger || r.state.client != b.client ==>
      IsNotification(m) && m.params.value.channel.value in {PortfolioChannel, TradesChannel}
  {
    if !IsNotification(m) {
      return Done(b);
    }
    var ch := m.params.value.channel.value;
    var data := m.params.value.data.value;
    if |ch| > 0 && ch[0] == 'u' {
      UserChannelIsNoOptionChannel(ch);
    }
    if ch == PerpBookChannel {
      r := StoreTopOfBook(b, data);
    } else if Slice(ch, 0, 9) == "book.BTC-" {
      r := OptionBook(b, data);
    } else if Slice(ch, 0, 11) == "ticker.BTC-" {
      r := if data.TickerData? then Done(b.(feed := ManageOptionOi(b.feed, data.ticker))) else Raised(b, TypeError);
    } else if ch == OrdersChannel {
      if data.OrderData? {
        match OrdersUpdate(b.feed.orders, data.order, corrected) {
          case Done(os) => r := Done(b.(feed := b.feed.(orders := os)));
          case Raised(os, f) => r := Raised(b.(feed := b.feed.(orders := os)), f);
        }
      } else {
        r := Raised(b, TypeError);
      }
    } else if ch == PortfolioChannel {
      if data.PortfolioData? {
        r := Rebalance(b.(feed := ManagePortfolio(b.feed, data.portfolio)), delta, corrected);
      } else {
        r := Raised(b, TypeError);
      }
    } else if ch == TradesChannel {
      if data.TradeData? {
        match PositionsUpdate(b.feed.positions, data.fills, corrected) {
          case Raised(s, f) => r := Raised(b.(feed := b.feed.(positions := s)), f);
          case Done(s) => r := Rebalance(b.(feed := b.feed.(positions := s)), delta, corrected);
        }
      } else {
        r := Raised(b, TypeError);
      }
    } else {
      r := Done(b);
    }
  }

  /** message_distribution: the reply half, then, unless it raised, the
      notification half on what the reply half left. */
  method Distribute(b: Bot, m: Reply, delta: Pricer, corrected: bool) returns (r: Outcome<Bot>)
    ensures HandleResponse(b, m).Raised? ==> r == HandleResponse(b, m)
    ensures HandleResponse(b, m).Done? ==> PushHandled(HandleResponse(b, m).state, m, delta, corrected, r)
  {
    var r1 := HandleResponse(b, m);
    if r1.Raised? {
      return r1;
    }
    r := HandlePush(r1.state, m, delta, corrected);
  }

  /** The channel and data of a notification. */
  predicate OnChannel(m: Reply, ch: string) {
    IsNotification(m) && m.params.value.channel.value == ch
  }

  /** A trades notification whose fills all apply runs the hedger on the
      updated positions: it stores the option delta of the new book (the sum
      over its priced options) and its perpetual delta. */
  lemma TradeNotificationRunsHedger(b: Bot, m: Reply, delta: Pricer, corrected: bool, r: Outcome<Bot>)
    requires PushHandled(b, m, delta, corrected, r)
    requires OnChannel(m, TradesChannel) && m.params.value.data.value.TradeData?
    requires PositionsUpdate(b.feed.positions, m.params.value.data.value.fills, corrected).Done?
    requires Priceable(PositionsUpdate(b.feed.positions, m.params.value.data.value.fills, corrected).state,
                       FeedValuer(b.feed, delta, corrected))
    ensures var s := PositionsUpdate(b.feed.positions, m.params.value.data.value.fills, corrected).state;
      && r.state.feed == b.feed.(positions := s)
      && r.state.hedger == b.hedger.(opDelta := TotalDelta(s, FeedValuer(b.feed, delta, corrected)),
                                     perpDelta := PerpDelta(s))
  {
    UserChannelIsNoOptionChannel(TradesChannel);
  }

  /** As written, a trades notification whose first fill opens a new
      instrument raises KeyError, and the hedger does not run for it. The
      bot carried by the raise is the one before the notification, without
      the raw trade record the source leaves in the positions. */
  lemma NewInstrumentTradeSkipsHedger(b: Bot, m: Reply, delta: Pricer, r: Outcome<Bot>)
    requires PushHandled(b, m, delta, false, r)
    requires OnChannel(m, TradesChannel) && m.params.value.data.value.TradeData?
    requires var fills := m.params.value.data.value.fills;
      |fills| > 0 && fills[0].instrument !in b.feed.positions
    ensures r == Raised(b, KeyError("size"))
  {
    UserChannelIsNoOptionChannel(TradesChannel);
    NewInstrumentFirstStopsAsWritten(b.feed.positions, m.params.value.data.value.fills);
    assert b.(feed := b.feed.(positions := b.feed.positions)) == b;
  }

  /** As written, a partial fill of a known open order on the orders channel
      raises AttributeError and keeps the stale record; corrected, it is
      stored. */
  lemma PartialFillNotification(b: Bot, m: Reply, delta: Pricer, corrected: bool, r: Outcome<Bot>)
    requires PushHandled(b, m, delta, corrected, r)
    requires OnChannel(m, OrdersChannel) && m.params.value.data.value.OrderData?
    requires var o := m.params.value.data.value.order;
      KeyOf(o) in b.feed.orders && o.orderType == "limit" && o.orderState == "open"
    ensures !corrected ==> r == Raised(b, AttributeError("order"))
    ensures corrected ==> r.Done? && r.state.feed.orders[KeyOf(m.params.value.data.value.order)] == m.params.value.data.value.order
  {
    UserChannelIsNoOptionChannel(OrdersChannel);
    PartialFillAsWrittenRaises(b.feed.orders, m.params.value.data.value.order);
    assert b.(feed := b.feed.(orders := b.feed.orders)) == b;
  }

  /** shutdown: reconnecting is switched off, the hedger is told to stop,
      and the connection is closed (which resets the client). */
  function Shutdown(b: Bot): (r: Bot)
    ensures r.client.doNotReconnect && r.hedger.stopped
    ensures !r.client.connected && !Ready(r.client)
    ensures r.client.counter == b.client.counter && r.client.callIds == b.client.callIds
    ensures r.feed == b.feed
  {
    Bot(ResetVars(b.client.(doNotReconnect := true)), b.feed, b.hedger.(stopped := true))
  }

  /** After shutdown no error leads to a reconnection, however many follow. */
  lemma {:induction false} ShutdownNeverReconnects(b: Bot, errors: nat)
    ensures !OnError(Errors(Shutdown(b).client, errors)).reconnect
    ensures Errors(Shutdown(b).client, errors).doNotReconnect
    decreases errors
  {
    if errors > 0 {
      ShutdownNeverReconnects(b, errors - 1);
    }
  }

  /** The client after `n` errors in a row. */
  function Errors(c: Client, n: nat): Client
    decreases n
  {
    if n == 0 then c else OnError(Errors(c, n - 1)).client
  }
}
