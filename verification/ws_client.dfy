/** The websocket client of the bot (ws_client.py, class WSClient) with the
    socket taken out: every frame the client would send is appended to
    `sent`, and the clock is a parameter. What remains is the client's own
    bookkeeping: the request-id registry that routes replies, the readiness
    flags, the reconnection back-off and the requests it builds. */
module WsClient {
  import opened Outcomes
  import opened Rounding
  import opened PyText

  /** The `params` object of each kind of request the client sends. */
  datatype Params =
    | AuthParams(grantType: string, clientId: string, timestamp: nat, nonce: string, data: string, signature: string)
    | InstrumentsQuery(currency: string, kind: string, expired: bool)
    | Channels(channels: seq<string>)
    | PositionsQuery(currency: string, kind: string)
    | OpenOrdersQuery(currency: string, orderType: string)
    | LimitOrder(instrument: string, amount: real, orderType: string, orderLabel: string, price: real)

  /** One JSON-RPC frame. */
  datatype Request = Request(jsonrpc: string, id: nat, callType: string, params: Params)

  datatype Client = Client(
    connected: bool,
    authenticated: bool,
    activeContracts: seq<string>,
    gotActiveContracts: bool,
    subscribedPublic: bool,
    subscribedPrivate: bool,
    publicCount: nat,
    privateCount: nat,
    counter: nat,
    callIds: map<string, seq<nat>>,
    errorCounter: nat,
    doNotReconnect: bool,
    connectionAge: real,
    sent: seq<Request>)

  /** The call types the client registers at construction. */
  const ApiCallTypes: seq<string> := [
    "public/get_instruments", "public/subscribe", "public/auth",
    "private/subscribe", "private/get_positions", "private/buy",
    "private/get_open_orders_by_currency"]

  /** The same list with the call type of a selling re-hedge, which the
      hedger also sends. */
  const ApiCallTypesCorrected: seq<string> := ApiCallTypes + ["private/sell"]

  /** build_api_call_ids: an empty id list per call type. */
  function BuildApiCallIds(types: seq<string>): (r: map<string, seq<nat>>)
    ensures forall t :: t in r <==> t in types
    ensures forall t :: t in r ==> r[t] == []
  {
    map t | t in types :: []
  }

  /** A client as the constructor leaves it; `now` is the construction time. */
  function NewClient(types: seq<string>, now: real): (r: Client)
    ensures forall t :: t in r.callIds <==> t in types
    ensures forall t :: t in r.callIds ==> r.callIds[t] == []
    ensures Consistent(r)
    ensures !r.connected && !Ready(r) && r.counter == 0 && r.errorCounter == 0
  {
    Client(false, false, [], false, false, false, 0, 0, 0, BuildApiCallIds(types), 0, false, now, [])
  }

  /** Both subscription acknowledgements have been counted. */
  predicate Ready(c: Client) {
    c.subscribedPublic && c.subscribedPrivate
  }

  // ---------------------------------------------------------------------
  // Sending and the id registry

  /** send_to_ws followed by add_api_call_id: the frame carries the current
      counter as its id and goes out first; then the id is appended to the
      list of its call type and the counter advances. A call type without a
      list raises KeyError after the frame left, with the counter unchanged. */
  function SendToWs(c: Client, params: Params, callType: string): (r: Outcome<Client>)
    ensures r.state.sent == c.sent + [Request("2.0", c.counter, callType, params)]
    ensures r.Raised? <==> callType !in c.callIds
    ensures r.Raised? ==> r == Raised(c.(sent := r.state.sent), KeyError(callType))
    ensures r.Done? ==> r.state.counter == c.counter + 1
    ensures r.Done? ==> r.state.callIds.Keys == c.callIds.Keys
    ensures r.Done? ==> r.state.callIds[callType] == c.callIds[callType] + [c.counter]
    ensures r.Done? ==> forall t :: t in c.callIds && t != callType ==> r.state.callIds[t] == c.callIds[t]
    ensures r.state == c.(sent := r.state.sent, callIds := r.state.callIds, counter := r.state.counter)
  {
    var frame := Request("2.0", c.counter, callType, params);
    var c1 := c.(sent := c.sent + [frame]);
    if callType in c.callIds then
      Done(c1.(callIds := c.callIds[callType := c.callIds[callType] + [c.counter]], counter := c.counter + 1))
    else
      Raised(c1, KeyError(callType))
  }

  /** The registry agrees with what was sent: frame i carries id i, the
      counter is the number of frames, each registered id names a frame of
      its own call type, each list ascends, and every frame whose call type
      has a list is in that list. */
  ghost predicate Consistent(c: Client) {
    && |c.sent| == c.counter
    && (forall i :: 0 <= i < |c.sent| ==> c.sent[i].id == i)
    && (forall t, i :: t in c.callIds && 0 <= i < |c.callIds[t]| ==>
          c.callIds[t][i] < |c.sent| && c.sent[c.callIds[t][i]].callType == t)
    && (forall t, i, j :: t in c.callIds && 0 <= i < j < |c.callIds[t]| ==>
          c.callIds[t][i] < c.callIds[t][j])
    && (forall i :: 0 <= i < |c.sent| && c.sent[i].callType in c.callIds ==>
          i in c.callIds[c.sent[i].callType])
  }

  /** Sending a registered call type keeps the registry consistent. */
  lemma SendKeepsConsistent(c: Client, params: Params, callType: string)
    requires Consistent(c) && callType in c.callIds
    ensures SendToWs(c, params, callType).Done?
    ensures Consistent(SendToWs(c, params, callType).state)
  {
    SendKeepsOrder(c, params, callType);
    SendKeepsComplete(c, params, callType);
  }

  /** After a registered send every listed id still names a frame of its own
      type, and every list stays ascending. */
  lemma SendKeepsOrder(c: Client, params: Params, callType: string)
    requires Consistent(c) && callType in c.callIds
    ensures var r := SendToWs(c, params, callType).state;
      && |r.sent| == r.counter
      && (forall i :: 0 <= i < |r.sent| ==> r.sent[i].id == i)
      && (forall t, i :: t in r.callIds && 0 <= i < |r.callIds[t]| ==>
            r.callIds[t][i] < |r.sent| && r.sent[r.callIds[t][i]].callType == t)
      && (forall t, i, j :: t in r.callIds && 0 <= i < j < |r.callIds[t]| ==>
            r.callIds[t][i] < r.callIds[t][j])
  {
  }

  /** After a registered send every frame of a registered type is listed. */
  lemma SendKeepsComplete(c: Client, params: Params, callType: string)
    requires Consistent(c) && callType in c.callIds
    ensures var r := SendToWs(c, params, callType).state;
      forall i :: 0 <= i < |r.sent| && r.sent[i].callType in r.callIds ==> i in r.callIds[r.sent[i].callType]
  {
    var r := SendToWs(c, params, callType).state;
    forall i | 0 <= i < |r.sent| && r.sent[i].callType in r.callIds
      ensures i in r.callIds[r.sent[i].callType]
    {
      var t := r.sent[i].callType;
      if i == c.counter {
        assert r.callIds[t] == c.callIds[t] + [c.counter];
        assert r.callIds[t][|c.callIds[t]|] == i;
      } else {
        assert r.sent[i] == c.sent[i];
        var k :| 0 <= k < |c.callIds[t]| && c.callIds[t][k] == i;
        assert r.callIds[t][k] == i;
      }
    }
  }

  /** In a consistent client an id is in the list of a call type exactly when
      the frame with that id was a request of that type; so a reply is routed
      to the request it answers, and no id is in two lists. */
  lemma RegisteredIdIsItsRequest(c: Client, t: string, id: int)
    requires Consistent(c) && t in c.callIds
    ensures id in c.callIds[t] <==> 0 <= id < |c.sent| && c.sent[id].callType == t
  {
    if id in c.callIds[t] {
      var k :| 0 <= k < |c.callIds[t]| && c.callIds[t][k] == id;
    }
  }

  /** The seven-type registry has a list for a buying re-hedge but none for a
      selling one; the corrected list has both. */
  lemma SellIsUnregistered(now: real)
    ensures "private/buy" in NewClient(ApiCallTypes, now).callIds
    ensures "private/sell" !in NewClient(ApiCallTypes, now).callIds
    ensures "private/sell" in NewClient(ApiCallTypesCorrected, now).callIds
    ensures ApiCallTypesCorrected[7] == "private/sell"
  {
    assert ApiCallTypes[5] == "private/buy";
    assert ApiCallTypesCorrected[7] == "private/sell";
  }

  /** A selling re-hedge through the seven-type registry: the order goes out,
      KeyError escapes, and the next request is sent with the same id, so its
      reply and the order's reply are indistinguishable and both are routed
      to the next request's call type. */
  lemma SellRehedgeReusesId(c: Client, order: Params, next: Params, t: string)
    requires Consistent(c) && "private/sell" !in c.callIds && t in c.callIds
    ensures var r1 := SendToWs(c, order, "private/sell");
      && r1 == Raised(r1.state, KeyError("private/sell"))
      && var r2 := SendToWs(r1.state, next, t);
      && r2.Done?
      && r2.state.sent[|c.sent|].id == r2.state.sent[|c.sent| + 1].id == c.counter
      && c.counter in r2.state.callIds[t]
  {
    var r1 := SendToWs(c, order, "private/sell");
    var r2 := SendToWs(r1.state, next, t);
    assert r2.state.callIds[t][|c.callIds[t]|] == c.counter;
  }

  // ---------------------------------------------------------------------
  // Connection life cycle

  /** reset_vars: the readiness state is cleared; the id counter, the
      registry, the error counter and the reconnect switch survive. */
  function ResetVars(c: Client): (r: Client)
    ensures !r.connected && !r.authenticated && !r.gotActiveContracts
    ensures !r.subscribedPublic && !r.subscribedPrivate
    ensures r.activeContracts == [] && r.publicCount == 0 && r.privateCount == 0
    ensures r.counter == c.counter && r.callIds == c.callIds && r.sent == c.sent
    ensures r.errorCounter == c.errorCounter && r.doNotReconnect == c.doNotReconnect
    ensures r.connectionAge == c.connectionAge
    ensures Consistent(c) ==> Consistent(r)
  {
    c.(connected := false, authenticated := false, activeContracts := [],
       gotActiveContracts := false, subscribedPublic := false, subscribedPrivate := false,
       publicCount := 0, privateCount := 0)
  }

  /** Resetting twice is resetting once. */
  lemma ResetVarsIdempotent(c: Client)
    ensures ResetVars(ResetVars(c)) == ResetVars(c)
  {
  }

  /** The pause before a reconnection attempt after the n-th error in a row:
      1 s up to three errors, 5 s below ten, 15 s from then on. */
  function ReconnectWait(n: nat): (w: nat)
    ensures w == 1 || w == 5 || w == 15
    ensures w == 1 <==> n <= 3
    ensures w == 15 <==> n >= 10
  {
    if n <= 3 then 1
    else if n > 3 && n < 10 then 5
    else 15
  }

  /** The back-off never shrinks while errors accumulate. */
  lemma ReconnectWaitMonotone(a: nat, b: nat)
    requires a <= b
    ensures ReconnectWait(a) <= ReconnectWait(b)
  {
  }

  datatype ErrorStep = ErrorStep(client: Client, wait: nat, reconnect: bool)

  /** on_error: the error is counted, the connection is closed (close_ws,
      which resets), the back-off is chosen from the new count, and a
      reconnection follows unless reconnecting was switched off. */
  function OnError(c: Client): (r: ErrorStep)
    ensures r.client.errorCounter == c.errorCounter + 1
    ensures !r.client.connected && !Ready(r.client)
    ensures r.client == ResetVars(c).(errorCounter := c.errorCounter + 1)
    ensures r.wait == ReconnectWait(c.errorCounter + 1)
    ensures r.reconnect <==> !c.doNotReconnect
  {
    var c1 := c.(connected := false, errorCounter := c.errorCounter + 1);
    var c2 := ResetVars(c1);
    ErrorStep(c2, ReconnectWait(c2.errorCounter), !c2.doNotReconnect && !c2.connected)
  }

  /** on_open: connected, and the connection's age counts from `now`. */
  function OnOpen(c: Client, now: real): (r: Client)
    ensures r.connected && r.connectionAge == now
    ensures r == c.(connected := true, connectionAge := now)
  {
    c.(connected := true, connectionAge := now)
  }

  /** on_pong: connected; once the connection has lived more than 60 s, the
      error count starts again from zero. */
  function OnPong(c: Client, now: real): (r: Client)
    ensures r.connected
    ensures r.errorCounter == (if now - c.connectionAge > 60.0 then 0 else c.errorCounter)
    ensures r == c.(connected := true, errorCounter := r.errorCounter)
  {
    var c1 := c.(connected := true);
    if now - c.connectionAge > 60.0 then c1.(errorCounter := 0) else c1
  }

  /** on_close: disconnected, nothing else. */
  function OnClose(c: Client): (r: Client)
    ensures !r.connected && r == c.(connected := false)
  {
    c.(connected := false)
  }

  /** The back-off restarts only through a pong on a connection opened more
      than a minute earlier: an error after it waits one second, while an
      error after a pong on a younger connection keeps climbing. */
  lemma BackoffRestartsAfterStableMinute(c: Client, openedAt: real, now: real)
    ensures now - openedAt > 60.0 ==> OnError(OnPong(OnOpen(c, openedAt), now)).wait == 1
    ensures now - openedAt <= 60.0 ==>
      OnError(OnPong(OnOpen(c, openedAt), now)).wait == ReconnectWait(c.errorCounter + 1)
  {
  }

  // ---------------------------------------------------------------------
  // Subscriptions

  /** `round(len(contracts) / 2)`: Python's round, so half-way cases go to
      the even neighbour. */
  function SplitPoint(n: nat): (mid: nat)
    ensures mid <= n
    ensures IsHalfEvenRounding(n as real / 2.0, mid)
  {
    RoundHalfEven(n as real / 2.0)
  }

  /** An even count splits in half; an odd count puts the extra contract in
      the first half when n / 2 rounds up to even and in the second half
      otherwise (one contract: both of them in the second half). */
  lemma SplitPointValues(n: nat)
    ensures n % 2 == 0 ==> SplitPoint(n) == n / 2
    ensures n % 4 == 1 ==> SplitPoint(n) == n / 2
    ensures n % 4 == 3 ==> SplitPoint(n) == n / 2 + 1
  {
    var q := n / 4;
    if n % 2 == 0 {
      assert n == 2 * (n / 2);
      SplitEven(n / 2);
    } else if n % 4 == 1 {
      assert n == 4 * q + 1 && n / 2 == 2 * q;
      SplitOdd(q, 1);
    } else {
      assert n == 4 * q + 3 && n / 2 + 1 == 2 * q + 2;
      SplitOdd(q, 3);
    }
  }

  lemma SplitEven(m: nat)
    ensures SplitPoint(2 * m) == m
  {
    assert m as real == (2 * m) as real / 2.0;
    RoundHalfEvenUnique((2 * m) as real / 2.0, m);
  }

  /** 4q + 1 and 4q + 3 both round their half to the even 2q or 2q + 2. */
  lemma SplitOdd(q: nat, r: nat)
    requires r == 1 || r == 3
    ensures SplitPoint(4 * q + r) == 2 * q + (r - 1) / 2 * 2
  {
    var x := (4 * q + r) as real / 2.0;
    var m := 2 * q + (r - 1) / 2 * 2;
    assert x == (2 * q) as real + r as real / 2.0;
    assert m % 2 == 0;
    if r == 1 {
      assert m as real == x - 0.5;
    } else {
      assert m as real == x + 0.5;
    }
    RoundHalfEvenUnique(x, m);
  }

  /** One channel name per contract: prefix, contract name, ".raw". */
  function ChannelsFor(prefix: string, contracts: seq<string>): (r: seq<string>)
    ensures |r| == |contracts|
    ensures forall i :: 0 <= i < |r| ==> r[i] == prefix + contracts[i] + ".raw"
  {
    seq(|contracts|, i requires 0 <= i < |contracts| => prefix + contracts[i] + ".raw")
  }

  const PrivateChannels: seq<string> := ["user.orders.any.any.raw", "user.portfolio.btc", "user.trades.any.any.raw"]

  /** The perpetual's grouped top-of-book channel. */
  const PerpBookChannel: string := "book.BTC-PERPETUAL.none.1.100ms"

  const PublicChannels: seq<string> := [PerpBookChannel, "trades.BTC-PERPETUAL.raw"]

  /** build_subscriptions' six batches: the option books in two halves, the
      option tickers in the same two halves, the private channels, the
      perpetual's channels. Together the book batches name every contract
      once, in order, and so do the ticker batches. */
  function SubscriptionBatches(contracts: seq<string>): (r: seq<seq<string>>)
    ensures |r| == 6 && r[4] == PrivateChannels && r[5] == PublicChannels
    ensures r[0] + r[1] == ChannelsFor("book.", contracts)
    ensures r[2] + r[3] == ChannelsFor("ticker.", contracts)
    ensures |r[0]| == |r[2]| == SplitPoint(|contracts|)
  {
    var mid := SplitPoint(|contracts|);
    var r := [ChannelsFor("book.", contracts[..mid]), ChannelsFor("book.", contracts[mid..]),
              ChannelsFor("ticker.", contracts[..mid]), ChannelsFor("ticker.", contracts[mid..]),
              PrivateChannels, PublicChannels];
    ChannelsForSplit("book.", contracts, mid);
    ChannelsForSplit("ticker.", contracts, mid);
    r
  }

  /** The channels of two halves, in order, are the channels of the whole. */
  lemma ChannelsForSplit(prefix: string, contracts: seq<string>, mid: nat)
    requires mid <= |contracts|
    ensures ChannelsFor(prefix, contracts[..mid]) + ChannelsFor(prefix, contracts[mid..]) == ChannelsFor(prefix, contracts)
  {
    var a := ChannelsFor(prefix, contracts[..mid]);
    var b := ChannelsFor(prefix, contracts[mid..]);
    forall i | 0 <= i < |contracts|
      ensures (a + b)[i] == ChannelsFor(prefix, contracts)[i]
    {
      if i >= mid { assert contracts[mid..][i - mid] == contracts[i]; }
    }
  }

  /** A batch equal to the private channel list goes as private/subscribe,
      every other batch as public/subscribe. */
  function SubscribeType(batch: seq<string>): string {
    if batch == PrivateChannels then "private/subscribe" else "public/subscribe"
  }

  /** Whatever the contracts are called, only the fifth batch is private:
      an option book or ticker channel never equals a private channel. */
  lemma OnlyPrivateBatchIsPrivate(contracts: seq<string>)
    ensures var b := SubscriptionBatches(contracts);
      forall i :: 0 <= i < 6 ==> (SubscribeType(b[i]) == "private/subscribe" <==> i == 4)
  {
    var b := SubscriptionBatches(contracts);
    assert PrivateChannels[0][0] == 'u';
    forall i | 0 <= i < 4 ensures b[i] != PrivateChannels {
      if |b[i]| == 3 {
        assert b[i][0][0] == 'b' || b[i][0][0] == 't';
      }
    }
    assert |b[5]| == 2;
  }

  /** The subscribe request for one batch, sent with the given id. */
  function SubscribeFrame(id: nat, batch: seq<string>): Request {
    Request("2.0", id, SubscribeType(batch), Channels(batch))
  }

  /** `s` is `c` after sending a prefix of the batches: the frames already
      sent are kept, and the k-th new frame subscribes to batch k under id
      `c.counter + k`. */
  predicate SentBatchFrames(c: Client, batches: seq<seq<string>>, s: Client) {
    && |c.sent| <= |s.sent| <= |c.sent| + |batches|
    && s.sent[..|c.sent|] == c.sent
    && forall k :: 0 <= k < |s.sent| - |c.sent| ==> s.sent[|c.sent| + k] == SubscribeFrame(c.counter + k, batches[k])
  }

  /** The batches sent in order, one request each; the first KeyError stops
      the loop, after its own frame went out. */
  function SendBatches(c: Client, batches: seq<seq<string>>): (r: Outcome<Client>)
    ensures SentBatchFrames(c, batches, r.state)
    ensures |r.state.sent| <= |c.sent| + |batches|
    ensures r.Done? ==> |r.state.sent| == |c.sent| + |batches| && r.state.counter == c.counter + |batches|
    ensures r.Done? ==> r.state.callIds.Keys == c.callIds.Keys
    ensures r.Raised? ==> r.fault.KeyError? && r.fault.key !in c.callIds
    decreases |batches|
  {
    if |batches| == 0 then Done(c)
    else
      var last := batches[|batches| - 1];
      match SendBatches(c, batches[..|batches| - 1])
      case Raised(s, f) => Raised(s, f)
      case Done(s) => SendToWs(s, Channels(last), SubscribeType(last))
  }

  /** How many of the batches go as public/subscribe. */
  function PublicBatches(batches: seq<seq<string>>): nat
    decreases |batches|
  {
    if |batches| == 0 then 0
    else
      var one := if SubscribeType(batches[|batches| - 1]) == "public/subscribe" then 1 else 0;
      PublicBatches(batches[..|batches| - 1]) + one
  }

  /** With both subscribe types registered, sending the batches succeeds,
      keeps the registry consistent, and adds one id per batch: as many
      public ones as there are public batches, the rest private. */
  lemma {:induction false} SendBatchesRegisters(c: Client, batches: seq<seq<string>>)
    requires Consistent(c)
    requires "public/subscribe" in c.callIds && "private/subscribe" in c.callIds
    ensures SendBatches(c, batches).Done?
    ensures var s := SendBatches(c, batches).state;
      && Consistent(s)
      && s.callIds.Keys == c.callIds.Keys
      && s.counter == c.counter + |batches|
      && |s.callIds["public/subscribe"]| == |c.callIds["public/subscribe"]| + PublicBatches(batches)
      && |s.callIds["private/subscribe"]| + PublicBatches(batches)
         == |c.callIds["private/subscribe"]| + |batches|
    decreases |batches|
  {
    if |batches| > 0 {
      var pre := batches[..|batches| - 1];
      var last := batches[|batches| - 1];
      SendBatchesRegisters(c, pre);
      var s := SendBatches(c, pre).state;
      SendKeepsConsistent(s, Channels(last), SubscribeType(last));
    }
  }

  /** build_subscriptions: six subscribe requests, five public and one
      private, so exactly five public and one private acknowledgement can
      come back. */
  function BuildSubscriptions(c: Client, contracts: seq<string>): (r: Outcome<Client>)
    ensures SentBatchFrames(c, SubscriptionBatches(contracts), r.state)
    ensures r.Done? ==> |r.state.sent| == |c.sent| + 6 && r.state.counter == c.counter + 6
    ensures r.Raised? ==> r.fault.KeyError? && r.fault.key !in c.callIds
  {
    SendBatches(c, SubscriptionBatches(contracts))
  }

  lemma BuildSubscriptionsSendsSix(c: Client, contracts: seq<string>)
    requires Consistent(c)
    requires "public/subscribe" in c.callIds && "private/subscribe" in c.callIds
    ensures BuildSubscriptions(c, contracts).Done?
    ensures var s := BuildSubscriptions(c, contracts).state;
      && Consistent(s)
      && s.callIds.Keys == c.callIds.Keys
      && s.counter == c.counter + 6
      && |s.callIds["public/subscribe"]| == |c.callIds["public/subscribe"]| + 5
      && |s.callIds["private/subscribe"]| == |c.callIds["private/subscribe"]| + 1
  {
    var b := SubscriptionBatches(contracts);
    OnlyPrivateBatchIsPrivate(contracts);
    SendBatchesRegisters(c, b);
    OnePrivateBatch(b, 4);
  }

  /** Batches that all go as public/subscribe are all counted. */
  lemma {:induction false} AllPublicBatches(batches: seq<seq<string>>)
    requires forall i :: 0 <= i < |batches| ==> SubscribeType(batches[i]) == "public/subscribe"
    ensures PublicBatches(batches) == |batches|
    decreases |batches|
  {
    if |batches| > 0 {
      AllPublicBatches(batches[..|batches| - 1]);
    }
  }

  /** Exactly one private batch, at position k: all the others are public. */
  lemma {:induction false} OnePrivateBatch(batches: seq<seq<string>>, k: int)
    requires 0 <= k < |batches|
    requires forall i :: 0 <= i < |batches| ==>
      (SubscribeType(batches[i]) == "private/subscribe" <==> i == k)
    ensures PublicBatches(batches) == |batches| - 1
    decreases |batches|
  {
    var pre := batches[..|batches| - 1];
    if k == |batches| - 1 {
      AllPublicBatches(pre);
    } else {
      OnePrivateBatch(pre, k);
    }
  }

  // ---------------------------------------------------------------------
  // Requests

  /** The text the authentication signature covers:
      timestamp, line feed, nonce, line feed, data. */
  function SignedPayload(timestamp: nat, nonce: string, data: string): string {
    Decimal(timestamp) + "\n" + nonce + "\n" + data
  }

  predicate NoLineFeed(s: string) {
    forall i :: 0 <= i < |s| ==> s[i] != '\n'
  }

  /** For nonces without a line feed (the client's are hex digits), the
      signed text determines the timestamp, the nonce and the data. */
  lemma SignedPayloadInjective(t1: nat, n1: string, d1: string, t2: nat, n2: string, d2: string)
    requires NoLineFeed(n1) && NoLineFeed(n2)
    requires SignedPayload(t1, n1, d1) == SignedPayload(t2, n2, d2)
    ensures t1 == t2 && n1 == n2 && d1 == d2
  {
    var a1, a2 := Decimal(t1), Decimal(t2);
    DigitsAreNotSeparators(a1, '\n');
    DigitsAreNotSeparators(a2, '\n');
    assert SignedPayload(t1, n1, d1) == a1 + "\n" + (n1 + "\n" + d1);
    assert SignedPayload(t2, n2, d2) == a2 + "\n" + (n2 + "\n" + d2);
    SplitAtLineFeed(a1, n1 + "\n" + d1, a2, n2 + "\n" + d2);
    SplitAtLineFeed(n1, d1, n2, d2);
    IntOfDecimal(t1);
    IntOfDecimal(t2);
  }

  /** Text before the first line feed, and the text after it, are
      determined by the whole. */
  lemma SplitAtLineFeed(a1: string, r1: string, a2: string, r2: string)
    requires NoLineFeed(a1) && NoLineFeed(a2)
    requires a1 + "\n" + r1 == a2 + "\n" + r2
    ensures a1 == a2 && r1 == r2
  {
    var s := a1 + "\n" + r1;
    assert s[|a1|] == '\n';
    assert forall i :: 0 <= i < |a2| ==> s[i] == a2[i];
    assert (a2 + "\n" + r2)[|a2|] == '\n';
    assert forall i :: 0 <= i < |a1| ==> s[i] == a1[i];
    assert |a1| == |a2|;
    assert a1 == s[..|a1|] == a2;
    assert r1 == s[|a1| + 1..] == r2;
  }

  /** authenticate: a client-signature grant over timestamp, nonce and empty
      data; `sign` stands for HMAC-SHA256 under the API secret. */
  function Authenticate(c: Client, clientId: string, timestamp: nat, nonce: string,
                        sign: string -> string): (r: Outcome<Client>)
    ensures r.Done? <==> "public/auth" in c.callIds
    ensures r.state.sent == c.sent + [Request("2.0", c.counter, "public/auth",
      AuthParams("client_signature", clientId, timestamp, nonce, "",
        sign(SignedPayload(timestamp, nonce, ""))))]
  {
    var payload := SignedPayload(timestamp, nonce, "");
    SendToWs(c, AuthParams("client_signature", clientId, timestamp, nonce, "", sign(payload)), "public/auth")
  }

  /** get_instruments: the live (not expired) BTC options. */
  function GetInstruments(c: Client): (r: Outcome<Client>)
    ensures r.Done? <==> "public/get_instruments" in c.callIds
    ensures r.state.sent == c.sent + [Request("2.0", c.counter, "public/get_instruments",
      InstrumentsQuery("BTC", "option", false))]
  {
    SendToWs(c, InstrumentsQuery("BTC", "option", false), "public/get_instruments")
  }

  /** get_positions: one request for BTC futures, then one for BTC options,
      with consecutive ids. */
  function GetPositions(c: Client): (r: Outcome<Client>)
    ensures r.Done? <==> "private/get_positions" in c.callIds
    ensures r.Done? ==> r.state.sent == c.sent + [
      Request("2.0", c.counter, "private/get_positions", PositionsQuery("BTC", "future")),
      Request("2.0", c.counter + 1, "private/get_positions", PositionsQuery("BTC", "option"))]
  {
    match SendToWs(c, PositionsQuery("BTC", "future"), "private/get_positions")
    case Raised(s, f) => Raised(s, f)
    case Done(s) => SendToWs(s, PositionsQuery("BTC", "option"), "private/get_positions")
  }

  /** get_open_orders: every open BTC order. */
  function GetOpenOrders(c: Client): (r: Outcome<Client>)
    ensures r.Done? <==> "private/get_open_orders_by_currency" in c.callIds
    ensures r.state.sent == c.sent + [Request("2.0", c.counter, "private/get_open_orders_by_currency",
      OpenOrdersQuery("BTC", "all"))]
  {
    SendToWs(c, OpenOrdersQuery("BTC", "all"), "private/get_open_orders_by_currency")
  }
}
