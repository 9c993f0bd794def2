/** The data feed as a whole: the local order books, open interest, the
    perpetual's best bid and ask, the account summary, open orders, positions
    and the list of active option contracts (data_feed.py, class DataFeed),
    with the operations that do not belong to one of the larger parts. */
module DataFeed {
  import opened OrderBook
  import opened Orders
  import opened Positions

  /** One record of the portfolio channel, reduced to the fields the feed
      copies. */
  datatype Portfolio = Portfolio(
    availableFunds: real,
    balance: real,
    deltaTotal: real,
    initialMargin: real,
    maintenanceMargin: real,
    marginBalance: real)

  /** One record of an option ticker channel, reduced to the fields the feed
      reads. */
  datatype Ticker = Ticker(instrument: string, openInterest: real)

  datatype Feed = Feed(
    ob: Books,
    oi: map<string, real>,
    bestBid: real,
    bestAsk: real,
    account: map<string, real>,
    orders: OpenOrders,
    positions: Positions,
    contracts: seq<string>)

  /** A feed as the constructor leaves it: everything empty, bid and ask 0. */
  const EmptyFeed: Feed := Feed(map[], map[], 0.0, 0.0, map[], map[], map[], [])

  /** The six account keys the portfolio channel writes. */
  const AccountKeys: set<string> := {
    "available_funds", "balance", "deribit_delta",
    "initial_margin", "maintenance_margin", "margin_balance"}

  /** manage_portfolio: the six account fields are overwritten from the
      record; the venue's `delta_total` is kept as "deribit_delta". */
  function ManagePortfolio(feed: Feed, data: Portfolio): (r: Feed)
    ensures r.account.Keys == feed.account.Keys + AccountKeys
    ensures r.account["deribit_delta"] == data.deltaTotal
    ensures r.account["available_funds"] == data.availableFunds
    ensures r.account["balance"] == data.balance
    ensures r.account["initial_margin"] == data.initialMargin
    ensures r.account["maintenance_margin"] == data.maintenanceMargin
    ensures r.account["margin_balance"] == data.marginBalance
    ensures forall k :: k in feed.account && k !in AccountKeys ==> r.account[k] == feed.account[k]
    ensures r == feed.(account := r.account)
  {
    feed.(account := feed.account[
      "available_funds" := data.availableFunds][
      "balance" := data.balance][
      "deribit_delta" := data.deltaTotal][
      "initial_margin" := data.initialMargin][
      "maintenance_margin" := data.maintenanceMargin][
      "margin_balance" := data.marginBalance])
  }

  /** Only the latest portfolio record matters: a second record overwrites
      everything the first one wrote. */
  lemma ManagePortfolioLastWins(feed: Feed, a: Portfolio, b: Portfolio)
    ensures ManagePortfolio(ManagePortfolio(feed, a), b) == ManagePortfolio(feed, b)
  {
    var r1 := ManagePortfolio(ManagePortfolio(feed, a), b);
    var r2 := ManagePortfolio(feed, b);
    assert r1.account.Keys == r2.account.Keys;
    forall k | k in r1.account ensures r1.account[k] == r2.account[k] {
      if k !in AccountKeys {
        assert k in feed.account;
      }
    }
  }

  /** manage_option_oi: the ticker's open interest is stored under its
      instrument. */
  function ManageOptionOi(feed: Feed, msg: Ticker): (r: Feed)
    ensures r.oi.Keys == feed.oi.Keys + {msg.instrument}
    ensures r.oi[msg.instrument] == msg.openInterest
    ensures forall k :: k in feed.oi && k != msg.instrument ==> r.oi[k] == feed.oi[k]
    ensures r == feed.(oi := r.oi)
  {
    feed.(oi := feed.oi[msg.instrument := msg.openInterest])
  }

  /** Tickers of different instruments do not interfere, and a later ticker
      of the same instrument replaces an earlier one. */
  lemma ManageOptionOiCommutes(feed: Feed, a: Ticker, b: Ticker)
    ensures a.instrument != b.instrument ==>
      ManageOptionOi(ManageOptionOi(feed, a), b) == ManageOptionOi(ManageOptionOi(feed, b), a)
    ensures a.instrument == b.instrument ==>
      ManageOptionOi(ManageOptionOi(feed, a), b) == ManageOptionOi(feed, b)
  {
    if a.instrument != b.instrument {
      var r1 := ManageOptionOi(ManageOptionOi(feed, a), b);
      var r2 := ManageOptionOi(ManageOptionOi(feed, b), a);
      assert r1.oi == r2.oi;
    } else {
      var r1 := ManageOptionOi(ManageOptionOi(feed, a), b);
      var r2 := ManageOptionOi(feed, b);
      assert r1.oi == r2.oi;
    }
  }

  /** update_contracts: the list replaces the previous one. */
  function UpdateContracts(feed: Feed, contracts: seq<string>): (r: Feed)
    ensures r.contracts == contracts
    ensures r == feed.(contracts := contracts)
  {
    feed.(contracts := contracts)
  }
}
