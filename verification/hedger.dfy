/** The delta-hedging rule (hedger.py, class DeltaHedge): the signed delta of
    the perpetual, the summed delta of the option positions, the tolerance
    gate of check_deltas and the order rehedge places.

    The Black-Scholes delta of one option, with the implied volatility it is
    computed from and the time to expiry read from the clock, is a
    parameter: a `Pricer` maps the quote of one option to its per-unit
    delta. */
module Hedger {
  import opened Outcomes
  import opened Rounding
  import opened Positions
  import opened Instruments

  const Perpetual: string := "BTC-PERPETUAL"

  /** The relative tolerance of check_deltas. */
  const MaxDeltaMismatch: real := 0.025

  datatype HedgerState = HedgerState(
    activated: bool,
    stopped: bool,
    opDelta: real,
    perpDelta: real)

  /** The hedger as its constructor leaves it: not activated, deltas 0. */
  const InitialHedger: HedgerState := HedgerState(false, false, 0.0, 0.0)

  // ---------------------------------------------------------------------
  // Perpetual delta

  /** The delta a position contributes with its direction: +size for "buy",
      -size for any other direction. */
  function SignedSize(p: Position): real {
    if p.direction == Buy then p.size else -p.size
  }

  /** The perpetual's delta: its signed size, 0 without a perpetual position. */
  function PerpDelta(positions: Positions): (r: real)
    ensures Perpetual !in positions ==> r == 0.0
    ensures Perpetual in positions && positions[Perpetual].direction == Buy ==> r == positions[Perpetual].size
    ensures Perpetual in positions && positions[Perpetual].direction != Buy ==> r == -positions[Perpetual].size
    ensures Perpetual in positions && positions[Perpetual].size >= 0.0 ==>
      (r > 0.0 ==> positions[Perpetual].direction == Buy)
      && Abs(r) == positions[Perpetual].size
  {
    if Perpetual in positions then SignedSize(positions[Perpetual]) else 0.0
  }

  /** The signed amount of a fill: +amount for a buy, -amount for a sell. */
  function SignedAmount(d: Direction, amount: real): real {
    if d == Buy then amount else -amount
  }

  /** A position whose direction agrees with its size: "buy" or "sell" with a
      non-negative size, or flat. */
  predicate Oriented(p: Position) {
    p.size >= 0.0 && (p.direction != Zero || p.size == 0.0)
  }

  /** A completed fill on the perpetual moves the perpetual delta by the
      fill's signed amount: update_positions and the delta rule agree. */
  lemma FillMovesPerpDelta(positions: Positions, f: Fill)
    requires f.instrument == Perpetual && (f.direction == Buy || f.direction == Sell) && f.amount >= 0.0
    requires Perpetual in positions ==> Oriented(positions[Perpetual])
    requires ApplyFill(positions, f).Done?
    ensures PerpDelta(ApplyFill(positions, f).state) == PerpDelta(positions) + SignedAmount(f.direction, f.amount)
    ensures Oriented(ApplyFill(positions, f).state[Perpetual])
  {
  }

  // ---------------------------------------------------------------------
  // Option delta

  /** What the pricing of one option is given: the parsed contract, the
      option premium in dollars (mark price times the mid), the underlying
      price the implied-volatility solver receives (the best bid) and the one
      the delta formula receives (the mid). */
  datatype Quote = Quote(contract: OptionContract, premium: real, volSpot: real, spot: real)

  /** The per-unit Black-Scholes delta of a quoted option. */
  type Pricer = Quote -> real

  function Mid(bid: real, ask: real): real { (ask + bid) / 2.0 }

  /** The positions determine_option_delta prices: names ending in 'P' or
      'C' with a non-zero size. A position stored under the empty name makes
      `str(key)[-1]` raise IndexError. */
  function OptionKeys(positions: Positions): (r: Result<set<string>>)
    ensures r.Err? <==> "" in positions
    ensures r.Err? ==> r.fault == IndexError
    ensures r.Ok? ==> forall k :: k in r.value <==> k in positions && IsOptionName(k) && positions[k].size != 0.0
  {
    if "" in positions then Err(IndexError)
    else Ok(set k | k in positions && IsOptionName(k) && positions[k].size != 0.0)
  }

  /** The perpetual is never priced as an option. */
  lemma PerpetualIsNoOption(positions: Positions)
    requires OptionKeys(positions).Ok?
    ensures Perpetual !in OptionKeys(positions).value
  {
    assert Perpetual[|Perpetual| - 1] == 'L';
  }

  /** The dollar delta of one option position: the parsed name priced by
      `delta`, times size, times the mid, or the fault the parse raises.
      `twoDigitYear` chooses the year reading (see `ExpiryYear`): false is
      the hedger as written, true the corrected reading. */
  function Contribution(p: Position, bid: real, ask: real, delta: Pricer, twoDigitYear: bool): (r: Result<real>)
    ensures r.Ok? <==> ParseOptionName(p.instrument, twoDigitYear).Ok?
    ensures r.Ok? ==> r.value == Priced(ParseOptionName(p.instrument, twoDigitYear).value, p, bid, ask, delta)
    ensures r.Err? ==> r.fault == ParseOptionName(p.instrument, twoDigitYear).fault
  {
    var c :- ParseOptionName(p.instrument, twoDigitYear);
    Ok(Priced(c, p, bid, ask, delta))
  }

  /** The per-unit delta of the contract, quoted at the mark price and the
      mid of bid and ask, times the position's size, times the mid. */
  function Priced(c: OptionContract, p: Position, bid: real, ask: real, delta: Pricer): (r: real)
    ensures p.size == 0.0 || bid + ask == 0.0 ==> r == 0.0
    ensures delta(QuoteOf(c, p, bid, ask)) == 0.0 ==> r == 0.0
  {
    var d := delta(QuoteOf(c, p, bid, ask));
    assert d == 0.0 ==> d * p.size == 0.0;
    d * p.size * Mid(bid, ask)
  }

  /** The quote handed to the pricer: the premium in dollars (the mark price
      times the mid), the best bid for the volatility and the mid as spot. */
  function QuoteOf(c: OptionContract, p: Position, bid: real, ask: real): (q: Quote)
    ensures q.contract == c && q.spot == Mid(bid, ask) && q.volSpot == bid
    ensures q.premium == p.markPrice * q.spot
  {
    Quote(c, p.markPrice * Mid(bid, ask), bid, Mid(bid, ask))
  }

  /** The sum of the values of a map, in no particular order. */
  ghost function SumOver(m: map<string, real>): real
    decreases |m|
  {
    if |m| == 0 then 0.0
    else
      var k := PickKey(m);
      m[k] + SumOver(m - {k})
  }

  ghost function PickKey(m: map<string, real>): (k: string)
    requires |m| > 0
    ensures k in m
  {
    assert |m.Keys| > 0;
    var k :| k in m.Keys; k
  }

  /** Any entry can be taken out first: the sum does not depend on the
      order in which the dict is walked. */
  lemma {:induction false} SumOverRemove(m: map<string, real>, k: string)
    requires k in m
    ensures SumOver(m) == m[k] + SumOver(m - {k})
    decreases |m|
  {
    var j := PickKey(m);
    if j != k {
      SumOverRemove(m - {j}, k);
      SumOverRemove(m - {k}, j);
      assert m - {j} - {k} == m - {k} - {j};
    }
  }

  /** A position on a listed contract, under either year reading. As
      written, it is priced as the contract with the year 2000 + tens digit,
      or raises ValueError when that date does not exist; read with both
      digits, it is priced as the contract itself. */
  lemma ListedOptionIsPriced(underlying: string, c: OptionContract, p: Position, bid: real, ask: real, delta: Pricer)
    requires NoDash(underlying) && Listable(c) && p.instrument == OptionName(underlying, c)
    ensures var t := TensYear(c);
      Contribution(p, bid, ask, delta, false)
        == if IsDate(t.expiry.year, t.expiry.month, t.expiry.day) then Ok(Priced(t, p, bid, ask, delta))
           else Err(ValueError("day is out of range for month"))
    ensures Contribution(p, bid, ask, delta, true) == Ok(Priced(c, p, bid, ask, delta))
  {
    ParseOptionNameRoundTrip(underlying, c);
    ParseOptionNameAsWrittenYear(underlying, c);
    ParsedOptionIsPriced(c, p, bid, ask, delta, true);
  }

  /** The contribution of a position whose name parses to `c`. */
  lemma ParsedOptionIsPriced(c: OptionContract, p: Position, bid: real, ask: real, delta: Pricer, twoDigitYear: bool)
    requires ParseOptionName(p.instrument, twoDigitYear) == Ok(c)
    ensures Contribution(p, bid, ask, delta, twoDigitYear) == Ok(Priced(c, p, bid, ask, delta))
  {
  }

  /** How one option position is priced: its dollar delta, or the fault its
      name raises. */
  type Valuation = Position -> Result<real>

  /** The valuation of determine_option_delta at the given best bid and ask,
      under the given year reading. */
  function Valuer(bid: real, ask: real, delta: Pricer, twoDigitYear: bool): (v: Valuation)
    ensures forall p :: v(p).Ok? <==> ParseOptionName(p.instrument, twoDigitYear).Ok?
    ensures forall p :: v(p).Err? ==> v(p).fault == ParseOptionName(p.instrument, twoDigitYear).fault
  {
    p => Contribution(p, bid, ask, delta, twoDigitYear)
  }

  /** Adding an entry for a new key adds its value to the sum. */
  lemma SumOverInsert(m: map<string, real>, k: string, v: real)
    requires k !in m
    ensures SumOver(m[k := v]) == SumOver(m) + v
  {
    SumOverRemove(m[k := v], k);
    assert m[k := v] - {k} == m;
  }

  /** Every priced option has a value. */
  ghost predicate Priceable(positions: Positions, value: Valuation) {
    && OptionKeys(positions).Ok?
    && forall k :: k in OptionKeys(positions).value ==> value(positions[k]).Ok?
  }

  /** The dollar delta of each priced option. */
  ghost function Contributions(positions: Positions, value: Valuation): map<string, real>
    requires Priceable(positions, value)
  {
    map k | k in OptionKeys(positions).value :: value(positions[k]).value
  }

  /** The fault determine_option_delta raises on a book it cannot price: the
      IndexError of an empty name, or else the fault of some option position
      whose name does not parse. */
  ghost predicate UnpricedFault(positions: Positions, value: Valuation, f: Fault) {
    && ("" in positions ==> f == IndexError)
    && ("" !in positions ==>
          exists k :: k in OptionKeys(positions).value && value(positions[k]) == Err(f))
  }

  /** The option delta of the book: the sum of the contributions. */
  ghost function TotalDelta(positions: Positions, value: Valuation): real
    requires Priceable(positions, value)
  {
    SumOver(Contributions(positions, value))
  }

  /** The option half of determine_option_delta: walks the priced positions
      and adds up their values; a name that does not parse stops the walk
      with its fault. */
  method OptionDelta(positions: Positions, value: Valuation) returns (r: Result<real>)
    ensures r.Ok? <==> Priceable(positions, value)
    ensures r.Ok? ==> r.value == TotalDelta(positions, value)
    ensures r.Err? && "" in positions ==> r.fault == IndexError
    ensures r.Err? && "" !in positions ==>
      exists k :: k in OptionKeys(positions).value && value(positions[k]) == Err(r.fault)
  {
    var keys :- OptionKeys(positions);
    var vals := map k | k in keys :: value(positions[k]);
    r := SumResults(vals);
    if r.Ok? {
      assert Priceable(positions, value) by {
        forall k | k in keys ensures value(positions[k]).Ok? {
          assert vals[k] == value(positions[k]);
        }
      }
      assert Contributions(positions, value) == map k | k in vals :: vals[k].value;
    } else {
      var k :| k in vals && vals[k] == Err(r.fault);
      assert k in keys && value(positions[k]) == Err(r.fault);
    }
  }

  /** Adds up a map of results, in no particular order; the first failure
      met stops the walk. */
  method SumResults(vals: map<string, Result<real>>) returns (r: Result<real>)
    ensures r.Ok? <==> forall k :: k in vals ==> vals[k].Ok?
    ensures r.Ok? ==> r.value == SumOver(map k | k in vals :: vals[k].value)
    ensures r.Err? ==> exists k :: k in vals && vals[k] == Err(r.fault)
  {
    var rest := vals.Keys;
    var total := 0.0;
    ghost var order: seq<string> := [];
    while rest != {}
      invariant rest <= vals.Keys
      invariant forall i :: 0 <= i < |order| ==> order[i] in vals && order[i] !in rest && vals[order[i]].Ok?
      invariant forall k :: k in vals && k !in rest ==> k in order
      invariant forall i, j :: 0 <= i < j < |order| ==> order[i] != order[j]
      invariant total == SumAlong(vals, order)
      decreases rest
    {
      var k :| k in rest;
      if vals[k].Err? {
        return Err(vals[k].fault);
      }
      assert (order + [k])[..|order|] == order;
      total := total + vals[k].value;
      order := order + [k];
      rest := rest - {k};
    }
    ghost var m := map k | k in vals :: vals[k].value;
    SumAlongIsSumOver(vals, order, m);
    return Ok(total);
  }

  /** The sum of the values of `vals` at the keys of `order`, in that order. */
  ghost function SumAlong(vals: map<string, Result<real>>, order: seq<string>): real
    requires forall i :: 0 <= i < |order| ==> order[i] in vals && vals[order[i]].Ok?
    decreases |order|
  {
    if |order| == 0 then 0.0
    else
      var n := |order| - 1;
      SumAlong(vals, order[..n]) + vals[order[n]].value
  }

  /** Walking every key once, in any order, gives the order-free sum. */
  lemma {:induction false} SumAlongIsSumOver(vals: map<string, Result<real>>, order: seq<string>, m: map<string, real>)
    requires forall i :: 0 <= i < |order| ==> order[i] in vals && vals[order[i]].Ok?
    requires forall i, j :: 0 <= i < j < |order| ==> order[i] != order[j]
    requires m.Keys == vals.Keys
    requires forall k :: k in m ==> k in order && vals[k] == Ok(m[k])
    ensures SumAlong(vals, order) == SumOver(m)
    decreases |order|
  {
    if |order| == 0 {
      assert m == map[];
      return;
    }
    var n := |order| - 1;
    var last := order[n];
    var pre := order[..n];
    DropLastVisited(vals, order, m);
    SumAlongIsSumOver(vals - {last}, pre, m - {last});
    SumAlongRestrict(vals, last, pre);
    SumOverRemove(m, last);
  }

  /** The walk without its last key covers the map without that key. */
  lemma DropLastVisited(vals: map<string, Result<real>>, order: seq<string>, m: map<string, real>)
    requires |order| > 0
    requires forall i :: 0 <= i < |order| ==> order[i] in vals && vals[order[i]].Ok?
    requires forall i, j :: 0 <= i < j < |order| ==> order[i] != order[j]
    requires m.Keys == vals.Keys
    requires forall k :: k in m ==> k in order && vals[k] == Ok(m[k])
    ensures var last, pre := order[|order| - 1], order[..|order| - 1];
      && last in m
      && (forall i :: 0 <= i < |pre| ==> pre[i] in vals - {last} && (vals - {last})[pre[i]].Ok?)
      && (forall i, j :: 0 <= i < j < |pre| ==> pre[i] != pre[j])
      && (m - {last}).Keys == (vals - {last}).Keys
      && (forall k :: k in m - {last} ==> k in pre && (vals - {last})[k] == Ok((m - {last})[k]))
  {
    var n := |order| - 1;
    var last := order[n];
    var pre := order[..n];
    assert forall i :: 0 <= i < n ==> pre[i] == order[i];
    forall k | k in m && k != last ensures k in pre {
      var i :| 0 <= i < |order| && order[i] == k;
      assert i != n;
    }
  }

  /** Dropping a key the walk does not visit does not change its sum. */
  lemma {:induction false} SumAlongRestrict(vals: map<string, Result<real>>, drop: string, order: seq<string>)
    requires forall i :: 0 <= i < |order| ==> order[i] in vals && vals[order[i]].Ok? && order[i] != drop
    ensures SumAlong(vals - {drop}, order) == SumAlong(vals, order)
    decreases |order|
  {
    if |order| > 0 {
      var n := |order| - 1;
      assert forall i :: 0 <= i < n ==> order[..n][i] == order[i];
      SumAlongRestrict(vals, drop, order[..n]);
    }
  }

  /** With no option position of non-zero size, the option delta is 0. */
  lemma NoOptionsNoDelta(positions: Positions, value: Valuation)
    requires "" !in positions
    requires forall k :: k in positions && IsOptionName(k) ==> positions[k].size == 0.0
    ensures Priceable(positions, value)
    ensures TotalDelta(positions, value) == 0.0
  {
    assert OptionKeys(positions).value == {};
    assert Contributions(positions, value) == map[];
  }

  /** Adding an option position to a book adds exactly its value to the
      option delta. */
  lemma AddOptionAddsContribution(positions: Positions, k: string, p: Position, value: Valuation)
    requires Priceable(positions, value)
    requires k !in positions && IsOptionName(k) && p.size != 0.0
    requires value(p).Ok?
    ensures Priceable(positions[k := p], value)
    ensures TotalDelta(positions[k := p], value) == TotalDelta(positions, value) + value(p).value
  {
    var after := positions[k := p];
    OptionKeysInsert(positions, k, p);
    var before := Contributions(positions, value);
    ContributionsInsert(positions, k, p, value);
    SumOverInsert(before, k, value(p).value);
  }

  /** A new option position of non-zero size adds its name to the priced ones. */
  lemma OptionKeysInsert(positions: Positions, k: string, p: Position)
    requires OptionKeys(positions).Ok?
    requires k !in positions && IsOptionName(k) && p.size != 0.0
    ensures OptionKeys(positions[k := p]).Ok?
    ensures OptionKeys(positions[k := p]).value == OptionKeys(positions).value + {k}
  {
  }

  /** ... and its value to the contributions. */
  lemma ContributionsInsert(positions: Positions, k: string, p: Position, value: Valuation)
    requires Priceable(positions, value)
    requires k !in positions && IsOptionName(k) && p.size != 0.0
    requires value(p).Ok?
    requires OptionKeys(positions[k := p]).Ok?
    requires OptionKeys(positions[k := p]).value == OptionKeys(positions).value + {k}
    ensures Priceable(positions[k := p], value)
    ensures Contributions(positions[k := p], value) == Contributions(positions, value)[k := value(p).value]
  {
  }

  // ---------------------------------------------------------------------
  // The gate and the hedge order

  /** check_deltas's condition for rehedging: hedging is activated, the
      option delta is non-zero, and the ratio -perp/option lies strictly
      between 1 - 0.025 and 1 + 0.025. */
  predicate Fires(activated: bool, opt: real, perp: real) {
    && activated
    && opt != 0.0
    && 1.0 - MaxDeltaMismatch < (-perp) / opt < 1.0 + MaxDeltaMismatch
  }

  lemma MulPositive(a: real, b: real)
    requires a > 0.0 && b > 0.0
    ensures a * b > 0.0
  {
  }

  /** Multiplying by a positive number keeps a strict order. */
  lemma ScaleLess(a: real, b: real, c: real)
    requires c > 0.0
    ensures a < b <==> a * c < b * c
  {
    if a < b {
      MulPositive(b - a, c);
    } else {
      MulNonNegative(a - b, c);
    }
  }

  /** The band condition on a ratio `q` with q * opt == -perp, for a
      positive option delta. */
  lemma RatioBandPositive(opt: real, perp: real, q: real, lo: real, hi: real)
    requires opt > 0.0 && q * opt == -perp
    requires lo == 1.0 - MaxDeltaMismatch && hi == 1.0 + MaxDeltaMismatch
    ensures lo < q < hi <==> Abs(perp + opt) < MaxDeltaMismatch * opt
  {
    ScaleLess(lo, q, opt);
    ScaleLess(q, hi, opt);
    assert lo < q <==> lo * opt < q * opt;
    assert q < hi <==> q * opt < hi * opt;
    assert lo * opt == opt - MaxDeltaMismatch * opt;
    assert hi * opt == opt + MaxDeltaMismatch * opt;
    BandArithmetic(lo, q, hi, perp, opt, lo * opt, q * opt, hi * opt, MaxDeltaMismatch * opt);
  }

  /** The linear step of the band proof, with every product named. */
  lemma BandArithmetic(lo: real, q: real, hi: real, perp: real, opt: real, a: real, b: real, c: real, d: real)
    requires (lo < q <==> a < b) && (q < hi <==> b < c)
    requires b == -perp && a == opt - d && c == opt + d
    ensures lo < q < hi <==> Abs(perp + opt) < d
  {
  }

  /** The same for any non-zero option delta: the negative case is the
      positive one with both deltas negated. */
  lemma RatioBand(opt: real, perp: real, q: real)
    requires opt != 0.0 && q * opt == -perp
    ensures 1.0 - MaxDeltaMismatch < q < 1.0 + MaxDeltaMismatch
      <==> Abs(perp + opt) < MaxDeltaMismatch * Abs(opt)
  {
    if opt > 0.0 {
      RatioBandPositive(opt, perp, q, 1.0 - MaxDeltaMismatch, 1.0 + MaxDeltaMismatch);
      assert Abs(opt) == opt;
    } else {
      assert q * -opt == perp;
      RatioBandPositive(-opt, -perp, q, 1.0 - MaxDeltaMismatch, 1.0 + MaxDeltaMismatch);
      assert Abs(-perp + -opt) == Abs(perp + opt);
      assert Abs(opt) == -opt;
    }
  }

  /** The gate fires exactly when the book is already hedged to within 2.5%:
      the perpetual delta is within 0.025 * |option delta| of -option delta.
      A book further from neutral than that is never rehedged. */
  lemma FiresIffNearlyHedged(activated: bool, opt: real, perp: real)
    ensures Fires(activated, opt, perp)
      <==> activated && opt != 0.0 && Abs(perp + opt) < MaxDeltaMismatch * Abs(opt)
  {
    if opt != 0.0 {
      RatioBand(opt, perp, (-perp) / opt);
    }
  }

  /** An activated hedger with option delta and no perpetual position never
      rehedges, while a book that is exactly neutral always does (with an
      order of size 0). */
  lemma GateIsInverted(opt: real)
    requires opt != 0.0
    ensures !Fires(true, opt, 0.0)
    ensures Fires(true, opt, -opt)
    ensures Rehedge(opt, -opt, 0.0, 0.0).amount == 0.0
  {
    FiresIffNearlyHedged(true, opt, 0.0);
    FiresIffNearlyHedged(true, opt, -opt);
  }

  /** The order rehedge sends: a limit order on the perpetual, labelled
      "delta_hedge", sent as private/buy or private/sell. */
  datatype HedgeOrder = HedgeOrder(
    side: Direction,
    instrument: string,
    amount: real,
    orderType: string,
    orderLabel: string,
    price: real)

  /** The call type of the order: "private/" followed by its side. */
  function CallType(o: HedgeOrder): string {
    if o.side == Sell then "private/sell" else "private/buy"
  }

  /** rehedge: with target = -option delta and diff = perp - target, sell
      |diff| at the best bid when diff > 0, and buy |diff| at the best ask
      otherwise (diff = 0 included). */
  function Rehedge(opt: real, perp: real, bid: real, ask: real): (o: HedgeOrder)
    ensures perp + SignedAmount(o.side, o.amount) == -opt
    ensures o.amount == Abs(perp + opt)
    ensures o.side == Sell <==> perp > -opt
    ensures o.side == Buy <==> perp <= -opt
    ensures o.price == (if perp > -opt then bid else ask)
    ensures o.instrument == Perpetual && o.orderType == "limit" && o.orderLabel == "delta_hedge"
  {
    var target := -opt;
    var diff := perp - target;
    if diff > 0.0 then HedgeOrder(Sell, Perpetual, Abs(diff), "limit", "delta_hedge", bid)
    else HedgeOrder(Buy, Perpetual, Abs(diff), "limit", "delta_hedge", ask)
  }

  /** Filled completely, the hedge order brings the perpetual delta to
      exactly -option delta. */
  lemma RehedgeFillReachesTarget(positions: Positions, opt: real, bid: real, ask: real, mark: real)
    requires opt != 0.0
    requires Perpetual in positions ==> Oriented(positions[Perpetual])
    ensures var o := Rehedge(opt, PerpDelta(positions), bid, ask);
      var f := Fill(Perpetual, o.side, o.amount, o.price, mark);
      && ApplyFill(positions, f).Done?
      && PerpDelta(ApplyFill(positions, f).state) == -opt
  {
    var o := Rehedge(opt, PerpDelta(positions), bid, ask);
    var f := Fill(Perpetual, o.side, o.amount, o.price, mark);
    FillMovesPerpDelta(positions, f);
  }

  /** The result of check_deltas: the hedger with the deltas it stored, and
      the order it sends, if any. */
  datatype Check = Check(hedger: HedgerState, order: Option<HedgeOrder>)

  /** check_deltas: recomputes both deltas and stores them; when the gate
      fires, returns the rehedge order. A name that does not parse raises
      before anything is stored. */
  method CheckDeltas(h: HedgerState, positions: Positions, bid: real, ask: real, value: Valuation)
    returns (r: Result<Check>)
    ensures r.Ok? <==> Priceable(positions, value)
    ensures r.Ok? ==>
      var opt := TotalDelta(positions, value);
      var perp := PerpDelta(positions);
      && r.value.hedger == h.(opDelta := opt, perpDelta := perp)
      && (r.value.order.Some? <==> Fires(h.activated, opt, perp))
      && (r.value.order.Some? ==> r.value.order.value == Rehedge(opt, perp, bid, ask))
    ensures r.Err? ==> UnpricedFault(positions, value, r.fault)
  {
    var perp := PerpDelta(positions);
    var opt :- OptionDelta(positions, value);
    var stored := h.(opDelta := opt, perpDelta := perp);
    if h.activated && Abs(opt) > 0.0 && 1.0 - MaxDeltaMismatch < (-perp) / opt < 1.0 + MaxDeltaMismatch {
      return Ok(Check(stored, Some(Rehedge(opt, perp, bid, ask))));
    }
    return Ok(Check(stored, None));
  }
}
