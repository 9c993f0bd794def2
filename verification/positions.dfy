/** Position bookkeeping of the data feed: the positions the venue reports
    at start-up, and the fills of the private trades channel
    (data_feed.py, initial_positions and update_positions). */
module Positions {
  import opened Outcomes
  import opened Rounding
  import opened LastWins

  /** The venue's direction word: "buy", "sell", or "zero" for a flat
      position. */
  datatype Direction = Buy | Sell | Zero

  /** The fields of a position record the model reads. `size` is the
      unsigned amount held; `direction` says which way. */
  datatype Position = Position(
    instrument: string,
    direction: Direction,
    size: real,
    averagePrice: real,
    markPrice: real)

  /** One record of the private trades channel. */
  datatype Fill = Fill(
    instrument: string,
    direction: Direction,
    amount: real,
    price: real,
    markPrice: real)

  /** instrument -> position. */
  type Positions = map<string, Position>

  function PositionName(p: Position): string { p.instrument }
  function Identity(p: Position): Position { p }

  /** initial_positions: each reported position is stored under its
      instrument, a later record for the same instrument winning. */
  function InitialPositions(positions: Positions, data: seq<Position>): (r: Positions)
    ensures r.Keys == positions.Keys + KeysOf(data, PositionName)
  {
    InsertAll(positions, data, PositionName, Identity)
  }

  /** The reported record that comes last for its instrument is the one kept;
      positions the report does not mention are kept as they were. */
  lemma InitialPositionsLastWins(positions: Positions, data: seq<Position>, i: int, k: string)
    requires IsLast(data, PositionName, i)
    ensures InitialPositions(positions, data)[data[i].instrument] == data[i]
    ensures k in positions && Untouched(data, PositionName, k) ==> InitialPositions(positions, data)[k] == positions[k]
  {
    InsertAllLast(positions, data, PositionName, Identity, i);
    if k in positions && Untouched(data, PositionName, k) {
      InsertAllUntouched(positions, data, PositionName, Identity, k);
    }
  }

  /** The source's same-direction test: both "buy" or both "sell". */
  predicate SameDirection(a: Direction, b: Direction) {
    (a == Buy && b == Buy) || (a == Sell && b == Sell)
  }

  /** The size-weighted mean of two (size, price) lots. */
  function WeightedMean(size1: real, price1: real, size2: real, price2: real): real
    requires size1 + size2 != 0.0
  {
    (size1 * price1 + size2 * price2) / (size1 + size2)
  }

  /** The position a fill opens on an instrument without one. */
  function Opened(f: Fill): Position {
    Position(f.instrument, f.direction, f.amount, f.price, f.markPrice)
  }

  /** The average price update of a same-direction fill, computed as the
      source does: `round(prev_entry * (prev / (prev + amount)) + entry *
      (amount / (prev + amount)), 2)`. Before rounding it is the size-weighted
      mean of the two lots. */
  function MergedAverage(prevSize: real, prevAverage: real, amount: real, price: real): (r: real)
    requires prevSize + amount != 0.0
    ensures -0.005 <= r - WeightedMean(prevSize, prevAverage, amount, price) <= 0.005
    ensures WholeCents(r)
  {
    var total := prevSize + amount;
    assert prevAverage * (prevSize / total) + price * (amount / total)
        == WeightedMean(prevSize, prevAverage, amount, price);
    Round2(prevAverage * (prevSize / total) + price * (amount / total))
  }

  /** One fill. An instrument without a position gets the position the fill
      opens. A fill in the position's direction adds its amount and moves the
      average price to the (rounded) size-weighted mean; a zero total size is
      a ZeroDivisionError. A fill in the other direction reduces the size, or,
      when it is larger than the position, flips the direction and keeps the
      excess; the average price is left as it was in both cases. */
  function ApplyFill(positions: Positions, f: Fill): (r: Outcome<Positions>)
    ensures r.state.Keys == positions.Keys + {f.instrument}
    ensures forall k :: k in positions && k != f.instrument ==> r.state[k] == positions[k]
    ensures f.instrument !in positions ==> r == Done(positions[f.instrument := Opened(f)])
    ensures f.instrument in positions ==>
      var p := positions[f.instrument];
      var q := r.state[f.instrument];
      && (r.Raised? <==> SameDirection(f.direction, p.direction) && p.size + f.amount == 0.0)
      && (r.Raised? ==> r == Raised(positions, ZeroDivisionError))
      && q.instrument == p.instrument && q.markPrice == p.markPrice
      && (r.Done? && SameDirection(f.direction, p.direction) ==>
            && q.direction == p.direction
            && q.size == p.size + f.amount
            && -0.005 <= q.averagePrice - WeightedMean(p.size, p.averagePrice, f.amount, f.price) <= 0.005
            && WholeCents(q.averagePrice))
      && (!SameDirection(f.direction, p.direction) ==>
            && q.averagePrice == p.averagePrice
            && (f.amount <= p.size ==> q.direction == p.direction && q.size == p.size - f.amount)
            && (f.amount > p.size ==> q.direction == f.direction && q.size == f.amount - p.size))
  {
    var name := f.instrument;
    if name !in positions then
      Done(positions[name := Opened(f)])
    else
      var p := positions[name];
      if SameDirection(f.direction, p.direction) then
        if p.size + f.amount == 0.0 then Raised(positions, ZeroDivisionError)
        else
          var avg := MergedAverage(p.size, p.averagePrice, f.amount, f.price);
          Done(positions[name := p.(averagePrice := avg, size := p.size + f.amount)])
      else if f.amount > p.size then
        Done(positions[name := p.(size := Abs(f.amount - p.size), direction := f.direction)])
      else
        Done(positions[name := p.(size := p.size - f.amount)])
  }

  /** The instruments a list of fills is on. */
  function FillNames(fills: seq<Fill>): set<string> {
    set i | 0 <= i < |fills| :: fills[i].instrument
  }

  /** update_positions: the fills of one message in order. When all of them
      apply, the positions gain exactly the fills' instruments; a raise is
      the ZeroDivisionError of a fill (see `RaiseStopsUpdate` for where the
      loop stops). */
  function UpdatePositions(positions: Positions, fills: seq<Fill>): (r: Outcome<Positions>)
    ensures r.Done? ==> r.state.Keys == positions.Keys + FillNames(fills)
    ensures r.Raised? ==> r.fault == ZeroDivisionError
    decreases |fills|
  {
    if |fills| == 0 then Done(positions)
    else
      var n := |fills| - 1;
      assert FillNames(fills) == FillNames(fills[..n]) + {fills[n].instrument} by {
        assert forall i :: 0 <= i < n ==> fills[..n][i] == fills[i];
      }
      match UpdatePositions(positions, fills[..n])
      case Raised(s, e) => Raised(s, e)
      case Done(s) => ApplyFill(s, fills[n])
  }

  /** A raise stops update_positions at the failing fill: the fills before it
      are applied, the failing one and those after it are not. */
  lemma {:induction false} RaiseStopsUpdate(positions: Positions, fills: seq<Fill>)
    requires UpdatePositions(positions, fills).Raised?
    ensures exists i :: (0 <= i < |fills|
      && UpdatePositions(positions, fills[..i]) == Done(UpdatePositions(positions, fills).state)
      && ApplyFill(UpdatePositions(positions, fills).state, fills[i]).Raised?)
    decreases |fills|
  {
    var n := |fills| - 1;
    var pre := fills[..n];
    var rp := UpdatePositions(positions, pre);
    var s := UpdatePositions(positions, fills).state;
    if rp.Raised? {
      assert s == rp.state;
      RaiseStopsUpdate(positions, pre);
      var i :| 0 <= i < n && UpdatePositions(positions, pre[..i]) == Done(s) && ApplyFill(s, pre[i]).Raised?;
      assert pre[..i] == fills[..i] && pre[i] == fills[i];
    } else {
      assert UpdatePositions(positions, fills) == ApplyFill(rp.state, fills[n]);
      assert s == rp.state;
    }
  }

  /** An opposing fill equal to the position's size leaves it flat in the same
      direction; its average price is untouched. */
  lemma OpposingFillOfEqualSizeFlattens(positions: Positions, f: Fill)
    requires f.instrument in positions
    requires !SameDirection(f.direction, positions[f.instrument].direction)
    requires f.amount == positions[f.instrument].size
    ensures ApplyFill(positions, f).Done?
    ensures ApplyFill(positions, f).state[f.instrument]
      == positions[f.instrument].(size := 0.0)
  {
  }

  /** An opposing fill larger than the position flips it to the fill's side,
      keeping the excess (|fill - size|) and the old average price. */
  lemma OpposingFillLargerFlips(positions: Positions, f: Fill)
    requires f.instrument in positions
    requires !SameDirection(f.direction, positions[f.instrument].direction)
    requires f.amount > positions[f.instrument].size
    ensures ApplyFill(positions, f).Done?
    ensures ApplyFill(positions, f).state[f.instrument]
      == positions[f.instrument].(size := Abs(f.amount - positions[f.instrument].size), direction := f.direction)
  {
  }

  // ---------------------------------------------------------------------
  // A run of same-direction fills tracks the volume-weighted average price

  /** Total amount of a list of fills. */
  function TotalAmount(fills: seq<Fill>): real
    decreases |fills|
  {
    if |fills| == 0 then 0.0 else TotalAmount(fills[..|fills| - 1]) + fills[|fills| - 1].amount
  }

  /** What a fill is worth: its amount times its price. */
  function Worth(f: Fill): real {
    f.amount * f.price
  }

  /** Sum of amount * price over a list of fills. */
  function Notional(fills: seq<Fill>): real
    decreases |fills|
  {
    if |fills| == 0 then 0.0
    else Notional(fills[..|fills| - 1]) + Worth(fills[|fills| - 1])
  }

  /** Every fill is on instrument `name`, on side `d`, for a positive amount. */
  ghost predicate SameSideRun(fills: seq<Fill>, name: string, d: Direction) {
    && (d == Buy || d == Sell)
    && forall i :: 0 <= i < |fills| ==>
         fills[i].instrument == name && fills[i].direction == d && fills[i].amount > 0.0
  }

  lemma DivCancel(a: real, x: real)
    requires a != 0.0
    ensures (a * x) / a == x
  {
  }

  lemma MulNonNegative(a: real, b: real)
    requires a >= 0.0 && b >= 0.0
    ensures a * b >= 0.0
  {
  }

  lemma FractionBelowOne(t: real, x: real)
    requires t > 0.0 && x > 0.0
    ensures 0.0 < t / (t + x) < 1.0
  {
    assert t / (t + x) < (t + x) / (t + x);
  }

  lemma Triangle(u: real, v: real, w: real, e1: real, e2: real)
    requires -e1 <= u - v <= e1 && -e2 <= v - w <= e2
    ensures -(e1 + e2) <= u - w <= e1 + e2
  {
  }

  /** Folding one more lot into a running average: if the running average is
      within `e` of the true mean n / t, the unrounded merged average is within
      `e` of the new true mean, because the old error is scaled by t / (t + x). */
  lemma MergeKeepsError(a: real, t: real, n: real, x: real, p: real, e: real, merged: real, mean: real)
    requires t > 0.0 && x > 0.0
    requires -e <= a - n / t <= e
    requires merged == WeightedMean(t, a, x, p) && mean == (n + x * p) / (t + x)
    ensures -e <= merged - mean <= e
  {
    var s := t + x;
    var w := t / s;
    FractionBelowOne(t, x);
    var d := a - n / t;
    assert n / s == (n / t) * w;
    assert WeightedMean(t, a, x, p) - (n + x * p) / s == (t * a - n) / s;
    assert (t * a - n) / s == d * w;
    if d >= 0.0 {
      MulNonNegative(d, 1.0 - w);
      MulNonNegative(d, w);
    } else {
      MulNonNegative(-d, 1.0 - w);
      MulNonNegative(-d, w);
    }
  }

  /** One more fill of a same-direction run, on a position of size `t` whose
      average is within `e` of the run's mean so far `n / t`, keeps it within
      `e + 0.005` of the new mean. */
  lemma VwapStep(mid: Positions, f: Fill, t: real, n: real, e: real)
    requires f.instrument in mid
    requires mid[f.instrument].direction == f.direction && (f.direction == Buy || f.direction == Sell)
    requires f.amount > 0.0 && mid[f.instrument].size == t && t > 0.0
    requires -e <= mid[f.instrument].averagePrice - n / t <= e
    ensures ApplyFill(mid, f).Done? && f.instrument in ApplyFill(mid, f).state
    ensures ApplyFill(mid, f).state[f.instrument].direction == f.direction
    ensures ApplyFill(mid, f).state[f.instrument].size == t + f.amount
    ensures -(0.005 + e) <= ApplyFill(mid, f).state[f.instrument].averagePrice
      - (n + Worth(f)) / (t + f.amount) <= 0.005 + e
  {
    var q := mid[f.instrument];
    var target := (n + Worth(f)) / (t + f.amount);
    assert Worth(f) == f.amount * f.price;
    var wm := WeightedMean(t, q.averagePrice, f.amount, f.price);
    var avg := ApplyFill(mid, f).state[f.instrument].averagePrice;
    MergeKeepsError(q.averagePrice, t, n, f.amount, f.price, e, wm, target);
    assert ApplyFill(mid, f).Done? && -0.005 <= avg - wm <= 0.005 by {
      assert SameDirection(f.direction, q.direction);
    }
    Triangle(avg, wm, target, 0.005, e);
  }

  /** After a run of `count` same-direction fills on `name`, the outcome `r`
      holds a position on side `d` of size `total`, whose average price is
      within `count - 1` roundings (0.005 each) of the run's volume-weighted
      average `notional / total`. */
  ghost predicate Tracks(r: Outcome<Positions>, count: nat, total: real, notional: real, name: string, d: Direction) {
    && r.Done? && name in r.state && total > 0.0
    && r.state[name].direction == d
    && r.state[name].size == total
    && -(count - 1) as real * 0.005 <= r.state[name].averagePrice - notional / total
    && r.state[name].averagePrice - notional / total <= (count - 1) as real * 0.005
  }

  /** Starting flat on an instrument, a run of k same-direction fills yields
      size = sum of amounts and an average price within k-1 roundings
      (0.005 each) of the volume-weighted average sum(amount*price) / sum(amount). */
  lemma {:induction false} SameSideFillsTrackVwap(positions: Positions, fills: seq<Fill>, name: string, d: Direction)
    requires name !in positions
    requires |fills| > 0 && SameSideRun(fills, name, d)
    ensures Tracks(UpdatePositions(positions, fills), |fills|, TotalAmount(fills), Notional(fills), name, d)
    decreases |fills|
  {
    if |fills| == 1 {
      RunStart(positions, fills, name, d);
    } else {
      var n := |fills| - 1;
      var pre := fills[..n];
      assert SameSideRun(pre, name, d) by {
        forall i | 0 <= i < |pre| ensures pre[i] == fills[i] { }
      }
      SameSideFillsTrackVwap(positions, pre, name, d);
      var mid, f, t, v := UpdatePositions(positions, pre).state, fills[n], TotalAmount(pre), Notional(pre);
      LastFill(positions, fills);
      assert f.instrument == name && f.direction == d && f.amount > 0.0;
      RunStep(mid, f, n, t, v, name, d);
      assert UpdatePositions(positions, fills) == ApplyFill(mid, f);
      assert TotalAmount(fills) == t + f.amount && Notional(fills) == v + Worth(f);
    }
  }

  /** The first fill of a run opens the position at its own price. */
  lemma RunStart(positions: Positions, fills: seq<Fill>, name: string, d: Direction)
    requires name !in positions
    requires |fills| == 1 && SameSideRun(fills, name, d)
    ensures Tracks(UpdatePositions(positions, fills), 1, TotalAmount(fills), Notional(fills), name, d)
  {
    var f := fills[0];
    assert fills[..0] == [];
    assert UpdatePositions(positions, fills) == ApplyFill(positions, f);
    assert TotalAmount(fills) == f.amount;
    assert Notional(fills) == Worth(f);
    DivCancel(f.amount, f.price);
  }

  /** One more fill of the run keeps the bound, one rounding wider. */
  lemma RunStep(mid: Positions, f: Fill, count: nat, t: real, v: real, name: string, d: Direction)
    requires count > 0 && Tracks(Done(mid), count, t, v, name, d)
    requires (d == Buy || d == Sell) && f.instrument == name && f.direction == d && f.amount > 0.0
    ensures Tracks(ApplyFill(mid, f), count + 1, t + f.amount, v + Worth(f), name, d)
  {
    var e := (count - 1) as real * 0.005;
    VwapStep(mid, f, t, v, e);
    assert 0.005 + e == count as real * 0.005;
  }

  /** Unfolding the last fill of a non-empty list: the running sums and the
      positions both take one more step. */
  lemma LastFill(positions: Positions, fills: seq<Fill>)
    requires |fills| > 0 && UpdatePositions(positions, fills[..|fills| - 1]).Done?
    ensures TotalAmount(fills) == TotalAmount(fills[..|fills| - 1]) + fills[|fills| - 1].amount
    ensures Notional(fills) == Notional(fills[..|fills| - 1]) + Worth(fills[|fills| - 1])
    ensures UpdatePositions(positions, fills)
      == ApplyFill(UpdatePositions(positions, fills[..|fills| - 1]).state, fills[|fills| - 1])
  {
  }

  // ---------------------------------------------------------------------
  // The source as written

  /** update_positions as written, for one fill. On an instrument without a
      position the source first stores the raw trade record under it and then
      falls through to the same-direction branch, whose read of
      `["size"]` raises KeyError: a trade record has no size or average price.
      (The raw record left behind is not a Position and is not represented.)
      Fills on instruments that already have a position behave as in
      `ApplyFill`. */
  function ApplyFillAsWritten(positions: Positions, f: Fill): (r: Outcome<Positions>)
    ensures f.instrument in positions ==> r == ApplyFill(positions, f)
    ensures f.instrument !in positions ==> r.Raised? && r.fault == KeyError("size")
  {
    if f.instrument !in positions then Raised(positions, KeyError("size"))
    else ApplyFill(positions, f)
  }

  /** update_positions as written: the same loop over `ApplyFillAsWritten`. */
  function UpdatePositionsAsWritten(positions: Positions, fills: seq<Fill>): (r: Outcome<Positions>)
    ensures r.Raised? ==> r.fault == ZeroDivisionError || r.fault == KeyError("size")
    decreases |fills|
  {
    if |fills| == 0 then Done(positions)
    else
      match UpdatePositionsAsWritten(positions, fills[..|fills| - 1])
      case Raised(s, e) => Raised(s, e)
      case Done(s) => ApplyFillAsWritten(s, fills[|fills| - 1])
  }

  /** Fills on instruments that already have a position are handled the same
      way as written and corrected. */
  lemma {:induction false} AsWrittenAgreesOnKnownInstruments(positions: Positions, fills: seq<Fill>)
    requires forall i :: 0 <= i < |fills| ==> fills[i].instrument in positions
    ensures UpdatePositionsAsWritten(positions, fills) == UpdatePositions(positions, fills)
    decreases |fills|
  {
    if |fills| > 0 {
      var n := |fills| - 1;
      assert forall i :: 0 <= i < n ==> fills[..n][i] == fills[i];
      AsWrittenAgreesOnKnownInstruments(positions, fills[..n]);
    }
  }

  /** As written, a message whose first fill is on an instrument without a
      position raises KeyError at that fill, and no later fill is applied.
      The state carried by the raise is the positions before the message:
      the raw trade record the source leaves under the new name is not
      represented. */
  lemma {:induction false} NewInstrumentFirstStopsAsWritten(positions: Positions, fills: seq<Fill>)
    requires |fills| > 0 && fills[0].instrument !in positions
    ensures UpdatePositionsAsWritten(positions, fills) == Raised(positions, KeyError("size"))
    decreases |fills|
  {
    if |fills| > 1 {
      var n := |fills| - 1;
      assert fills[..n][0] == fills[0];
      NewInstrumentFirstStopsAsWritten(positions, fills[..n]);
    } else {
      assert fills[..0] == [];
    }
  }

  /** The first fill of a new instrument never opens a position as written,
      while the corrected `ApplyFill` opens it with the fill's amount, side and
      price. */
  lemma FirstFillAsWrittenRaises(positions: Positions, f: Fill)
    requires f.instrument !in positions
    ensures ApplyFillAsWritten(positions, f).Raised?
    ensures ApplyFill(positions, f).Done?
    ensures ApplyFill(positions, f).state[f.instrument].size == f.amount
    ensures ApplyFill(positions, f).state[f.instrument].direction == f.direction
    ensures ApplyFill(positions, f).state[f.instrument].averagePrice == f.price
  {
  }
}
