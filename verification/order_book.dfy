/** Order-book reconstruction of the data feed: a snapshot message replaces an
    instrument's book, change messages then apply ordered level operations
    (data_feed.py, build_ob_from_snapshots and update_ob). */
module OrderBook {
  import opened Outcomes
  import opened LastWins

  /** The first element of a level triple: "new", "change", "delete" or any
      other word, which the feed ignores. */
  datatype BookOp = New | Change | Delete | OtherOp(word: string)

  /** One `[op, price, amount]` entry of a book message. */
  datatype Level = Level(op: BookOp, price: real, amount: real)

  /** A message of a `book.<instrument>.raw` channel, snapshot or change. */
  datatype BookMessage = BookMessage(instrument: string, bids: seq<Level>, asks: seq<Level>)

  /** One side of a book: price -> amount. */
  type Side = map<real, real>

  datatype Book = Book(bids: Side, asks: Side)

  /** The whole local book: instrument -> book. */
  type Books = map<string, Book>

  // ---------------------------------------------------------------------
  // Snapshots

  function LevelPrice(l: Level): real { l.price }
  function LevelAmount(l: Level): real { l.amount }

  /** The side a snapshot list describes; the op word of each entry is not
      looked at. */
  function SideFromSnapshot(levels: seq<Level>): Side {
    InsertAll(map[], levels, LevelPrice, LevelAmount)
  }

  /** The prices a list of levels mentions. */
  ghost function Prices(levels: seq<Level>): set<real> {
    set i | 0 <= i < |levels| :: levels[i].price
  }

  /** A snapshot installs a fresh book for its instrument holding exactly the
      snapshot's prices, whatever was there before; other instruments keep
      their books. */
  function BuildObFromSnapshot(ob: Books, snap: BookMessage): (r: Books)
    ensures r.Keys == ob.Keys + {snap.instrument}
    ensures r[snap.instrument].bids.Keys == Prices(snap.bids)
    ensures r[snap.instrument].asks.Keys == Prices(snap.asks)
    ensures forall k :: k in ob && k != snap.instrument ==> r[k] == ob[k]
  {
    assert KeysOf(snap.bids, LevelPrice) == Prices(snap.bids);
    assert KeysOf(snap.asks, LevelPrice) == Prices(snap.asks);
    ob[snap.instrument := Book(SideFromSnapshot(snap.bids), SideFromSnapshot(snap.asks))]
  }

  /** Within a snapshot list, the last entry for a price gives its amount
      (a later duplicate price overwrites an earlier one). */
  lemma SnapshotLastEntryWins(levels: seq<Level>, i: int)
    requires IsLast(levels, LevelPrice, i)
    ensures levels[i].price in SideFromSnapshot(levels)
    ensures SideFromSnapshot(levels)[levels[i].price] == levels[i].amount
  {
    InsertAllLast(map[], levels, LevelPrice, LevelAmount, i);
  }

  /** The book a snapshot installs does not depend on the book it replaces. */
  lemma SnapshotForgetsHistory(ob1: Books, ob2: Books, snap: BookMessage)
    ensures BuildObFromSnapshot(ob1, snap)[snap.instrument] == BuildObFromSnapshot(ob2, snap)[snap.instrument]
  {
  }

  // ---------------------------------------------------------------------
  // Incremental updates

  /** One level operation on one side: delete removes the price (KeyError
      keyed by that price when it is absent), new and change store the
      amount, anything else is ignored. */
  function ApplyLevel(side: Side, l: Level): (r: Result<Side>)
    ensures r.Err? <==> l.op.Delete? && l.price !in side
    ensures r.Err? ==> r.fault == PriceKeyError(l.price)
  {
    match l.op
    case Delete => if l.price in side then Ok(side - {l.price}) else Err(PriceKeyError(l.price))
    case New => Ok(side[l.price := l.amount])
    case Change => Ok(side[l.price := l.amount])
    case OtherOp(_) => Ok(side)
  }

  /** The levels of one side of a message, in order; a KeyError stops the
      loop and leaves the levels already applied in place. The error is
      keyed by the price of a delete that is absent from that side. */
  function ApplyLevels(side: Side, levels: seq<Level>): (r: Outcome<Side>)
    ensures r.Raised? ==> r.fault.PriceKeyError?
    ensures r.Raised? ==>
      exists i :: && 0 <= i < |levels| && levels[i].op.Delete?
                  && levels[i].price == r.fault.price && levels[i].price !in r.state
    ensures NoDelete(levels) ==> r.Done?
    decreases |levels|
  {
    if |levels| == 0 then Done(side)
    else
      match ApplyLevels(side, levels[..|levels| - 1])
      case Raised(s, f) => Raised(s, f)
      case Done(s) =>
        match ApplyLevel(s, levels[|levels| - 1])
        case Ok(s') => Done(s')
        case Err(f) => Raised(s, f)
  }

  /** No level of the list is a delete. */
  predicate NoDelete(levels: seq<Level>) {
    forall i :: 0 <= i < |levels| ==> !levels[i].op.Delete?
  }

  /** `levels[i]` is a new/change/delete of price `p` and no later level of
      the list is. */
  ghost predicate LastTouch(levels: seq<Level>, p: real, i: int) {
    && 0 <= i < |levels|
    && levels[i].price == p && !levels[i].op.OtherOp?
    && forall j :: i < j < |levels| ==> levels[j].price != p || levels[j].op.OtherOp?
  }

  /** No level of the list is a new/change/delete of price `p`. */
  ghost predicate NeverTouched(levels: seq<Level>, p: real) {
    forall j :: 0 <= j < |levels| ==> levels[j].price != p || levels[j].op.OtherOp?
  }

  /** The side `after` is what `levels` make of `before`, price by price: a
      price no operation touches is as before; otherwise the last operation
      on it decides: absent after a delete, the operation's amount after a
      new or change. */
  ghost predicate Reflects(before: Side, levels: seq<Level>, after: Side) {
    && (forall p :: NeverTouched(levels, p) ==> (p in after <==> p in before))
    && (forall p :: NeverTouched(levels, p) && p in before ==> after[p] == before[p])
    && (forall p, i :: LastTouch(levels, p, i) && levels[i].op.Delete? ==> p !in after)
    && (forall p, i :: LastTouch(levels, p, i) && !levels[i].op.Delete? ==> p in after && after[p] == levels[i].amount)
  }

  /** A run of level operations that completes produces the side the
      price-by-price description `Reflects` gives. */
  lemma {:induction false} ApplyLevelsReflects(side: Side, levels: seq<Level>)
    requires ApplyLevels(side, levels).Done?
    ensures Reflects(side, levels, ApplyLevels(side, levels).state)
    decreases |levels|
  {
    if |levels| == 0 {
      return;
    }
    var n := |levels| - 1;
    var pre := levels[..n];
    var l := levels[n];
    ApplyLevelsReflects(side, pre);
    var mid := ApplyLevels(side, pre).state;
    var after := ApplyLevels(side, levels).state;
    assert ApplyLevel(mid, l) == Ok(after);
    forall p | NeverTouched(levels, p)
      ensures (p in after <==> p in side) && (p in side ==> after[p] == side[p])
    {
      assert NeverTouched(pre, p) by {
        forall j | 0 <= j < n ensures pre[j].price != p || pre[j].op.OtherOp? {
          assert pre[j] == levels[j];
        }
      }
      assert l.price != p || l.op.OtherOp?;
    }
    forall p, i | LastTouch(levels, p, i)
      ensures levels[i].op.Delete? ==> p !in after
      ensures !levels[i].op.Delete? ==> p in after && after[p] == levels[i].amount
    {
      if i < n {
        assert LastTouch(pre, p, i) by {
          forall j | i < j < n ensures pre[j].price != p || pre[j].op.OtherOp? {
            assert pre[j] == levels[j];
          }
        }
        assert l.price != p || l.op.OtherOp?;
      }
    }
  }

  /** Applying `a + b` is applying `a`, then `b` to what `a` left (unless `a`
      already raised). */
  lemma {:induction false} ApplyLevelsAppend(side: Side, a: seq<Level>, b: seq<Level>)
    ensures ApplyLevels(side, a + b) ==
      match ApplyLevels(side, a)
      case Done(s) => ApplyLevels(s, b)
      case Raised(s, f) => Raised(s, f)
    decreases |b|
  {
    if |b| == 0 {
      assert a + b == a;
    } else {
      var n := |b| - 1;
      ApplyLevelsAppend(side, a, b[..n]);
      assert (a + b)[..|a + b| - 1] == a + b[..n];
      assert (a + b)[|a + b| - 1] == b[n];
    }
  }

  /** A level other than new/change/delete. */
  predicate Inert(l: Level) { l.op.OtherOp? }

  /** update_ob: bids first, then asks, on the book of the message's
      instrument. The first new/change/delete of an instrument that has no
      book raises KeyError before anything changes; a message made only of
      unknown words does not touch the book at all. */
  function UpdateOb(ob: Books, msg: BookMessage): (r: Outcome<Books>)
    ensures r.state.Keys == ob.Keys
    ensures forall k :: k in ob && k != msg.instrument ==> r.state[k] == ob[k]
    ensures msg.instrument !in ob ==>
      r == (if forall i :: 0 <= i < |msg.bids + msg.asks| ==> Inert((msg.bids + msg.asks)[i])
            then Done(ob) else Raised(ob, KeyError(msg.instrument)))
    ensures msg.instrument in ob && r.Done? ==>
      && Reflects(ob[msg.instrument].bids, msg.bids, r.state[msg.instrument].bids)
      && Reflects(ob[msg.instrument].asks, msg.asks, r.state[msg.instrument].asks)
    ensures msg.instrument in ob && ApplyLevels(ob[msg.instrument].bids, msg.bids).Raised? ==>
      r.Raised? && r.state[msg.instrument].asks == ob[msg.instrument].asks
    ensures msg.instrument in ob ==>
      (r.Raised? <==> ApplyLevels(ob[msg.instrument].bids, msg.bids).Raised?
                      || ApplyLevels(ob[msg.instrument].asks, msg.asks).Raised?)
    ensures msg.instrument in ob && r.Raised? ==>
      var bids := ApplyLevels(ob[msg.instrument].bids, msg.bids);
      r.fault == (if bids.Raised? then bids.fault
                  else ApplyLevels(ob[msg.instrument].asks, msg.asks).fault)
    ensures msg.instrument in ob && r.Raised? ==>
      && r.fault.PriceKeyError?
      && ((exists i :: 0 <= i < |msg.bids| && msg.bids[i].op.Delete? && msg.bids[i].price == r.fault.price)
          || (exists i :: 0 <= i < |msg.asks| && msg.asks[i].op.Delete? && msg.asks[i].price == r.fault.price))
  {
    var c := msg.instrument;
    if c !in ob then
      if forall i :: 0 <= i < |msg.bids + msg.asks| ==> Inert((msg.bids + msg.asks)[i])
      then Done(ob) else Raised(ob, KeyError(c))
    else
      var book := ob[c];
      match ApplyLevels(book.bids, msg.bids)
      case Raised(b, f) => Raised(ob[c := book.(bids := b)], f)
      case Done(b) =>
        ApplyLevelsReflects(book.bids, msg.bids);
        match ApplyLevels(book.asks, msg.asks)
        case Raised(a, f) => Raised(ob[c := Book(b, a)], f)
        case Done(a) =>
          ApplyLevelsReflects(book.asks, msg.asks);
          Done(ob[c := Book(b, a)])
  }

  /** The worked example: snapshot bids {100: 5}, asks {101: 3}, then a
      change of bid 100 to 2, gives bids {100: 2} and asks {101: 3}. */
  lemma SnapshotThenChangeExample(ob: Books)
    ensures
      var snap := BookMessage("X", [Level(New, 100.0, 5.0)], [Level(New, 101.0, 3.0)]);
      var delta := BookMessage("X", [Level(Change, 100.0, 2.0)], []);
      UpdateOb(BuildObFromSnapshot(ob, snap), delta)
        == Done(BuildObFromSnapshot(ob, snap)["X" := Book(map[100.0 := 2.0], map[101.0 := 3.0])])
  {
    var snap := BookMessage("X", [Level(New, 100.0, 5.0)], [Level(New, 101.0, 3.0)]);
    var delta := BookMessage("X", [Level(Change, 100.0, 2.0)], []);
    var ob1 := BuildObFromSnapshot(ob, snap);
    assert ob1["X"] == Book(map[100.0 := 5.0], map[101.0 := 3.0]) by {
      assert [Level(New, 100.0, 5.0)][..0] == [];
      assert [Level(New, 101.0, 3.0)][..0] == [];
    }
    assert [Level(Change, 100.0, 2.0)][..0] == [];
    assert map[100.0 := 5.0][100.0 := 2.0] == map[100.0 := 2.0];
  }
}
