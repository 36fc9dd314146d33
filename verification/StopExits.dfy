/** What both engines do with stop levels around a fill and after a stop check. */
module StopExits {
  import opened Models
  import opened StopLoss
  import opened SignalBatch

  /** The stop levels after a fill that leaves `h` held: a closing or flattening fill drops the level, a purchase
      with a planned stop registers one at the fill price. */
  function StopsFor(trailing: bool, stops: Levels, h: Holding, f: Fill, order: Order): Levels {
    var tags := order.tags;
    if tags.closing || h.quantity <= 0 then stops - {f.symbol}
    else if f.side.Buy? && tags.stopPrice.Some? && tags.stopPrice.value != 0.0 then
      stops[f.symbol := NewLevel(f.fillPrice, tags.stopPrice.value, tags.takeProfit, trailing, order.strategyId)]
    else stops
  }

  /** `_sync_stop_state` on the tracker. */
  method SyncLevels(tracker: StopLossTracker, h: Holding, fill: Fill, order: Order)
    requires tracker.Valid()
    modifies tracker
    ensures tracker.Valid() && fresh(tracker.Repr() - old(tracker.Repr()))
    ensures tracker.State() == StopsFor(tracker.defaultTrailing, old(tracker.State()), h, fill, order)
  {
    if order.tags.closing || h.quantity <= 0 {
      tracker.Deregister(fill.symbol);
    } else if fill.side.Buy? && order.tags.stopPrice.Some? && order.tags.stopPrice.value != 0.0 {
      tracker.Register(fill.symbol, fill.fillPrice, order.tags.stopPrice.value, order.strategyId,
                       order.tags.takeProfit, None);
    }
  }

  /** The exit signals of the levels that fired. */
  function StopSignals(fired: seq<Symbol>, levels: Levels): seq<Signal> {
    if fired == [] then []
    else
      var s := fired[|fired| - 1];
      StopSignals(fired[..|fired| - 1], levels)
      + [Signal(s, Flat, true, if s in levels then levels[s].strategyId else "", 0)]
  }

  /** Each symbol that fires gets one signal, in the order given: FLAT, marked as a stop exit, in the name of the
      strategy its level was registered for. */
  lemma {:induction false} OneExitEach(fired: seq<Symbol>, levels: Levels)
    ensures var exits := StopSignals(fired, levels);
            && |exits| == |fired|
            && forall i :: 0 <= i < |fired| ==>
                 && exits[i].symbol == fired[i] && exits[i].direction.Flat? && exits[i].fromStop
                 && (fired[i] in levels ==> exits[i].strategyId == levels[fired[i]].strategyId)
  {
    if fired != [] {
      OneExitEach(fired[..|fired| - 1], levels);
    }
  }

  /** The stop check together with the exit signals it raises. */
  method RaiseStops(tracker: StopLossTracker, bars: Bars) returns (fired: seq<Symbol>, exits: seq<Signal>)
    requires tracker.Valid()
    modifies tracker.Repr()
    ensures tracker.Valid() && tracker.Repr() <= old(tracker.Repr())
    ensures IsFired(fired, old(tracker.State()), bars) && exits == StopSignals(fired, old(tracker.State()))
    ensures tracker.State() == LevelsAfter(old(tracker.State()), bars)
  {
    ghost var levels := tracker.State();
    var owners := map s | s in tracker.levels :: tracker.levels[s].strategyId;
    assert owners == map s | s in levels :: levels[s].strategyId;
    fired := tracker.CheckStops(bars);
    exits := ExitSignals(fired, owners, levels);
  }

  method ExitSignals(fired: seq<Symbol>, owners: map<Symbol, string>, ghost levels: Levels) returns (exits: seq<Signal>)
    requires owners == map s | s in levels :: levels[s].strategyId
    ensures exits == StopSignals(fired, levels)
  {
    exits := [];
    for i := 0 to |fired|
      invariant exits == StopSignals(fired[..i], levels)
    {
      assert fired[..i + 1][..i] == fired[..i];
      exits := exits + [Signal(fired[i], Flat, true, if fired[i] in owners then owners[fired[i]] else "", 0)];
    }
    assert fired[..|fired|] == fired;
  }

  // ---- What a fill means for its symbol ------------------------------------------------------

  /** The order plans a stop, and the fill is a purchase that leaves the symbol long. */
  predicate Protects(h: Holding, f: Fill, order: Order) {
    && h.quantity > 0 && f.side.Buy? && !order.tags.closing
    && order.tags.stopPrice.Some? && order.tags.stopPrice.value != 0.0
  }

  /** A fill ends the level of its symbol when its order closes or nothing long is left, and otherwise keeps it or sets
      one; the other symbols keep theirs. */
  lemma LevelAfterFill(trailing: bool, stops: Levels, h: Holding, f: Fill, order: Order, x: Symbol)
    ensures var t := StopsFor(trailing, stops, h, f, order);
            if x == f.symbol && (order.tags.closing || h.quantity <= 0) then x !in t
            else if x == f.symbol && Protects(h, f, order) then x in t
            else (x in t <==> x in stops) && (x in stops ==> t[x] == stops[x])
  {
  }

  /** The stop in force after some bars: the planned one, or what the highest price has pulled it up to if it trails, at
      the distance of the plan and at least a cent. */
  function StopInForce(entry: real, planned: real, trailing: bool, bars: seq<Bar>): real {
    if !trailing then planned else MaxR(planned, HighestSince(entry, bars) - MaxR(entry - planned, 0.01))
  }

  /** The bar reaches neither the stop in force at it nor the target. */
  predicate Spares(f: Fill, order: Order, trailing: bool, bars: seq<Bar>, k: nat)
    requires k < |bars| && order.tags.stopPrice.Some?
  {
    && bars[k].low > StopInForce(f.fillPrice, order.tags.stopPrice.value, trailing, bars[..k + 1])
    && (order.tags.takeProfit.Some? ==> bars[k].high < order.tags.takeProfit.value)
  }

  /** A purchase with a planned stop is watched from its fill price on: its level is there as long as every bar of the
      symbol since has spared it, and holds the stop in force. */
  lemma PurchaseIsProtected(trailing: bool, stops: Levels, h: Holding, f: Fill, order: Order, events: seq<Event>)
    requires Protects(h, f, order) && LeftAlone(events, f.symbol)
    ensures var after, seen := Tracked(StopsFor(trailing, stops, h, f, order), events), BarsOf(events, f.symbol);
            && (f.symbol in after <==> forall k :: 0 <= k < |seen| ==> Spares(f, order, trailing, seen, k))
            && (f.symbol in after ==>
                  && after[f.symbol].stop == StopInForce(f.fillPrice, order.tags.stopPrice.value, trailing, seen)
                  && after[f.symbol].strategyId == order.strategyId)
  {
    var tags, seen := order.tags, BarsOf(events, f.symbol);
    var l := NewLevel(f.fillPrice, tags.stopPrice.value, tags.takeProfit, trailing, order.strategyId);
    RegistrationLives(stops, f.symbol, l, events);
    RatchetClosedForm(l, seen);
    forall k | 0 <= k < |seen| ensures Exits(l, seen, k) <==> !Spares(f, order, trailing, seen, k) {
    }
  }
}
