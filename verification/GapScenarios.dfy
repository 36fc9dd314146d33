/** Two short managed backtests with bars missing, from their first bar on: a sale that is repeated until the position
    is short, and a purchase that waits while its slot is given away. */
module GapScenarios {
  import opened Models
  import opened Portfolio
  import opened StopLoss
  import opened RiskEngine
  import opened SignalBatch
  import opened BatchBounds
  import opened BacktestModel
  import opened BacktestFills
  import opened BacktestGaps
  import opened Scenarios
  import opened BacktestScenarios
  import Exec = ExecutionEngine

  lemma RunGrows(setup: Setup, bars: seq<BarIn>, b: BarIn)
    requires setup.Valid()
    ensures Run(setup, NewBacktest(setup), bars + [b]) == BarDone(setup, Run(setup, NewBacktest(setup), bars), b)
    ensures NoneTwice(setup, bars + [b]) <==>
              NoneTwice(setup, bars) && ExecutesOnceEach(setup, Run(setup, NewBacktest(setup), bars), b)
  {
    assert (bars + [b])[..|bars|] == bars;
  }

  // ---- A sale repeated -----------------------------------------------------------------------

  function FlatFor(x: Symbol): Signal {
    Signal(x, Flat, false, "", 0)
  }

  /** A quiet bar of `y`, on which the strategy wants out of `x`. */
  function FlatBar(y: Symbol, x: Symbol, now: Time): BarIn {
    BarOf(y, now, QUIET_BAR, [FlatFor(x)], [])
  }

  /** The sale of all that is held. */
  function SaleOf(b: Book, x: Symbol, id: OrderId, now: Time): Order
    requires At(b, x).quantity != 0
  {
    CloseOrder(b, FlatFor(x), id, now)
  }

  lemma FlatIsClosed(cfg: Config, d: Desk, x: Symbol)
    requires d.events == [FlatFor(x)] && At(d.book, x).quantity != 0
    ensures ClosingSignals(cfg, d) == [FlatFor(x)] && OpeningSignals(cfg, d) == []
  {
    ChosenAsGiven(d.events);
    ActingAlike(d.book, d.stopped, cfg.coverShorts, d.events, Close);
  }

  lemma FlatIsPlanned(cfg: Config, d: Desk, day: Day, firstId: OrderId, now: Time, x: Symbol)
    requires cfg.Valid() && d.events == [FlatFor(x)] && At(d.book, x).quantity != 0
    ensures Candidates(cfg, d, day, firstId, now).1 == [SaleOf(d.book, x, firstId, now)]
  {
    FlatIsClosed(cfg, d, x);
    assert [FlatFor(x)][..0] == [] && CloseOrders(d.book, [], firstId, now) == [];
    assert [] + [SaleOf(d.book, x, firstId, now)] == [SaleOf(d.book, x, firstId, now)];
    assert ClosingOrders(cfg, d, firstId, now) == [SaleOf(d.book, x, firstId, now)];
  }

  lemma SaleGoesThrough(cfg: Config, g: Gate, d: Desk, o: Order)
    requires EquityOf(d) > 0.0 && o.side.Sell? && At(d.book, o.symbol).quantity > 0
    ensures PassedOf(cfg, map[], g, d, [o]) == [o]
  {
    var prices := Closes(d.tape.bars);
    ClosingPasses(cfg.limits, g, ExposureAt(d.book, map[], prices, o.symbol), At(d.book, o.symbol), o.side,
                  PriceOf(prices, o.symbol), o.quantity);
    OneMorePasses(cfg, g, d, [], o);
    assert [] + [o] == [o];
  }

  /** While the position is held, each such signal sends a sale of all of it. */
  lemma FlatIsSent(setup: Setup, s: Backtest, y: Symbol, x: Symbol, now: Time)
    requires setup.Valid() && setup.sectors == map[] && s.index >= setup.warmup && At(s.book, x).quantity > 0
    requires EquityAt(s.book, Closes(FlatBar(y, x, now).bars)) > 0.0
    ensures Sent(setup, s, FlatBar(y, x, now)) == [SaleOf(s.book, x, s.nextId, now)]
  {
    var b := FlatBar(y, x, now);
    var d := DeskAt(s, b, EventsOf(s, b));
    assert [] + [FlatFor(x)] == [FlatFor(x)];
    FlatIsPlanned(setup.trade, d, Guarded(s, b).day, s.nextId, now, x);
    SaleGoesThrough(setup.trade, s.gate, d, SaleOf(s.book, x, s.nextId, now));
  }

  /** 100 shares bought at 1 out of 1000. */
  predicate Bought(b: Book, x: Symbol) {
    b.positions == map[x := Holding(100, 1.0, 0.0, Some(1))] && b.cash == 900.0
  }

  /** And `n` sales of them waiting. */
  predicate Waits(setup: Setup, s: Backtest, x: Symbol, n: nat) {
    && Bought(s.book, x) && s.book == Replayed(setup.initialCapital, s.book.fills)
    && |s.exec.pending| == n && s.index >= setup.warmup
    && forall o :: o in s.exec.pending ==> o.symbol == x && o.side.Sell? && o.quantity == 100
  }

  lemma HeldIsWorth(s: Backtest, x: Symbol, y: Symbol)
    requires Bought(s.book, x)
    ensures EquityAt(s.book, Closes(map[y := QUIET_BAR])) == if x == y then 1000.0 else 900.0
  {
    var values := MarketValues(s.book, Closes(map[y := QUIET_BAR]));
    if x == y {
      TotalOfOne(values, x);
    } else {
      assert values == map[];
    }
  }

  lemma {:induction false} AllMissing(orders: seq<Order>, bars: Exec.Bars)
    requires forall o :: o in orders ==> o.symbol !in bars
    ensures Missing(orders, bars) == orders
  {
    if orders != [] {
      assert orders == orders[..|orders| - 1] + [orders[|orders| - 1]];
      AllMissing(orders[..|orders| - 1], bars);
    }
  }

  /** With no bar of its own the position stays, its sales wait on, and the signal adds another. */
  lemma SaleIsRepeated(setup: Setup, s: Backtest, x: Symbol, y: Symbol, now: Time, n: nat)
    requires setup.Valid() && setup.sectors == map[] && Waits(setup, s, x, n) && x != y
    ensures Waits(setup, BarDone(setup, s, FlatBar(y, x, now)), x, n + 1)
    ensures ExecutesOnceEach(setup, s, FlatBar(y, x, now))
  {
    var b := FlatBar(y, x, now);
    var t := Executed(setup, s, b);
    var fills := OpenLeaves(setup, s, b);
    ExecutingMembers(setup.costs, s.exec.pending, b.bars);
    NoneExecutes(setup.costs, s.exec.pending, b.bars);
    assert s.book.fills + fills == s.book.fills;
    AllMissing(s.exec.pending, b.bars);
    OpenShape(setup, s, b);
    HeldIsWorth(t, x, y);
    FlatIsSent(setup, t, y, x, now);
    BarLeaves(setup, s, b);
  }

  lemma {:induction false} NoneExecutes(c: Exec.Costs, orders: seq<Order>, bars: Exec.Bars)
    requires forall o :: o in orders ==> o.symbol !in bars
    ensures Executing(c, orders, bars) == []
  {
    if orders != [] {
      assert orders == orders[..|orders| - 1] + [orders[|orders| - 1]];
      NoneExecutes(c, orders[..|orders| - 1], bars);
    }
  }

  lemma FirstPurchase(setup: Setup, s: Backtest, x: Symbol)
    requires PlainCosts(setup, 0.0) && Entered(s, x)
    ensures Bought(Executed(setup, s, FlatBar(x, x, 1)).book, x)
  {
    EntryPrice(setup, 0.0, x, QUIET_BAR);
    PurchaseFills(setup, s, x, FlatBar(x, x, 1));
  }

  /** The bar on which the purchase is filled at 1, and the first sale is sent. */
  lemma FirstSale(setup: Setup, s: Backtest, x: Symbol)
    requires setup.Valid() && setup.sectors == map[] && PlainCosts(setup, 0.0) && setup.warmup == 0 && Entered(s, x)
    requires s.book == Replayed(setup.initialCapital, s.book.fills)
    ensures Waits(setup, BarDone(setup, s, FlatBar(x, x, 1)), x, 1)
    ensures ExecutesOnceEach(setup, s, FlatBar(x, x, 1))
  {
    var b := FlatBar(x, x, 1);
    var t := Executed(setup, s, b);
    FirstPurchase(setup, s, x);
    HeldIsWorth(t, x, x);
    FlatIsSent(setup, t, x, x, 1);
    BarLeaves(setup, s, b);
    FirstLeaves(setup, s, b);
  }

  lemma FirstLeaves(setup: Setup, s: Backtest, b: BarIn)
    requires s.book == Replayed(setup.initialCapital, s.book.fills)
    requires |s.exec.pending| == 1 && s.exec.pending[0].symbol in b.bars
    ensures Missing(s.exec.pending, b.bars) == [] && ExecutesOnceEach(setup, s, b)
    ensures Executed(setup, s, b).book == Replayed(setup.initialCapital, Executed(setup, s, b).book.fills)
  {
    var _ := OpenLeaves(setup, s, b);
    MissingMembers(s.exec.pending, b.bars);
    ExecutingMembers(setup.costs, s.exec.pending, b.bars);
    assert DistinctSymbols(s.exec.pending);
    assert s.exec.pending[..0] == [];
  }

  lemma {:induction false} AllExecute(c: Exec.Costs, orders: seq<Order>, bars: Exec.Bars)
    requires forall o :: o in orders ==> Exec.FateOf(c, o, bars).Executed?
    ensures Executing(c, orders, bars) == orders
  {
    if orders != [] {
      assert orders == orders[..|orders| - 1] + [orders[|orders| - 1]];
      AllExecute(c, orders[..|orders| - 1], bars);
    }
  }

  /** 100 shares leave with each sale, whether they are there or not. */
  lemma {:induction false} SalesAddUp(setup: Setup, s: Backtest, fills: seq<Fill>, x: Symbol)
    requires forall f :: f in fills ==> f.symbol == x && f.side.Sell? && f.quantity == 100
    ensures At(FillsBooked(setup, s, fills).book, x).quantity == At(s.book, x).quantity - 100 * |fills|
  {
    if fills != [] {
      assert fills == fills[..|fills| - 1] + [fills[|fills| - 1]];
      SalesAddUp(setup, s, fills[..|fills| - 1], x);
    }
  }

  /** When the symbol has a bar again, all the sales are executed. */
  lemma SalesExecute(setup: Setup, s: Backtest, x: Symbol, b: BarIn, n: nat)
    requires setup.Valid() && PlainCosts(setup, 0.0) && Waits(setup, s, x, n) && x in b.bars
    ensures At(BarDone(setup, s, b).book, x).quantity == 100 - 100 * n
    ensures n >= 2 ==> !ExecutesOnceEach(setup, s, b)
  {
    var waiting := s.exec.pending;
    forall o | o in waiting ensures Exec.FateOf(setup.costs, o, b.bars).Executed? {
      Exec.FixedSlippageRefuses(setup.costs, o, b.bars);
    }
    AllExecute(setup.costs, waiting, b.bars);
    var (e, r) := Exec.Processed(setup.costs, s.exec, b.bars, b.now);
    PassFulfils(setup.costs, waiting, b.bars, b.now, |s.exec.fills|);
    forall f | f in r.fills ensures f.symbol == x && f.side.Sell? && f.quantity == 100 {
      var i :| 0 <= i < |r.fills| && r.fills[i] == f;
      assert Fulfils(f, waiting[i]) && waiting[i] in waiting;
    }
    SalesAddUp(setup, s.(exec := e), r.fills, x);
    BarLeaves(setup, s, b);
    if n >= 2 {
      assert waiting[0] in waiting && waiting[1] in waiting;
    }
  }

  predicate Basic(setup: Setup) {
    setup.Valid() && PlainCosts(setup, 0.0) && setup.sectors == map[] && setup.warmup == 0
  }

  ghost predicate SalesWait(setup: Setup, bars: seq<BarIn>, x: Symbol, n: nat)
    requires setup.Valid()
  {
    Waits(setup, Run(setup, NewBacktest(setup), bars), x, n) && NoneTwice(setup, bars)
  }

  lemma OneSaleWaits(x: Symbol) returns (setup: Setup, bars: seq<BarIn>)
    ensures Basic(setup) && SalesWait(setup, bars, x, 1)
  {
    setup := Sample(0.0);
    var a, b := EntryBar(x), FlatBar(x, x, 1);
    bars := [a] + [b];
    AfterEntry(0.0, x);
    FirstExecutesNothing(setup, a);
    RunReplays(setup, [a]);
    FirstSale(setup, Run(setup, NewBacktest(setup), [a]), x);
    RunGrows(setup, [a], b);
  }

  lemma FirstExecutesNothing(setup: Setup, a: BarIn)
    requires setup.Valid()
    ensures NoneTwice(setup, [a])
  {
    assert [a][..0] == [] && NewBacktest(setup).exec.pending == [];
  }

  lemma AnotherSaleWaits(setup: Setup, bars: seq<BarIn>, x: Symbol, y: Symbol, now: Time, n: nat)
    requires Basic(setup) && SalesWait(setup, bars, x, n) && x != y
    ensures SalesWait(setup, bars + [FlatBar(y, x, now)], x, n + 1)
  {
    SaleIsRepeated(setup, Run(setup, NewBacktest(setup), bars), x, y, now, n);
    RunGrows(setup, bars, FlatBar(y, x, now));
  }

  /** Two bars without the symbol, and a strategy that keeps asking out: the three sales of one position are executed
      together, the first closes it, the second opens a short position and the third adds to that. */
  lemma RepeatedSaleGoesShort(x: Symbol, y: Symbol) returns (setup: Setup, bars: seq<BarIn>, b: BarIn)
    requires x != y
    ensures setup.Valid() && NoneTwice(setup, bars) && !NoneTwice(setup, bars + [b])
    ensures At(Run(setup, NewBacktest(setup), bars).book, x).quantity == 100
    ensures At(Run(setup, NewBacktest(setup), bars + [b]).book, x).quantity == -200
  {
    var first;
    setup, first := OneSaleWaits(x);
    AnotherSaleWaits(setup, first, x, y, 2, 1);
    AnotherSaleWaits(setup, first + [FlatBar(y, x, 2)], x, y, 3, 2);
    bars, b := first + [FlatBar(y, x, 2)] + [FlatBar(y, x, 3)], BarOf(x, 4, QUIET_BAR, [], []);
    SalesExecute(setup, Run(setup, NewBacktest(setup), bars), x, b, 3);
    RunGrows(setup, bars, b);
  }

  // ---- A slot given away ---------------------------------------------------------------------

  predicate IsSample(setup: Setup) {
    Basic(setup) && setup.trade == Plain(1.0, 0.0, 1) && setup.initialCapital == 1000.0
  }

  /** What a batch does to the gate and the day. */
  lemma BatchRest(setup: Setup, t: Backtest, b: BarIn)
    requires setup.Valid() && setup.sectors == map[]
    ensures var r, d := Closed(Batched(setup, Guarded(t, b), b, EventsOf(t, b)), b), DeskAt(t, b, EventsOf(t, b));
            && r.day.date == Guarded(t, b).day.date && r.gate.peak <= MaxR(t.gate.peak, EquityOf(d))
            && r.book == t.book && r.stops == LevelsAfter(t.stops, b.bars)
  {
    var d, g := DeskAt(t, b, EventsOf(t, b)), Guarded(t, b);
    PeakStays(setup.trade, t.gate, d, Candidates(setup.trade, d, g.day, t.nextId, b.now).1);
    DateStays(setup.trade, d, g.day, t.nextId, b.now);
  }

  lemma FlatIsWorthCash(s: Backtest, prices: Prices)
    requires s.book == Book(1000.0, 1000.0, map[], [])
    ensures EquityAt(s.book, prices) == 1000.0
  {
    assert MarketValues(s.book, prices) == map[];
  }

  lemma NoLevelsLeft(bars: Exec.Bars)
    ensures LevelsAfter(map[], bars) == map[]
  {
  }

  /** A bar later nothing but the day has changed. */
  lemma StillUntraded(s: Backtest, t: Backtest, now: Time)
    requires Untraded(s, now) && t.book == s.book && t.stops == s.stops && t.day.date == Some(now)
             && t.gate.peak <= 1000.0
    ensures Untraded(t, now + 1)
  {
  }

  lemma WaitingIsUntraded(setup: Setup, t: Backtest, b: BarIn)
    requires setup.Valid() && setup.sectors == map[] && Untraded(t, b.now) && b.date == b.now
    ensures Untraded(Closed(Batched(setup, Guarded(t, b), b, EventsOf(t, b)), b), b.now + 1)
  {
    var r := Closed(Batched(setup, Guarded(t, b), b, EventsOf(t, b)), b);
    BatchRest(setup, t, b);
    assert r.gate.peak <= 1000.0 by {
      FlatIsWorthCash(t, Closes(b.bars));
    }
    assert r.stops == t.stops by {
      NoLevelsLeft(b.bars);
    }
    StillUntraded(t, r, b.now);
  }

  /** The batch of such a bar. */
  lemma EntryIsSent(setup: Setup, s: Backtest, x: Symbol, now: Time)
    requires IsSample(setup) && Untraded(s, now)
    ensures Sent(setup, s, LongBar(x, now)) == [Purchase(x, 100, s.nextId, now)]
  {
    assert setup == Sample(0.0);
    EntryQueued(0.0, s, x, now);
  }

  /** The strategy goes long on another symbol than those waited for. */
  lemma EntryWaits(setup: Setup, s: Backtest, b: BarIn, o: Order)
    requires setup.Valid() && setup.sectors == map[] && s.book == Replayed(setup.initialCapital, s.book.fills)
    requires Untraded(s, b.now) && b.date == b.now && Sent(setup, s, b) == [o]
    requires forall p :: p in s.exec.pending ==> p.symbol !in b.bars
    ensures var t := BarDone(setup, s, b);
            t.exec.pending == s.exec.pending + [o] && Untraded(t, b.now + 1) && ExecutesOnceEach(setup, s, b)
  {
    NothingExecutes(setup, s, b);
    BarLeaves(setup, s, b);
    WaitingIsUntraded(setup, s, b);
  }

  lemma OthersMiss(waiting: seq<Order>, x: Symbol, now: Time)
    requires forall o :: o in waiting ==> o.symbol != x
    ensures forall o :: o in waiting ==> o.symbol !in LongBar(x, now).bars
  {
  }

  lemma NothingExecutes(setup: Setup, s: Backtest, b: BarIn)
    requires forall o :: o in s.exec.pending ==> o.symbol !in b.bars
    ensures Executed(setup, s, b) == s && ExecutesOnceEach(setup, s, b)
    ensures Missing(s.exec.pending, b.bars) == s.exec.pending
  {
    NoneExecutes(setup.costs, s.exec.pending, b.bars);
    AllMissing(s.exec.pending, b.bars);
    PassFulfils(setup.costs, s.exec.pending, b.bars, b.now, |s.exec.fills|);
    assert s.exec.fills + [] == s.exec.fills;
  }

  /** A run in which nothing has been filled, with its waiting orders. */
  ghost predicate Idle(setup: Setup, bars: seq<BarIn>, now: Time, waiting: seq<Order>)
    requires setup.Valid()
  {
    var s := Run(setup, NewBacktest(setup), bars);
    Untraded(s, now) && NoneTwice(setup, bars) && s.exec.pending == waiting
  }

  lemma StartsIdle(setup: Setup, now: Time)
    requires setup.Valid() && setup.initialCapital == 1000.0
    ensures Idle(setup, [], now, [])
  {
  }

  /** One bar more on which nothing is filled. */
  lemma IdleBar(setup: Setup, bars: seq<BarIn>, b: BarIn, later: Time, waiting: seq<Order>, o: Order)
    requires setup.Valid() && setup.sectors == map[]
    requires Idle(setup, bars, b.now, waiting) && b.date == b.now && later == b.now + 1
    requires forall p :: p in waiting ==> p.symbol !in b.bars
    requires Sent(setup, Run(setup, NewBacktest(setup), bars), b) == [o]
    ensures Idle(setup, bars + [b], later, waiting + [o])
  {
    var s := Run(setup, NewBacktest(setup), bars);
    RunReplays(setup, bars);
    EntryWaits(setup, s, b, o);
    RunGrows(setup, bars, b);
  }

  lemma StaysIdle(setup: Setup, bars: seq<BarIn>, x: Symbol, now: Time, later: Time, waiting: seq<Order>)
    returns (more: seq<BarIn>, left: seq<Order>, o: Order)
    requires IsSample(setup) && Idle(setup, bars, now, waiting) && forall o :: o in waiting ==> o.symbol != x
    requires later == now + 1
    ensures Idle(setup, more, later, left) && left == waiting + [o] && o.symbol == x && o.side.Buy?
  {
    o := Purchase(x, 100, Run(setup, NewBacktest(setup), bars).nextId, now);
    more, left := bars + [LongBar(x, now)], waiting + [o];
    OthersMiss(waiting, x, now);
    EntryIsSent(setup, Run(setup, NewBacktest(setup), bars), x, now);
    IdleBar(setup, bars, LongBar(x, now), later, waiting, o);
  }

  predicate TwoPurchasesWait(waiting: seq<Order>, x: Symbol, y: Symbol) {
    && |waiting| == 2 && waiting[0].symbol == x && waiting[1].symbol == y
    && waiting[0].side.Buy? && waiting[1].side.Buy?
  }

  ghost predicate PairWaits(setup: Setup, bars: seq<BarIn>, x: Symbol, y: Symbol)
    requires setup.Valid()
  {
    var s := Run(setup, NewBacktest(setup), bars);
    TwoPurchasesWait(s.exec.pending, x, y) && NoneTwice(setup, bars) && s.book.positions == map[]
  }

  predicate OneOf(one: seq<Order>, x: Symbol, y: Symbol) {
    && |one| == 1 && one[0].symbol == x && one[0].side.Buy?
    && forall o :: o in one ==> o.symbol != y
  }

  /** After a bar of one symbol, and then one of another, a purchase of each is waiting. */
  lemma TwoWait(setup: Setup, x: Symbol, y: Symbol) returns (bars: seq<BarIn>)
    requires IsSample(setup) && x != y
    ensures PairWaits(setup, bars, x, y)
  {
    StartsIdle(setup, 0);
    var first, one, o := StaysIdle(setup, [], x, 0, 1, []);
    FirstOfTwo(o, one, x, y);
    var waiting, p;
    bars, waiting, p := StaysIdle(setup, first, y, 1, 2, one);
    PairUp(one, p, waiting, x, y);
  }

  lemma FirstOfTwo(o: Order, one: seq<Order>, x: Symbol, y: Symbol)
    requires one == [] + [o] && o.symbol == x && o.side.Buy? && x != y
    ensures OneOf(one, x, y)
  {
  }

  lemma PairUp(one: seq<Order>, o: Order, waiting: seq<Order>, x: Symbol, y: Symbol)
    requires OneOf(one, x, y) && o.symbol == y && o.side.Buy? && waiting == one + [o]
    ensures TwoPurchasesWait(waiting, x, y)
  {
  }

  lemma BothExecute(setup: Setup, waiting: seq<Order>, bars: Exec.Bars, x: Symbol, y: Symbol)
    requires Basic(setup) && TwoPurchasesWait(waiting, x, y) && x in bars && y in bars
    ensures Executing(setup.costs, waiting, bars) == waiting
  {
    forall o | o in waiting ensures Exec.FateOf(setup.costs, o, bars).Executed? {
      Exec.FixedSlippageRefuses(setup.costs, o, bars);
    }
    AllExecute(setup.costs, waiting, bars);
  }

  lemma PairIsDistinct(waiting: seq<Order>, x: Symbol, y: Symbol)
    requires TwoPurchasesWait(waiting, x, y) && x != y
    ensures DistinctSymbols(waiting)
  {
  }

  lemma BothAreOpen(before: Book, after: Book, waiting: seq<Order>, x: Symbol, y: Symbol)
    requires TwoPurchasesWait(waiting, x, y) && Traded(before, after, waiting) && before.positions == map[]
    ensures OpenSymbols(after) == {x, y}
  {
    assert waiting[0] in waiting && waiting[1] in waiting;
    forall z ensures z in OpenSymbols(after) <==> z == x || z == y {
      assert z != x && z != y ==> At(after, z) == At(before, z);
    }
  }

  lemma BothAreFilled(setup: Setup, s: Backtest, b: BarIn, x: Symbol, y: Symbol)
    requires Basic(setup) && Fitting(setup, s) && TwoPurchasesWait(s.exec.pending, x, y) && s.book.positions == map[]
    requires x != y && x in b.bars && y in b.bars
    ensures ExecutesOnceEach(setup, s, b) && OpenSymbols(BarDone(setup, s, b).book) == {x, y}
  {
    BothExecute(setup, s.exec.pending, b.bars, x, y);
    PairIsDistinct(s.exec.pending, x, y);
    OpenTradesExactly(setup, s, b);
    BarLeaves(setup, s, b);
    BothAreOpen(s.book, Executed(setup, s, b).book, s.exec.pending, x, y);
  }

  lemma BothFill(setup: Setup, bars: seq<BarIn>, x: Symbol, y: Symbol) returns (all: seq<BarIn>)
    requires Basic(setup) && PairWaits(setup, bars, x, y) && x != y
    ensures NoneTwice(setup, all) && OpenSymbols(Run(setup, NewBacktest(setup), all).book) == {x, y}
  {
    var b := BarIn(2, 2, map[x := QUIET_BAR, y := QUIET_BAR], map[], map[], [], []);
    all := bars + [b];
    TradesFitExactly(setup, bars);
    BothAreFilled(setup, Run(setup, NewBacktest(setup), bars), b, x, y);
    RunGrows(setup, bars, b);
  }

  /** One position is allowed. The purchase of `x` waits for a bar while the slot, still free, goes to `y`; then both
      are filled. */
  lemma WaitingPurchaseOverfills(x: Symbol, y: Symbol) returns (setup: Setup, bars: seq<BarIn>)
    requires x != y
    ensures setup.Valid() && setup.trade.day.maxOpen == 1 && NoneTwice(setup, bars)
    ensures OpenSymbols(Run(setup, NewBacktest(setup), bars).book) == {x, y}
  {
    setup := Sample(0.0);
    var first := TwoWait(setup, x, y);
    bars := BothFill(setup, first, x, y);
  }
}
