/** Two short managed backtests, from their first bar on, at whose end a long position has no exit. */
module BacktestScenarios {
  import opened Models
  import opened Portfolio
  import opened StopLoss
  import opened RiskEngine
  import opened SignalBatch
  import opened BatchBounds
  import opened BatchExits
  import opened BacktestModel
  import opened BacktestRuns
  import opened BacktestExits
  import opened Scenarios
  import Exec = ExecutionEngine

  // ---- The purchase --------------------------------------------------------------------------

  function Sample(bps: real): (setup: Setup)
    ensures setup.Valid()
  {
    Setup(Plain(1.0, 0.0, 1), map[], Exec.Costs(CostConfig(NoCommission, 0.0, 0.0), Exec.FixedBps(bps)), false, 0,
          1000.0)
  }

  /** A bar of the one symbol, the strategy's signals on it, and the stops that fire. */
  function BarOf(x: Symbol, now: Time, bar: Bar, signals: seq<Signal>, fired: seq<Symbol>): BarIn {
    BarIn(now, now, map[x := bar], map[], map[], signals, fired)
  }

  /** A quiet bar on which the strategy goes long. */
  function LongBar(x: Symbol, now: Time): BarIn {
    BarOf(x, now, QUIET_BAR, [LongFor(x)], [])
  }

  function EntryBar(x: Symbol): BarIn {
    LongBar(x, 0)
  }

  /** Nothing has been filled, and it is another day. */
  predicate Untraded(s: Backtest, now: Time) {
    s.book == Book(1000.0, 1000.0, map[], []) && s.stops == map[] && s.gate.peak <= 1000.0 && s.day.date != Some(now)
  }

  /** The desk of a flat book and one long signal. */
  lemma EntryDesk(s: Backtest, x: Symbol, now: Time)
    requires Untraded(s, now)
    ensures var d := DeskAt(s, LongBar(x, now), EventsOf(s, LongBar(x, now)));
            && d.events == [LongFor(x)] && AllOpen(d) && Slots(Plain(1.0, 0.0, 1), d.book) == 1
            && EquityOf(d) == 1000.0 == d.book.cash && OpenSymbols(d.book) == {}
            && ExposureAt(d.book, map[], Closes(d.tape.bars), x) == Exposure(1000.0, 1000.0, 0.0, 0.0, 0.0)
  {
    var prices := Closes(LongBar(x, now).bars);
    assert MarketValues(s.book, prices) == map[] && Magnitudes(map[]) == map[];
    assert InSector(map[], map[], SectorOf(map[], x)) == map[];
    assert [] + [LongFor(x)] == [LongFor(x)];
  }

  lemma AllOfCapital(cash: real, equity: real, n: real, t: real)
    requires cash == equity == 1000.0 && n == 1.0 && IsEvenSlice(Plain(1.0, 0.0, 1), cash, equity, n, t)
    ensures 100.0 <= BudgetFor(equity, 1.0, t) < 101.0
  {
  }

  /** The desk asks for a tenth of the capital. */
  lemma EntryAsks(d: Desk, x: Symbol)
    requires var cfg := Plain(1.0, 0.0, 1); AllOpen(d) && d.events == [LongFor(x)] && Slots(cfg, d.book) == 1
    requires EquityOf(d) == 1000.0 == d.book.cash && x in d.tape.bars && d.tape.bars[x].close == 1.0
    ensures AsksFor(Plain(1.0, 0.0, 1), d, x, 100)
  {
    var targets := TargetsOf(Plain(1.0, 0.0, 1), d);
    assert SymbolsOf(d.events) == [x] && [x][0] == x;
    PlainTargets(1.0, 0.0, 1, d, x);
    AllOfCapital(d.book.cash, EquityOf(d), |d.events| as real, targets[x]);
    PlainSize(1.0, 0.0, 1, EquityOf(d), d.tape, targets, x, 100);
  }

  lemma EntryPlan(bps: real, s: Backtest, x: Symbol, now: Time)
    requires Untraded(s, now)
    ensures var b := LongBar(x, now);
            PlanOf(Sample(bps), Guarded(s, b), b, EventsOf(s, b)).1 == [Purchase(x, 100, s.nextId, now)]
  {
    var b := LongBar(x, now);
    EntryDesk(s, x, now);
    EntryAsks(DeskAt(s, b, EventsOf(s, b)), x);
    OneOrder(Plain(1.0, 0.0, 1), DeskAt(s, b, EventsOf(s, b)), Guarded(s, b).day, x, 100, s.nextId, now);
  }

  lemma EntryQueued(bps: real, s: Backtest, x: Symbol, now: Time)
    requires Untraded(s, now)
    ensures QueuedOf(Sample(bps), s, LongBar(x, now)) == [Purchase(x, 100, s.nextId, now)]
  {
    var setup, b := Sample(bps), LongBar(x, now);
    var d, o := DeskAt(s, b, EventsOf(s, b)), Purchase(x, 100, s.nextId, now);
    EntryDesk(s, x, now);
    EntryPlan(bps, s, x, now);
    PurchasePasses(setup.trade, s.gate, d, x, 100, s.nextId, now);
    OneMorePasses(setup.trade, s.gate, d, [], o);
    assert [] + [o] == [o];
  }

  /** A purchase of 100 is waiting, and nothing else has happened. */
  predicate Entered(s: Backtest, x: Symbol) {
    var o := Purchase(x, 100, 0, 0);
    && s.exec == Exec.Exec([o], []) && s.book == Book(1000.0, 1000.0, map[], []) && s.stops == map[]
    && 0 in s.submitted && s.submitted[0] == o
  }

  lemma AfterEntry(bps: real, x: Symbol)
    ensures var setup := Sample(bps); Entered(Run(setup, NewBacktest(setup), [EntryBar(x)]), x)
  {
    var setup := Sample(bps);
    var s := NewBacktest(setup);
    EntryQueued(bps, s, x, 0);
    FirstOrder(setup, s, EntryBar(x), Purchase(x, 100, 0, 0));
    RunOfOne(setup, EntryBar(x));
  }

  lemma RunOfOne(setup: Setup, a: BarIn)
    requires setup.Valid()
    ensures Run(setup, NewBacktest(setup), [a]) == BarDone(setup, NewBacktest(setup), a)
  {
    assert [a][..0] == [];
  }

  lemma FirstOrder(setup: Setup, s: Backtest, b: BarIn, o: Order)
    requires setup.Valid() && s.exec == Exec.Exec([], []) && s.submitted == map[] && s.stops == map[]
    requires s.index >= setup.warmup && QueuedOf(setup, s, b) == [o]
    ensures var t := BarDone(setup, s, b);
            && t.exec == Exec.Exec([o], []) && t.book == s.book && t.stops == map[]
            && t.submitted == map[o.id := o] && t.index == s.index + 1
  {
    NothingToFill(setup, s, b);
    BatchShape(setup, s, b);
    OneById(o);
  }

  lemma NothingToFill(setup: Setup, s: Backtest, b: BarIn)
    requires s.exec.pending == []
    ensures Executed(setup, s, b) == s
  {
    assert s.exec.fills + [] == s.exec.fills;
  }

  lemma OneById(o: Order)
    ensures ById([o]) == map[o.id := o]
  {
    assert [o][..0] == [];
  }

  // ---- The fill at the second open -----------------------------------------------------------

  /** 100 shares held at a price, with the stop of their purchase. */
  predicate Holds(s: Backtest, x: Symbol, price: real) {
    && s.book.positions == map[x := Holding(100, price, 0.0, Some(1))]
    && s.book.cash == 1000.0 - Worth(price, 100)
    && s.stops == map[x := NewLevel(price, 0.5, None, false, "")]
  }

  function EntryFill(setup: Setup, x: Symbol, bar: Bar): Fill {
    Exec.FillOf(setup.costs, Purchase(x, 100, 0, 0), bar, 0, 1)
  }

  lemma PurchaseBooked(setup: Setup, s: Backtest, x: Symbol, bar: Bar)
    requires Entered(s, x) && !setup.trailing && setup.costs.commission.model.NoCommission?
    ensures var f := EntryFill(setup, x, bar); Holds(FillBooked(setup, s, f), x, f.fillPrice)
  {
    assert At(s.book, x) == FLAT;
  }

  /** The one waiting purchase is filled at the open. */
  lemma PurchaseFills(setup: Setup, s: Backtest, x: Symbol, b: BarIn)
    requires Entered(s, x) && !setup.trailing && setup.costs.commission.model.NoCommission?
    requires b.now == 1 && x in b.bars && EntryFill(setup, x, b.bars[x]).fillPrice > 0.0
    ensures Holds(Executed(setup, s, b), x, EntryFill(setup, x, b.bars[x]).fillPrice)
  {
    var o, f := Purchase(x, 100, 0, 0), EntryFill(setup, x, b.bars[x]);
    OneExecuted(setup.costs, o, b.bars, b.now, 0);
    var start := s.(exec := Exec.Processed(setup.costs, s.exec, b.bars, b.now).0);
    BookedUnfolds(setup, start, [], f);
    assert [] + [f] == [f] && FillsBooked(setup, start, []) == start;
    PurchaseBooked(setup, s, x, b.bars[x]);
  }

  lemma OneExecuted(c: Exec.Costs, o: Order, bars: Exec.Bars, now: Time, firstId: nat)
    requires o.symbol in bars && Exec.PriceFor(c.slippage, o, bars[o.symbol]) > 0.0
    ensures Exec.Pass(c, [o], bars, now, firstId)
            == Exec.Outcome([Exec.FillOf(c, o, bars[o.symbol], firstId, now)], [], [])
  {
    assert [o][..0] == [];
  }

  predicate PlainCosts(setup: Setup, bps: real) {
    !setup.trailing && setup.costs == Exec.Costs(CostConfig(NoCommission, 0.0, 0.0), Exec.FixedBps(bps))
  }

  /** What the rest relies on: the costs, and a first bar that leaves the purchase waiting. */
  lemma Entry(bps: real, x: Symbol) returns (setup: Setup, a: BarIn)
    ensures setup.Valid() && PlainCosts(setup, bps)
    ensures Entered(Run(setup, NewBacktest(setup), [a]), x) && AllServed(setup, [a])
            && BetweenBars(setup, Run(setup, NewBacktest(setup), [a]))
  {
    setup, a := Sample(bps), EntryBar(x);
    AfterEntry(bps, x);
    FirstIsServed(setup, a);
    OneBarKeeps(setup, a);
  }

  /** Nothing waits for the first bar. */
  lemma FirstIsServed(setup: Setup, a: BarIn)
    requires setup.Valid()
    ensures AllServed(setup, [a])
  {
    assert [a][..0] == [];
  }

  lemma NextIsServed(setup: Setup, bars: seq<BarIn>, b: BarIn)
    requires setup.Valid() && AllServed(setup, bars) && Served(Run(setup, NewBacktest(setup), bars), b)
    ensures AllServed(setup, bars + [b])
  {
    assert (bars + [b])[..|bars|] == bars;
  }

  lemma TwoAreServed(setup: Setup, a: BarIn, b: BarIn)
    requires setup.Valid() && AllServed(setup, [a]) && Served(Run(setup, NewBacktest(setup), [a]), b)
    ensures AllServed(setup, [a, b])
  {
    NextIsServed(setup, [a], b);
    assert [a] + [b] == [a, b];
  }

  lemma OneBarKeeps(setup: Setup, a: BarIn)
    requires setup.Valid()
    ensures BetweenBars(setup, Run(setup, NewBacktest(setup), [a]))
  {
    FirstIsServed(setup, a);
    RunKeeps(setup, [a]);
  }

  lemma EntryPrice(setup: Setup, bps: real, x: Symbol, bar: Bar)
    requires setup.costs.slippage == Exec.FixedBps(bps)
    ensures bps == 0.0 ==> EntryFill(setup, x, bar).fillPrice == bar.open
    ensures bps == 10000.0 ==> EntryFill(setup, x, bar).fillPrice == bar.open + bar.open
  {
  }

  /** A bar without signals on which the stop fires. */
  lemma SecondBar(x: Symbol, bar: Bar) returns (b: BarIn)
    ensures b.now == 1 && b.bars == map[x := bar] && b.signals == [] && b.fired == [x]
  {
    b := BarOf(x, 1, bar, [], [x]);
  }

  /** The bar reaches the stop. */
  lemma StopFires(s: Backtest, x: Symbol, price: real, bar: Bar)
    requires Holds(s, x, price) && bar.low <= 0.5
    ensures Fires(s.stops, map[x := bar], x) && IsFired([x], s.stops, map[x := bar])
  {
  }

  lemma ValueHeld(s: Backtest, x: Symbol, price: real, bar: Bar)
    requires Holds(s, x, price)
    ensures EquityAt(s.book, Closes(map[x := bar])) == 1000.0 - Worth(price, 100) + Worth(bar.close, 100)
  {
    var values := MarketValues(s.book, Closes(map[x := bar]));
    TotalOfOne(values, x);
  }

  // ---- Without equity ------------------------------------------------------------------------

  const CRASH_BAR: Bar := BarData(11.0, 11.0, 0.5, 1.0, 1.0)

  lemma RunOfTwo(setup: Setup, a: BarIn, b: BarIn)
    requires setup.Valid()
    ensures Run(setup, NewBacktest(setup), [a, b]) == BarDone(setup, Run(setup, NewBacktest(setup), [a]), b)
  {
    assert [a, b][..1] == [a];
  }

  /** A stop that fires without equity leaves nothing. */
  lemma BrokeBar(setup: Setup, s: Backtest, b: BarIn, x: Symbol, price: real)
    requires setup.Valid() && BetweenBars(setup, s) && Served(s, b) && Holds(Executed(setup, s, b), x, price)
    requires Fires(Executed(setup, s, b).stops, b.bars, x)
             && EquityAt(Executed(setup, s, b).book, Closes(b.bars)) <= 0.0
    ensures var r := BarDone(setup, s, b);
            r.book == Executed(setup, s, b).book && At(r.book, x).quantity == 100 && !HasExit(r, x)
  {
    ExitAtEndOfBar(setup, s, b, x);
    BarBook(setup, s, b);
  }

  lemma CrashIsBroke(s: Backtest, x: Symbol)
    requires Holds(s, x, 11.0)
    ensures EquityAt(s.book, Closes(map[x := CRASH_BAR])) == 0.0
    ensures Fires(s.stops, map[x := CRASH_BAR], x) && IsFired([x], s.stops, map[x := CRASH_BAR])
  {
    ValueHeld(s, x, 11.0, CRASH_BAR);
    StopFires(s, x, 11.0, CRASH_BAR);
  }

  lemma CrashFills(setup: Setup, s: Backtest, b: BarIn, x: Symbol)
    requires PlainCosts(setup, 0.0) && Entered(s, x) && b.now == 1 && b.bars == map[x := CRASH_BAR]
    ensures Holds(Executed(setup, s, b), x, 11.0)
  {
    EntryPrice(setup, 0.0, x, CRASH_BAR);
    PurchaseFills(setup, s, x, b);
  }

  /** What the crash bar does to a waiting purchase. */
  ghost predicate Crashed(setup: Setup, s: Backtest, b: BarIn, x: Symbol)
    requires setup.Valid()
  {
    var r := BarDone(setup, s, b);
    && IsFired(b.fired, Executed(setup, s, b).stops, b.bars)
    && At(r.book, x).quantity == 100 && EquityAt(r.book, Closes(b.bars)) == 0.0 && !HasExit(r, x)
  }

  lemma CrashBar(setup: Setup, s: Backtest, b: BarIn, x: Symbol)
    requires setup.Valid() && PlainCosts(setup, 0.0) && Entered(s, x) && BetweenBars(setup, s) && Served(s, b)
    requires b.now == 1 && b.bars == map[x := CRASH_BAR] && b.fired == [x]
    ensures Crashed(setup, s, b, x)
  {
    CrashFills(setup, s, b, x);
    CrashIsBroke(Executed(setup, s, b), x);
    BrokeBar(setup, s, b, x, 11.0);
  }

  /** Decided at 1 and filled at 11, the purchase takes all the cash and more. The stop fires on the same bar while
      equity is nothing, the gate refuses the exit, and the position is left with neither a level nor a sale. */
  lemma BrokeExitIsLost(x: Symbol) returns (setup: Setup, a: BarIn, b: BarIn)
    ensures setup.Valid() && AllServed(setup, [a, b])
            && Crashed(setup, Run(setup, NewBacktest(setup), [a]), b, x)
    ensures var r := Run(setup, NewBacktest(setup), [a, b]);
            At(r.book, x).quantity == 100 && EquityAt(r.book, Closes(b.bars)) == 0.0 && !HasExit(r, x)
  {
    setup, a := Entry(0.0, x);
    b := SecondBar(x, CRASH_BAR);
    TwoAreServed(setup, a, b);
    CrashBar(setup, Run(setup, NewBacktest(setup), [a]), b, x);
    CrashEndsRun(setup, a, b, x);
  }

  lemma CrashEndsRun(setup: Setup, a: BarIn, b: BarIn, x: Symbol)
    requires setup.Valid() && Crashed(setup, Run(setup, NewBacktest(setup), [a]), b, x)
    ensures var r := Run(setup, NewBacktest(setup), [a, b]);
            At(r.book, x).quantity == 100 && EquityAt(r.book, Closes(b.bars)) == 0.0 && !HasExit(r, x)
  {
    RunOfTwo(setup, a, b);
  }

  // ---- With a sale refused -------------------------------------------------------------------

  const DIP_BAR: Bar := BarData(1.0, 1.0, 0.5, 1.0, 1.0)

  lemma RunOfThree(setup: Setup, a: BarIn, b: BarIn, c: BarIn)
    requires setup.Valid()
    ensures Run(setup, NewBacktest(setup), [a, b, c]) == BarDone(setup, Run(setup, NewBacktest(setup), [a, b]), c)
  {
    assert [a, b, c][..2] == [a, b];
  }

  /** A stop that fires while equity is positive leaves a sale. */
  lemma StopBecomesSale(setup: Setup, s: Backtest, b: BarIn, x: Symbol)
    requires setup.Valid() && BetweenBars(setup, s) && Served(s, b) && b.fired == [x]
    requires At(Executed(setup, s, b).book, x).quantity > 0
             && EquityAt(Executed(setup, s, b).book, Closes(b.bars)) > 0.0
    ensures var t, r := Executed(setup, s, b), BarDone(setup, s, b);
            && r.book == t.book && r.stops == LevelsAfter(t.stops, b.bars)
            && SaleQueued(r.exec.pending, x, At(r.book, x).quantity)
  {
    var t := Executed(setup, s, b);
    ExecutedKeeps(setup, s, b);
    assert x in OpenSymbols(t.book);
    BatchShape(setup, t, b);
    FiredIsChosen(setup, t, b, x);
    SaleIsQueued(setup, t, b, x);
  }

  lemma DipFills(setup: Setup, s: Backtest, b: BarIn, x: Symbol)
    requires PlainCosts(setup, 10000.0) && Entered(s, x) && b.now == 1 && b.bars == map[x := DIP_BAR]
    ensures Holds(Executed(setup, s, b), x, 2.0)
  {
    EntryPrice(setup, 10000.0, x, DIP_BAR);
    PurchaseFills(setup, s, x, b);
  }

  lemma DipIsSolvent(s: Backtest, x: Symbol)
    requires Holds(s, x, 2.0)
    ensures EquityAt(s.book, Closes(map[x := DIP_BAR])) == 900.0
    ensures Fires(s.stops, map[x := DIP_BAR], x) && IsFired([x], s.stops, map[x := DIP_BAR])
    ensures LevelsAfter(s.stops, map[x := DIP_BAR]) == map[]
  {
    ValueHeld(s, x, 2.0, DIP_BAR);
    StopFires(s, x, 2.0, DIP_BAR);
  }

  predicate OnlyFor(orders: seq<Order>, x: Symbol) {
    forall o :: o in orders ==> o.symbol == x
  }

  /** Where one symbol is held and only that one has a bar, a batch is about that symbol. */
  lemma BatchIsForOne(setup: Setup, s: Backtest, b: BarIn, x: Symbol)
    requires setup.Valid() && BookOk(setup, s) && OpenSymbols(s.book) <= {x} && b.bars.Keys == {x}
    ensures OnlyFor(QueuedOf(setup, s, b), x)
  {
    QueuedAreGood(setup, s, b);
    forall o | o in QueuedOf(setup, s, b) ensures o.symbol == x {
      assert o.side.Sell? ==> o.symbol in OpenSymbols(s.book);
    }
  }

  /** What the dip does to a waiting purchase: the stop fires, and a sale of the position is waiting. */
  ghost predicate Dipped(setup: Setup, s: Backtest, b: BarIn, x: Symbol)
    requires setup.Valid()
  {
    var r := BarDone(setup, s, b);
    && IsFired(b.fired, Executed(setup, s, b).stops, b.bars) && EquityAt(r.book, Closes(b.bars)) == 900.0
    && At(r.book, x).quantity == 100 && r.stops == map[] && SaleQueued(r.exec.pending, x, 100)
    && OnlyFor(r.exec.pending, x)
  }

  lemma DipIsForOne(setup: Setup, s: Backtest, b: BarIn, x: Symbol)
    requires setup.Valid() && BetweenBars(setup, s) && Served(s, b) && b.bars.Keys == {x} && s.index >= setup.warmup
    requires Holds(Executed(setup, s, b), x, 2.0)
    ensures OnlyFor(BarDone(setup, s, b).exec.pending, x)
  {
    ExecutedKeeps(setup, s, b);
    BatchShape(setup, Executed(setup, s, b), b);
    BatchIsForOne(setup, Executed(setup, s, b), b, x);
  }

  lemma DipBar(setup: Setup, s: Backtest, b: BarIn, x: Symbol)
    requires setup.Valid() && PlainCosts(setup, 10000.0) && Entered(s, x) && BetweenBars(setup, s)
             && s.index >= setup.warmup
             && Served(s, b)
    requires b.now == 1 && b.bars == map[x := DIP_BAR] && b.fired == [x]
    ensures Dipped(setup, s, b, x)
  {
    var t := Executed(setup, s, b);
    DipFills(setup, s, b, x);
    DipIsSolvent(t, x);
    StopBecomesSale(setup, s, b, x);
    DipIsForOne(setup, s, b, x);
  }

  lemma {:induction false} RefusedFillNothing(c: Exec.Costs, waiting: seq<Order>, bars: Exec.Bars, now: Time,
                                              firstId: nat)
    requires forall o :: o in waiting ==> Exec.FateOf(c, o, bars).Refused?
    ensures Exec.Pass(c, waiting, bars, now, firstId).fills == []
  {
    if waiting != [] {
      var init, o := waiting[..|waiting| - 1], waiting[|waiting| - 1];
      assert waiting == init + [o];
      RefusedFillNothing(c, init, bars, now, firstId);
    }
  }

  /** Where only sales of what is held are waiting, slippage of the whole price refuses them all. */
  lemma NothingSold(setup: Setup, s: Backtest, x: Symbol, b: BarIn)
    requires BetweenBars(setup, s) && At(s.book, x).quantity != 0 && x in b.bars && OnlyFor(s.exec.pending, x)
    requires setup.costs.slippage.FixedBps? && setup.costs.slippage.bps >= 10000.0
    ensures Executed(setup, s, b).book == s.book && Executed(setup, s, b).stops == s.stops
  {
    forall o | o in s.exec.pending ensures Exec.FateOf(setup.costs, o, b.bars).Refused? {
      assert Fits(s.book, o) && o.symbol == x;
      Exec.FixedSlippageRefuses(setup.costs, o, b.bars);
    }
    RefusedFillNothing(setup.costs, s.exec.pending, b.bars, b.now, |s.exec.fills|);
  }

  lemma NoSignals(cfg: Config, d: Desk)
    requires d.events == []
    ensures ClosingSignals(cfg, d) == []
  {
    assert Chosen([]) == [];
  }

  /** The next open refuses the sale, and no signal repeats it. */
  lemma RefusingBar(setup: Setup, s: Backtest, b: BarIn, x: Symbol)
    requires setup.Valid() && BetweenBars(setup, s) && x in b.bars && At(s.book, x).quantity == 100
             && s.stops == map[] && OnlyFor(s.exec.pending, x)
    requires setup.costs.slippage.FixedBps? && setup.costs.slippage.bps >= 10000.0 && b.signals == [] && b.fired == []
    ensures var r := BarDone(setup, s, b); At(r.book, x).quantity == 100 && !HasExit(r, x)
  {
    var t := Executed(setup, s, b);
    NothingSold(setup, s, x, b);
    assert EventsOf(t, b) == [];
    NoSignals(setup.trade, DeskAt(t, b, EventsOf(t, b)));
    ExitAtEndOfBar(setup, s, b, x);
    BarBook(setup, s, b);
  }

  /** With slippage of the whole price the sale of a fired stop is refused at the next open and dropped: the position
      stays, with neither a level nor a sale, although equity is positive when the stop fires. */
  lemma RefusedExitIsLost(x: Symbol) returns (setup: Setup, a: BarIn, b: BarIn, c: BarIn)
    ensures setup.Valid() && AllServed(setup, [a, b, c])
    ensures Dipped(setup, Run(setup, NewBacktest(setup), [a]), b, x)
    ensures var r := Run(setup, NewBacktest(setup), [a, b, c]); At(r.book, x).quantity == 100 && !HasExit(r, x)
  {
    setup, a := Entry(10000.0, x);
    b := SecondBar(x, DIP_BAR);
    c := BarOf(x, 2, QUIET_BAR, [], []);
    DipBar(setup, Run(setup, NewBacktest(setup), [a]), b, x);
    BarKeeps(setup, Run(setup, NewBacktest(setup), [a]), b);
    ThreeAreServed(setup, a, b, c, x);
    RefusalEndsRun(setup, a, b, c, x);
  }

  lemma ThreeAreServed(setup: Setup, a: BarIn, b: BarIn, c: BarIn, x: Symbol)
    requires setup.Valid() && AllServed(setup, [a]) && Served(Run(setup, NewBacktest(setup), [a]), b)
    requires OnlyFor(BarDone(setup, Run(setup, NewBacktest(setup), [a]), b).exec.pending, x) && x in c.bars
    ensures AllServed(setup, [a, b, c])
  {
    RunOfTwo(setup, a, b);
    TwoAreServed(setup, a, b);
    assert [a, b] + [c] == [a, b, c];
    NextIsServed(setup, [a, b], c);
  }

  lemma RefusalEndsRun(setup: Setup, a: BarIn, b: BarIn, c: BarIn, x: Symbol)
    requires setup.Valid() && setup.costs.slippage.FixedBps? && setup.costs.slippage.bps >= 10000.0
    requires var s := BarDone(setup, Run(setup, NewBacktest(setup), [a]), b);
             && BetweenBars(setup, s) && At(s.book, x).quantity == 100 && s.stops == map[]
             && OnlyFor(s.exec.pending, x)
    requires x in c.bars && c.signals == [] && c.fired == []
    ensures var r := Run(setup, NewBacktest(setup), [a, b, c]); At(r.book, x).quantity == 100 && !HasExit(r, x)
  {
    RefusingBar(setup, BarDone(setup, Run(setup, NewBacktest(setup), [a]), b), c, x);
    RunOfTwo(setup, a, b);
    RunOfThree(setup, a, b, c);
  }
}
