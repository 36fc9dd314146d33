/** The exits of the managed backtest: when exactly a long position keeps a stop level or a full-quantity sale on its
    way, and that every level belongs to a long position. */
module BacktestExits {
  import opened Models
  import opened Portfolio
  import opened StopLoss
  import opened StopExits
  import opened SignalBatch
  import opened BatchBounds
  import opened BatchExits
  import opened BacktestModel
  import opened BacktestRuns
  import Exec = ExecutionEngine

  predicate Sells(orders: seq<Order>, x: Symbol) {
    exists o :: o in orders && o.side.Sell? && o.symbol == x
  }

  /** A long position without a level has its whole quantity up for sale at the next open. */
  ghost predicate HasExit(s: Backtest, x: Symbol) {
    x in s.stops || SaleQueued(s.exec.pending, x, At(s.book, x).quantity)
  }

  // ---- Fills at the open ---------------------------------------------------------------------

  /** Every open position has a level, or a sale among the orders still to be filled. */
  predicate ExitAhead(t: Backtest, orders: seq<Order>) {
    forall x :: x in OpenSymbols(t.book) ==> x in t.stops || Sells(orders, x)
  }

  lemma FillMovesExit(setup: Setup, t: Backtest, ps: seq<Order>, n: nat, f: Fill)
    requires n < |ps| && Fits(t.book, ps[n]) && Fulfils(f, ps[n]) && Known(t, ps[n]) && LongOnly(t.book)
             && LevelsHeld(t)
    requires ExitAhead(t, ps[n..])
    ensures ExitAhead(FillBooked(setup, t, f), ps[n + 1..])
  {
    var o, u := ps[n], FillBooked(setup, t, f);
    FillTrades(setup, t, o, f);
    forall x | x in OpenSymbols(u.book) ensures x in u.stops || Sells(ps[n + 1..], x) {
      if x != o.symbol && x !in t.stops {
        var p :| p in ps[n..] && p.side.Sell? && p.symbol == x;
        var i :| 0 <= i < |ps[n..]| && ps[n..][i] == p;
        assert ps[n + 1..][i - 1] == p;
      }
    }
  }

  /** No waiting sale is refused at this open. */
  ghost predicate SalesFill(setup: Setup, s: Backtest, b: BarIn) {
    forall o :: o in s.exec.pending && o.side.Sell? ==> !Exec.FateOf(setup.costs, o, b.bars).Refused?
  }

  /** An order that is not executed is a purchase, and leaves every sale ahead where it is. */
  lemma SkipKeepsExit(t: Backtest, ps: seq<Order>, n: nat)
    requires n < |ps| && ps[n].side.Buy? && ExitAhead(t, ps[n..])
    ensures ExitAhead(t, ps[n + 1..])
  {
    forall x | x in OpenSymbols(t.book) ensures x in t.stops || Sells(ps[n + 1..], x) {
      if x !in t.stops {
        var p :| p in ps[n..] && p.side.Sell? && p.symbol == x;
        var i :| 0 <= i < |ps[n..]| && ps[n..][i] == p;
        assert ps[n + 1..][i - 1] == p;
      }
    }
  }

  lemma {:induction false} FillsMoveExits(setup: Setup, s: Backtest, start: Backtest, b: BarIn,
                                          n: nat, t: Backtest)
    requires n <= |s.exec.pending| && BookOk(setup, s) && WaitingOk(setup, s)
    requires Served(s, b) && SalesFill(setup, s, b) && ExitAhead(s, s.exec.pending)
    requires start.book == s.book && start.stops == s.stops && start.submitted == s.submitted
    requires t == BookedTo(setup, s, start, b, n)
    ensures ExitAhead(t, s.exec.pending[n..])
    decreases n
  {
    var ps := s.exec.pending;
    if n == 0 {
      assert ps[..0] == [] && ps[0..] == ps;
    } else {
      var before := BookedTo(setup, s, start, b, n - 1);
      FillsMoveExits(setup, s, start, b, n - 1, before);
      FillsKeep(setup, s, start, b, n - 1, before);
      NextMovesExit(setup, s, start, b, n - 1, before, t);
    }
  }

  lemma NextMovesExit(setup: Setup, s: Backtest, start: Backtest, b: BarIn, n: nat,
                      before: Backtest, t: Backtest)
    requires n < |s.exec.pending| && WaitingOk(setup, s) && Served(s, b) && SalesFill(setup, s, b)
    requires before == BookedTo(setup, s, start, b, n) && Midway(setup, s, before, n)
    requires t == BookedTo(setup, s, start, b, n + 1) && ExitAhead(before, s.exec.pending[n..])
    ensures ExitAhead(t, s.exec.pending[n + 1..])
  {
    var ps, o := s.exec.pending, s.exec.pending[n];
    OneMoreBooked(setup, s, start, b, n);
    assert o in ps && ps[n..][0] == o;
    if Exec.FateOf(setup.costs, o, b.bars).Executed? {
      FillMovesExit(setup, before, ps, n, NextFill(setup, s, b, n));
    } else {
      SkipKeepsExit(before, ps, n);
    }
  }

  /** After an open that refuses no sale every open position has a level. */
  lemma OpenHasLevels(setup: Setup, s: Backtest, b: BarIn)
    requires BetweenBars(setup, s) && Served(s, b) && SalesFill(setup, s, b)
             && ExitAhead(s, s.exec.pending)
    ensures var t := Executed(setup, s, b); OpenSymbols(t.book) <= t.stops.Keys
  {
    var ps := s.exec.pending;
    var start := s.(exec := Exec.Processed(setup.costs, s.exec, b.bars, b.now).0);
    assert ps[..|ps|] == ps && ps[|ps|..] == [];
    FillsMoveExits(setup, s, start, b, |ps|, BookedTo(setup, s, start, b, |ps|));
  }

  // ---- A stop that fires becomes a sale ------------------------------------------------------

  /** What is held when its stop fires is up for sale. */
  lemma FiredIsChosen(setup: Setup, s: Backtest, b: BarIn, x: Symbol)
    requires x in b.fired && At(s.book, x).quantity > 0
    ensures UpForSale(EventsOf(s, b), true, x)
  {
    StopSignalFor(b.fired, s.stops, x);
    var stop :| stop in StopSignals(b.fired, s.stops) && stop.symbol == x && stop.fromStop;
    assert stop in EventsOf(s, b);
    ExitIsChosen(setup.trade, DeskAt(s, b, EventsOf(s, b)), x);
    HeldLongCloses(setup.trade, DeskAt(s, b, EventsOf(s, b)), x);
  }

  /** A bar queues a sale of the whole of a position exactly when there is one, equity is positive, and the position is
      up for sale. */
  lemma SaleIsQueued(setup: Setup, s: Backtest, b: BarIn, x: Symbol)
    requires setup.Valid() && LongOnly(s.book)
    ensures SaleQueued(QueuedOf(setup, s, b), x, At(s.book, x).quantity) <==>
              && EquityAt(s.book, Closes(b.bars)) > 0.0 && At(s.book, x).quantity > 0
              && UpForSale(EventsOf(s, b), x in b.fired, x)
  {
    var d := DeskAt(s, b, EventsOf(s, b));
    SaleIsExact(setup.trade, setup.sectors, s.gate, d, Guarded(s, b).day, s.nextId, b.now, x);
  }

  // ---- One bar -------------------------------------------------------------------------------

  /** After the open: the level is there and does not fire on this bar, or the position is up for sale while equity is
      positive. */
  ghost predicate ExitStands(setup: Setup, t: Backtest, b: BarIn, x: Symbol) {
    || (x in t.stops && !Fires(t.stops, b.bars, x))
    || (EquityAt(t.book, Closes(b.bars)) > 0.0 && UpForSale(EventsOf(t, b), x in b.fired, x))
  }

  /** A position held after the open has an exit at the end of the bar exactly in these two cases. */
  lemma ExitAtEndOfBar(setup: Setup, s: Backtest, b: BarIn, x: Symbol)
    requires setup.Valid() && BetweenBars(setup, s) && Served(s, b)
    requires At(Executed(setup, s, b).book, x).quantity != 0
    ensures HasExit(BarDone(setup, s, b), x) <==> ExitStands(setup, Executed(setup, s, b), b, x)
  {
    var t := Executed(setup, s, b);
    ExecutedKeeps(setup, s, b);
    BatchShape(setup, t, b);
    assert x in OpenSymbols(t.book);
    SaleIsQueued(setup, t, b, x);
  }

  ghost predicate AllHaveExits(s: Backtest) {
    forall x :: At(s.book, x).quantity != 0 ==> HasExit(s, x)
  }

  ghost predicate ExitsStand(setup: Setup, s: Backtest, b: BarIn) {
    var t := Executed(setup, s, b);
    forall x :: At(t.book, x).quantity != 0 ==> ExitStands(setup, t, b, x)
  }

  lemma BarKeepsExits(setup: Setup, s: Backtest, b: BarIn)
    requires setup.Valid() && BetweenBars(setup, s) && Served(s, b)
    ensures AllHaveExits(BarDone(setup, s, b)) <==> ExitsStand(setup, s, b)
  {
    var t, r := Executed(setup, s, b), BarDone(setup, s, b);
    BarBook(setup, s, b);
    forall x | At(t.book, x).quantity != 0 ensures HasExit(r, x) <==> ExitStands(setup, t, b, x) {
      ExitAtEndOfBar(setup, s, b, x);
    }
  }

  lemma BarBook(setup: Setup, s: Backtest, b: BarIn)
    requires setup.Valid() && BetweenBars(setup, s) && Served(s, b)
    ensures BarDone(setup, s, b).book == Executed(setup, s, b).book
  {
    ExecutedKeeps(setup, s, b);
    BatchShape(setup, Executed(setup, s, b), b);
  }

  // ---- Runs ----------------------------------------------------------------------------------

  /** Exits are in place at the end of every bar. */
  ghost predicate ExitsThroughout(setup: Setup, bars: seq<BarIn>)
    requires setup.Valid()
  {
    AllHaveExits(Run(setup, NewBacktest(setup), bars)) && (bars == [] || ExitsThroughout(setup, bars[..|bars| - 1]))
  }

  ghost predicate AllStand(setup: Setup, bars: seq<BarIn>)
    requires setup.Valid()
  {
    bars == [] ||
    var init := bars[..|bars| - 1];
    AllStand(setup, init) && ExitsStand(setup, Run(setup, NewBacktest(setup), init), bars[|bars| - 1])
  }

  /** Over every managed backtest every level belongs to a long position, and every long position has a level or a
      full-quantity sale pending at the end of each bar exactly when on each bar every position held after the open
      keeps a level that does not fire, or is signalled to be closed while equity is positive. */
  lemma {:induction false} ExitsAreExact(setup: Setup, bars: seq<BarIn>)
    requires setup.Valid() && AllServed(setup, bars)
    ensures ExitsThroughout(setup, bars) <==> AllStand(setup, bars)
    ensures LevelsHeld(Run(setup, NewBacktest(setup), bars))
  {
    RunKeeps(setup, bars);
    if bars != [] {
      var init, b := bars[..|bars| - 1], bars[|bars| - 1];
      ExitsAreExact(setup, init);
      RunKeeps(setup, init);
      BarKeepsExits(setup, Run(setup, NewBacktest(setup), init), b);
    } else {
      assert forall x :: At(NewBacktest(setup).book, x).quantity == 0;
    }
  }

  // ---- When nothing goes wrong ---------------------------------------------------------------

  /** The stops of the input are those that fire, and equity is positive when there are any. */
  ghost predicate SolventAtStops(setup: Setup, s: Backtest, b: BarIn) {
    var t := Executed(setup, s, b);
    && IsFired(b.fired, t.stops, b.bars)
    && ((exists x :: Fires(t.stops, b.bars, x)) ==> EquityAt(t.book, Closes(b.bars)) > 0.0)
  }

  ghost predicate Healthy(setup: Setup, s: Backtest, b: BarIn) {
    SalesFill(setup, s, b) && SolventAtStops(setup, s, b)
  }

  lemma HeldAreOpen(b: Book, levels: Levels)
    requires OpenSymbols(b) <= levels.Keys
    ensures forall x :: At(b, x).quantity != 0 ==> x in levels
  {
    forall x | At(b, x).quantity != 0 ensures x in levels {
      assert x in OpenSymbols(b);
    }
  }

  lemma ExitsAreAhead(s: Backtest)
    requires AllHaveExits(s)
    ensures ExitAhead(s, s.exec.pending)
  {
    forall x | x in OpenSymbols(s.book) ensures x in s.stops || Sells(s.exec.pending, x) {
      assert HasExit(s, x);
    }
  }

  /** On a healthy bar exits that are in place stay in place. */
  lemma HealthyBarStands(setup: Setup, s: Backtest, b: BarIn)
    requires setup.Valid() && BetweenBars(setup, s) && Served(s, b) && Healthy(setup, s, b)
             && AllHaveExits(s)
    ensures ExitsStand(setup, s, b)
  {
    var t := Executed(setup, s, b);
    ExitsAreAhead(s);
    OpenHasLevels(setup, s, b);
    HeldAreOpen(t.book, t.stops);
    ExecutedKeeps(setup, s, b);
    forall x | At(t.book, x).quantity != 0 ensures ExitStands(setup, t, b, x) {
      if Fires(t.stops, b.bars, x) {
        FiredIsChosen(setup, t, b, x);
      }
    }
  }

  ghost predicate AllHealthy(setup: Setup, bars: seq<BarIn>)
    requires setup.Valid()
  {
    bars == [] ||
    var init := bars[..|bars| - 1];
    AllHealthy(setup, init) && Healthy(setup, Run(setup, NewBacktest(setup), init), bars[|bars| - 1])
  }

  /** Over every managed backtest in which no sale is refused and equity is positive whenever a stop fires, each long
      position has a registered level or a full-quantity sale pending at the end of every bar, and every level belongs
      to a long position. */
  lemma {:induction false} EveryLongHasAnExit(setup: Setup, bars: seq<BarIn>)
    requires setup.Valid() && AllServed(setup, bars) && AllHealthy(setup, bars)
    ensures ExitsThroughout(setup, bars) && LevelsHeld(Run(setup, NewBacktest(setup), bars))
  {
    ExitsAreExact(setup, bars);
    if bars != [] {
      var init, b := bars[..|bars| - 1], bars[|bars| - 1];
      EveryLongHasAnExit(setup, init);
      ExitsAreExact(setup, init);
      RunKeeps(setup, init);
      HealthyBarStands(setup, Run(setup, NewBacktest(setup), init), b);
    }
  }

  ghost predicate AllSolvent(setup: Setup, bars: seq<BarIn>)
    requires setup.Valid()
  {
    bars == [] ||
    var init := bars[..|bars| - 1];
    AllSolvent(setup, init) && SolventAtStops(setup, Run(setup, NewBacktest(setup), init), bars[|bars| - 1])
  }

  lemma FixedSlippageSells(setup: Setup, s: Backtest, b: BarIn)
    requires setup.costs.slippage.FixedBps? && setup.costs.slippage.bps < 10000.0
    ensures SalesFill(setup, s, b)
  {
    forall o | o in s.exec.pending && o.side.Sell? ensures !Exec.FateOf(setup.costs, o, b.bars).Refused? {
      Exec.FixedSlippageRefuses(setup.costs, o, b.bars);
    }
  }

  lemma {:induction false} FixedSlippageIsHealthy(setup: Setup, bars: seq<BarIn>)
    requires setup.Valid() && AllSolvent(setup, bars)
    requires setup.costs.slippage.FixedBps? && setup.costs.slippage.bps < 10000.0
    ensures AllHealthy(setup, bars)
  {
    if bars != [] {
      var init := bars[..|bars| - 1];
      FixedSlippageIsHealthy(setup, init);
      FixedSlippageSells(setup, Run(setup, NewBacktest(setup), init), bars[|bars| - 1]);
    }
  }

  /** Fixed slippage below 100 percent refuses no sale, so solvency at the stops is all that is needed. */
  lemma FixedSlippageKeepsExits(setup: Setup, bars: seq<BarIn>)
    requires setup.Valid() && AllServed(setup, bars) && AllSolvent(setup, bars)
    requires setup.costs.slippage.FixedBps? && setup.costs.slippage.bps < 10000.0
    ensures ExitsThroughout(setup, bars) && LevelsHeld(Run(setup, NewBacktest(setup), bars))
  {
    FixedSlippageIsHealthy(setup, bars);
    EveryLongHasAnExit(setup, bars);
  }
}
