/** Managed backtests with bars missing: an order without a bar waits on, beside what is decided meanwhile. When exactly
    positions still stay flat or long and are closed in full, and which bars keep every order from waiting. */
module BacktestGaps {
  import opened Models
  import opened Portfolio
  import opened StopExits
  import opened SignalBatch
  import opened BatchBounds
  import opened BatchExits
  import opened BacktestModel
  import opened BacktestRuns
  import opened BacktestFills
  import Exec = ExecutionEngine

  // ---- The orders of an open -----------------------------------------------------------------

  /** The waiting orders that the open executes. */
  function Executing(c: Exec.Costs, waiting: seq<Order>, bars: Exec.Bars): seq<Order> {
    if waiting == [] then []
    else
      var before, o := Executing(c, waiting[..|waiting| - 1], bars), waiting[|waiting| - 1];
      if Exec.FateOf(c, o, bars).Executed? then before + [o] else before
  }

  /** Those without a bar. */
  function Missing(waiting: seq<Order>, bars: Exec.Bars): seq<Order> {
    if waiting == [] then []
    else
      var before, o := Missing(waiting[..|waiting| - 1], bars), waiting[|waiting| - 1];
      if o.symbol in bars then before else before + [o]
  }

  predicate AllFulfil(fills: seq<Fill>, orders: seq<Order>) {
    |fills| == |orders| && forall i :: 0 <= i < |fills| ==> Fulfils(fills[i], orders[i])
  }

  lemma {:induction false} PassFulfils(c: Exec.Costs, waiting: seq<Order>, bars: Exec.Bars, now: Time, firstId: nat)
    ensures var r := Exec.Pass(c, waiting, bars, now, firstId);
            AllFulfil(r.fills, Executing(c, waiting, bars)) && r.deferred == Missing(waiting, bars)
  {
    if waiting != [] {
      PassFulfils(c, waiting[..|waiting| - 1], bars, now, firstId);
    }
  }

  lemma {:induction false} ExecutingMembers(c: Exec.Costs, waiting: seq<Order>, bars: Exec.Bars)
    ensures forall o :: o in Executing(c, waiting, bars) ==> o in waiting && o.symbol in bars
    ensures Buys(Executing(c, waiting, bars)) <= Buys(waiting)
  {
    if waiting != [] {
      var init, o := waiting[..|waiting| - 1], waiting[|waiting| - 1];
      assert waiting == init + [o];
      ExecutingMembers(c, init, bars);
      var before := Executing(c, init, bars);
      assert (before + [o])[..|before|] == before;
    }
  }

  lemma DistinctGrows(init: seq<Order>, o: Order)
    ensures DistinctSymbols(init + [o]) <==> DistinctSymbols(init) && forall p :: p in init ==> p.symbol != o.symbol
  {
    var all := init + [o];
    if DistinctSymbols(all) {
      forall i, j | 0 <= i < j < |init| ensures init[i].symbol != init[j].symbol {
        assert all[i].symbol != all[j].symbol;
      }
      forall p | p in init ensures p.symbol != o.symbol {
        var i :| 0 <= i < |init| && init[i] == p;
        assert all[i].symbol != all[|init|].symbol;
      }
    }
  }

  lemma {:induction false} ExecutingStaysDistinct(c: Exec.Costs, waiting: seq<Order>, bars: Exec.Bars)
    requires DistinctSymbols(waiting)
    ensures DistinctSymbols(Executing(c, waiting, bars))
  {
    if waiting != [] {
      var init, o := waiting[..|waiting| - 1], waiting[|waiting| - 1];
      assert waiting == init + [o];
      DistinctGrows(init, o);
      ExecutingStaysDistinct(c, init, bars);
      ExecutingMembers(c, init, bars);
      DistinctGrows(Executing(c, init, bars), o);
    }
  }

  /** Two orders name the same symbol only if both are sales. */
  ghost predicate OnlySalesRepeat(orders: seq<Order>) {
    forall i, j :: 0 <= i < j < |orders| && orders[i].symbol == orders[j].symbol ==>
      orders[i].side.Sell? && orders[j].side.Sell?
  }

  lemma {:induction false} MissingMembers(waiting: seq<Order>, bars: Exec.Bars)
    ensures forall o :: o in Missing(waiting, bars) <==> o in waiting && o.symbol !in bars
    ensures OnlySalesRepeat(waiting) ==> OnlySalesRepeat(Missing(waiting, bars))
  {
    if waiting != [] {
      var init, o := waiting[..|waiting| - 1], waiting[|waiting| - 1];
      assert waiting == init + [o];
      MissingMembers(init, bars);
      if OnlySalesRepeat(waiting) {
        forall p | p in Missing(init, bars) && p.symbol == o.symbol ensures p.side.Sell? && o.side.Sell? {
          var i :| 0 <= i < |init| && init[i] == p;
          assert waiting[i].symbol == waiting[|init|].symbol;
        }
      }
    }
  }

  // ---- What the fills of an open do ----------------------------------------------------------

  /** At each point of the history a fill opens a position where none is, or closes exactly what is held. */
  ghost predicate TradesFit(initial: real, fills: seq<Fill>) {
    fills == [] ||
    var before, f := fills[..|fills| - 1], fills[|fills| - 1];
    TradesFit(initial, before) && f.quantity > 0 && ClosesOrOpens(At(Replayed(initial, before), f.symbol), f)
  }

  lemma {:induction false} EarlierTradesFit(initial: real, a: seq<Fill>, b: seq<Fill>)
    requires TradesFit(initial, a + b)
    ensures TradesFit(initial, a)
  {
    if b == [] {
      assert a + b == a;
    } else {
      assert (a + b)[..|a + b| - 1] == a + b[..|b| - 1];
      EarlierTradesFit(initial, a, b[..|b| - 1]);
    }
  }

  /** The book after trades in different symbols. */
  ghost predicate Traded(before: Book, after: Book, orders: seq<Order>) {
    && (forall o :: o in orders ==> At(after, o.symbol).quantity == if o.side.Buy? then o.quantity else 0)
    && (forall x :: (forall o :: o in orders ==> o.symbol != x) ==> At(after, x) == At(before, x))
  }

  lemma OneTrade(before: Book, after: Book, orders: seq<Order>, o: Order, f: Fill)
    requires Fits(before, o) && Fulfils(f, o) && Traded(before, after, orders) && LongOnly(after)
    requires forall p :: p in orders ==> p.symbol != o.symbol
    ensures ClosesOrOpens(At(after, f.symbol), f)
    ensures Traded(before, Applied(after, f), orders + [o]) && LongOnly(Applied(after, f))
    ensures OpenSymbols(Applied(after, f)) <= OpenSymbols(after) + (if o.side.Buy? then {o.symbol} else {})
  {
    var next := Applied(after, f);
    assert At(after, o.symbol) == At(before, o.symbol);
    assert forall x :: x != o.symbol ==> At(next, x) == At(after, x);
    assert At(next, o.symbol).quantity == if o.side.Buy? then o.quantity else 0;
    forall x | forall p :: p in orders + [o] ==> p.symbol != x ensures At(next, x) == At(before, x) {
      assert o in orders + [o];
      assert forall p :: p in orders ==> p in orders + [o];
    }
  }

  /** A second trade in a symbol that has been traded neither opens nor closes. */
  lemma RepeatedTrade(before: Book, after: Book, orders: seq<Order>, o: Order, f: Fill, p: Order)
    requires Fits(before, o) && Fulfils(f, o) && Traded(before, after, orders)
    requires p in orders && Fits(before, p) && p.symbol == o.symbol
    ensures !ClosesOrOpens(At(after, f.symbol), f)
  {
  }

  predicate AllFit(b: Book, orders: seq<Order>) {
    forall o :: o in orders ==> Fits(b, o)
  }

  ghost predicate TradesExactly(initial: real, done: seq<Fill>, orders: seq<Order>, fills: seq<Fill>) {
    var b := Replayed(initial, done + fills);
    && (TradesFit(initial, done + fills) <==> DistinctSymbols(orders))
    && (DistinctSymbols(orders) ==> LongOnly(b) && Traded(Replayed(initial, done), b, orders))
  }

  /** Orders that each fit the book open and close exactly when no two are for the same symbol. */
  lemma {:induction false} FillsTradeExactly(initial: real, done: seq<Fill>, orders: seq<Order>, fills: seq<Fill>)
    requires TradesFit(initial, done) && LongOnly(Replayed(initial, done))
    requires AllFulfil(fills, orders) && AllFit(Replayed(initial, done), orders)
    ensures TradesExactly(initial, done, orders, fills)
  {
    if fills == [] {
      assert done + fills == done;
    } else {
      var init, o := orders[..|orders| - 1], orders[|orders| - 1];
      var head, f := fills[..|fills| - 1], fills[|fills| - 1];
      assert orders == init + [o] && fills == head + [f] && o in orders;
      FillsTradeExactly(initial, done, init, head);
      LastTradeExactly(initial, done, init, head, o, f);
    }
  }

  lemma OneMoreFill(initial: real, done: seq<Fill>, head: seq<Fill>, f: Fill)
    ensures var before := Replayed(initial, done + head);
            && Replayed(initial, done + (head + [f])) == Applied(before, f)
            && (TradesFit(initial, done + (head + [f])) <==>
                  TradesFit(initial, done + head) && f.quantity > 0 && ClosesOrOpens(At(before, f.symbol), f))
  {
    var all := done + (head + [f]);
    assert all[..|all| - 1] == done + head;
  }

  lemma LastTradeExactly(initial: real, done: seq<Fill>, init: seq<Order>, head: seq<Fill>, o: Order, f: Fill)
    requires Fulfils(f, o) && AllFit(Replayed(initial, done), init) && Fits(Replayed(initial, done), o)
    requires TradesExactly(initial, done, init, head)
    ensures TradesExactly(initial, done, init + [o], head + [f])
  {
    var before, after := Replayed(initial, done), Replayed(initial, done + head);
    OneMoreFill(initial, done, head, f);
    DistinctGrows(init, o);
    if DistinctSymbols(init) {
      if p :| p in init && p.symbol == o.symbol {
        RepeatedTrade(before, after, init, o, f, p);
      } else {
        OneTrade(before, after, init, o, f);
      }
    }
  }

  // ---- One bar -------------------------------------------------------------------------------

  /** What is waiting fits the book, each order on its own. */
  ghost predicate Fitting(setup: Setup, s: Backtest) {
    && s.book == Replayed(setup.initialCapital, s.book.fills)
    && TradesFit(setup.initialCapital, s.book.fills) && LongOnly(s.book) && AllFit(s.book, s.exec.pending)
  }

  lemma {:induction false} BookedReplays(setup: Setup, s: Backtest, fills: seq<Fill>)
    requires s.book == Replayed(setup.initialCapital, s.book.fills)
    ensures FillsBooked(setup, s, fills).book == Replayed(setup.initialCapital, s.book.fills + fills)
  {
    if fills == [] {
      assert s.book.fills + fills == s.book.fills;
    } else {
      BookedReplays(setup, s, fills[..|fills| - 1]);
      assert (s.book.fills + fills)[..|s.book.fills + fills| - 1] == s.book.fills + fills[..|fills| - 1];
    }
  }

  ghost predicate ExecutesOnceEach(setup: Setup, s: Backtest, b: BarIn) {
    DistinctSymbols(Executing(setup.costs, s.exec.pending, b.bars))
  }

  /** What an open leaves: the book that its fills lead to, and the orders without a bar. */
  lemma OpenLeaves(setup: Setup, s: Backtest, b: BarIn) returns (fills: seq<Fill>)
    requires s.book == Replayed(setup.initialCapital, s.book.fills)
    ensures var t := Executed(setup, s, b);
            && AllFulfil(fills, Executing(setup.costs, s.exec.pending, b.bars))
            && t.book.fills == s.book.fills + fills && t.book == Replayed(setup.initialCapital, t.book.fills)
            && t.exec.pending == Missing(s.exec.pending, b.bars)
  {
    var (e, r) := Exec.Processed(setup.costs, s.exec, b.bars, b.now);
    fills := r.fills;
    OpenShape(setup, s, b);
    PassFulfils(setup.costs, s.exec.pending, b.bars, b.now, |s.exec.fills|);
    BookedReplays(setup, s.(exec := e), r.fills);
  }

  /** An open trades properly exactly when it executes one order at most for each symbol; what it leaves waiting still
      fits. */
  lemma OpenTradesExactly(setup: Setup, s: Backtest, b: BarIn)
    requires Fitting(setup, s)
    ensures var t := Executed(setup, s, b);
            && (TradesFit(setup.initialCapital, t.book.fills) <==> ExecutesOnceEach(setup, s, b))
            && (ExecutesOnceEach(setup, s, b) ==>
                  Fitting(setup, t) && Traded(s.book, t.book, Executing(setup.costs, s.exec.pending, b.bars)))
  {
    var t, orders := Executed(setup, s, b), Executing(setup.costs, s.exec.pending, b.bars);
    var fills := OpenLeaves(setup, s, b);
    ExecutingMembers(setup.costs, s.exec.pending, b.bars);
    FillsTradeExactly(setup.initialCapital, s.book.fills, orders, fills);
    MissingMembers(s.exec.pending, b.bars);
    if ExecutesOnceEach(setup, s, b) {
      forall o | o in t.exec.pending ensures Fits(t.book, o) {
        assert At(t.book, o.symbol) == At(s.book, o.symbol);
      }
    }
  }

  lemma QueuedFit(setup: Setup, s: Backtest, b: BarIn)
    requires setup.Valid() && LongOnly(s.book)
    ensures AllFit(s.book, Sent(setup, s, b)) && DistinctSymbols(Sent(setup, s, b))
    ensures forall o :: o in Sent(setup, s, b) && o.side.Buy? ==> o.symbol in b.bars
    ensures Buys(Sent(setup, s, b)) <= Slots(setup.trade, s.book)
  {
    if s.index >= setup.warmup {
      QueuedAreGood(setup, s, b);
    }
  }

  /** A bar ends with the orders without a bar, followed by those decided on it. */
  lemma BarLeaves(setup: Setup, s: Backtest, b: BarIn)
    requires setup.Valid() && s.book == Replayed(setup.initialCapital, s.book.fills)
    ensures var t, r := Executed(setup, s, b), BarDone(setup, s, b);
            r.book == t.book && r.exec.pending == Missing(s.exec.pending, b.bars) + Sent(setup, t, b)
  {
    var _ := OpenLeaves(setup, s, b);
    BatchSends(setup, Executed(setup, s, b), b);
  }

  lemma BarTradesExactly(setup: Setup, s: Backtest, b: BarIn)
    requires setup.Valid() && Fitting(setup, s)
    ensures var r := BarDone(setup, s, b);
            && (TradesFit(setup.initialCapital, r.book.fills) <==> ExecutesOnceEach(setup, s, b))
            && (ExecutesOnceEach(setup, s, b) ==> Fitting(setup, r))
  {
    OpenTradesExactly(setup, s, b);
    BarLeaves(setup, s, b);
    if ExecutesOnceEach(setup, s, b) {
      QueuedFit(setup, Executed(setup, s, b), b);
      var _ := OpenLeaves(setup, s, b);
    }
  }

  // ---- Runs ----------------------------------------------------------------------------------

  /** At no open of the run are two orders for one symbol executed. */
  ghost predicate NoneTwice(setup: Setup, bars: seq<BarIn>)
    requires setup.Valid()
  {
    bars == [] ||
    (NoneTwice(setup, bars[..|bars| - 1]) && ExecutesOnceEach(setup, Before(setup, bars), bars[|bars| - 1]))
  }

  lemma BarAddsFills(setup: Setup, s: Backtest, b: BarIn)
    requires setup.Valid() && s.book == Replayed(setup.initialCapital, s.book.fills)
    ensures var r := BarDone(setup, s, b);
            r.book == Replayed(setup.initialCapital, r.book.fills) && s.book.fills <= r.book.fills
  {
    var _ := OpenLeaves(setup, s, b);
    BarLeaves(setup, s, b);
  }

  lemma {:induction false} RunReplays(setup: Setup, bars: seq<BarIn>)
    requires setup.Valid()
    ensures var r := Run(setup, NewBacktest(setup), bars); r.book == Replayed(setup.initialCapital, r.book.fills)
  {
    if bars != [] {
      RunReplays(setup, bars[..|bars| - 1]);
      BarAddsFills(setup, Before(setup, bars), bars[|bars| - 1]);
    }
  }

  lemma MisfitsStay(setup: Setup, s: Backtest, b: BarIn)
    requires setup.Valid() && s.book == Replayed(setup.initialCapital, s.book.fills)
    ensures TradesFit(setup.initialCapital, BarDone(setup, s, b).book.fills)
            ==> TradesFit(setup.initialCapital, s.book.fills)
  {
    var before, after := s.book.fills, BarDone(setup, s, b).book.fills;
    BarAddsFills(setup, s, b);
    assert after == before + after[|before|..];
    if TradesFit(setup.initialCapital, after) {
      EarlierTradesFit(setup.initialCapital, before, after[|before|..]);
    }
  }

  /** Over every managed backtest, with bars missing or not: each fill opens a position where none is or closes exactly
      what is held, exactly when no open executes two orders for one symbol. Until then positions are flat or long. */
  lemma {:induction false} TradesFitExactly(setup: Setup, bars: seq<BarIn>)
    requires setup.Valid()
    ensures var r := Run(setup, NewBacktest(setup), bars);
            && (TradesFit(setup.initialCapital, r.book.fills) <==> NoneTwice(setup, bars))
            && (NoneTwice(setup, bars) ==> Fitting(setup, r))
  {
    if bars != [] {
      var init, b, s := bars[..|bars| - 1], bars[|bars| - 1], Before(setup, bars);
      TradesFitExactly(setup, init);
      if NoneTwice(setup, init) {
        BarTradesExactly(setup, s, b);
      } else {
        RunReplays(setup, init);
        MisfitsStay(setup, s, b);
      }
    }
  }

  /** Up to there only a sale is ever repeated: a purchase needs a bar, on which whatever waited is gone. */
  lemma {:induction false} RepeatsAreSales(setup: Setup, bars: seq<BarIn>)
    requires setup.Valid() && NoneTwice(setup, bars)
    ensures OnlySalesRepeat(Run(setup, NewBacktest(setup), bars).exec.pending)
  {
    if bars != [] {
      RepeatsAreSales(setup, bars[..|bars| - 1]);
      TradesFitExactly(setup, bars[..|bars| - 1]);
      BarRepeatsSales(setup, Before(setup, bars), bars[|bars| - 1]);
    }
  }

  lemma BarRepeatsSales(setup: Setup, s: Backtest, b: BarIn)
    requires setup.Valid() && Fitting(setup, s) && ExecutesOnceEach(setup, s, b) && OnlySalesRepeat(s.exec.pending)
    ensures OnlySalesRepeat(BarDone(setup, s, b).exec.pending)
  {
    var t := Executed(setup, s, b);
    BarLeaves(setup, s, b);
    LeftFits(setup, s, b);
    QueuedFit(setup, t, b);
    JoinedRepeatSales(t.book, b, Missing(s.exec.pending, b.bars), Sent(setup, t, b));
  }

  lemma LeftFits(setup: Setup, s: Backtest, b: BarIn)
    requires Fitting(setup, s) && ExecutesOnceEach(setup, s, b) && OnlySalesRepeat(s.exec.pending)
    ensures var t, left := Executed(setup, s, b), Missing(s.exec.pending, b.bars);
            && LongOnly(t.book) && AllFit(t.book, left) && OnlySalesRepeat(left)
            && forall o :: o in left ==> o.symbol !in b.bars
  {
    OpenTradesExactly(setup, s, b);
    var _ := OpenLeaves(setup, s, b);
    MissingMembers(s.exec.pending, b.bars);
  }

  lemma JoinedRepeatSales(book: Book, b: BarIn, left: seq<Order>, sent: seq<Order>)
    requires AllFit(book, left) && AllFit(book, sent) && OnlySalesRepeat(left) && DistinctSymbols(sent)
    requires forall o :: o in left ==> o.symbol !in b.bars
    requires forall o :: o in sent && o.side.Buy? ==> o.symbol in b.bars
    ensures OnlySalesRepeat(left + sent)
  {
    forall o, p | o in left && p in sent && o.symbol == p.symbol ensures o.side.Sell? && p.side.Sell? {
      assert Fits(book, o) && Fits(book, p);
    }
  }

  // ---- Slots ---------------------------------------------------------------------------------

  /** No purchase waits without a bar. */
  predicate PurchasesServed(s: Backtest, b: BarIn) {
    forall o :: o in s.exec.pending && o.side.Buy? ==> o.symbol in b.bars
  }

  ghost predicate AllPurchasesServed(setup: Setup, bars: seq<BarIn>)
    requires setup.Valid()
  {
    bars == [] ||
    (AllPurchasesServed(setup, bars[..|bars| - 1]) && PurchasesServed(Before(setup, bars), bars[|bars| - 1]))
  }

  lemma {:induction false} WellTradedFits(initial: real, most: int, fills: seq<Fill>)
    requires WellTraded(initial, most, fills)
    ensures TradesFit(initial, fills)
  {
    if fills != [] {
      WellTradedFits(initial, most, fills[..|fills| - 1]);
    }
  }

  ghost predicate StaysBounded(initial: real, most: int, done: seq<Fill>, orders: seq<Order>, fills: seq<Fill>) {
    && WellTraded(initial, most, done + fills)
    && |OpenSymbols(Replayed(initial, done + fills))| <= |OpenSymbols(Replayed(initial, done))| + Buys(orders)
  }

  /** The fills of orders in different symbols, with a slot for each purchase. */
  ghost predicate HaveSlots(b: Book, most: int, orders: seq<Order>, fills: seq<Fill>) {
    && AllFulfil(fills, orders) && AllFit(b, orders) && DistinctSymbols(orders)
    && |OpenSymbols(b)| + Buys(orders) <= most
  }

  lemma FewerHaveSlots(b: Book, most: int, init: seq<Order>, head: seq<Fill>, o: Order, f: Fill)
    requires HaveSlots(b, most, init + [o], head + [f])
    ensures HaveSlots(b, most, init, head) && Fulfils(f, o) && Fits(b, o)
    ensures forall p :: p in init ==> p.symbol != o.symbol
  {
    var all := init + [o];
    DistinctGrows(init, o);
    assert all[..|init|] == init && all[|init|] == o && (head + [f])[|init|] == f;
    forall i | 0 <= i < |head| ensures Fulfils(head[i], init[i]) {
      assert Fulfils((head + [f])[i], all[i]);
    }
  }

  /** Such fills stay within the slots, one by one. */
  lemma {:induction false} FillsStayBounded(initial: real, most: int, done: seq<Fill>, orders: seq<Order>,
                                            fills: seq<Fill>)
    requires WellTraded(initial, most, done) && LongOnly(Replayed(initial, done))
    requires HaveSlots(Replayed(initial, done), most, orders, fills)
    ensures StaysBounded(initial, most, done, orders, fills)
  {
    if fills == [] {
      assert done + fills == done;
    } else {
      var init, o := orders[..|orders| - 1], orders[|orders| - 1];
      var head, f := fills[..|fills| - 1], fills[|fills| - 1];
      assert orders == init + [o] && fills == head + [f];
      FewerHaveSlots(Replayed(initial, done), most, init, head, o, f);
      FillsStayBounded(initial, most, done, init, head);
      WellTradedFits(initial, most, done);
      FillsTradeExactly(initial, done, init, head);
      LastStaysBounded(initial, most, done, init, head, o, f);
    }
  }

  lemma LastStaysBounded(initial: real, most: int, done: seq<Fill>, init: seq<Order>, head: seq<Fill>, o: Order,
                         f: Fill)
    requires StaysBounded(initial, most, done, init, head) && TradesExactly(initial, done, init, head)
    requires DistinctSymbols(init) && Fulfils(f, o) && Fits(Replayed(initial, done), o)
    requires forall p :: p in init ==> p.symbol != o.symbol
    requires |OpenSymbols(Replayed(initial, done))| + Buys(init + [o]) <= most
    ensures StaysBounded(initial, most, done, init + [o], head + [f])
  {
    var before, after := Replayed(initial, done), Replayed(initial, done + head);
    var all := done + (head + [f]);
    assert all[..|all| - 1] == done + head && (init + [o])[..|init|] == init;
    OneTrade(before, after, init, o, f);
    OpenGrows(OpenSymbols(Applied(after, f)), OpenSymbols(after), o);
  }

  lemma OpenGrows(a: set<Symbol>, b: set<Symbol>, o: Order)
    requires a <= b + (if o.side.Buy? then {o.symbol} else {})
    ensures |a| <= |b| + (if o.side.Buy? then 1 else 0)
  {
    if o.side.Buy? {
      AddOne(b, o.symbol);
      Subset(a, b + {o.symbol});
    } else {
      Subset(a, b);
    }
  }

  lemma Subset(a: set<Symbol>, b: set<Symbol>)
    requires a <= b
    ensures |a| <= |b|
  {
    assert |b| == |a| + |b - a| by {
      assert b == a + (b - a);
    }
  }

  lemma {:induction false} SalesOnly(orders: seq<Order>)
    requires forall o :: o in orders ==> o.side.Sell?
    ensures Buys(orders) == 0
  {
    if orders != [] {
      var init := orders[..|orders| - 1];
      assert orders == init + [orders[|orders| - 1]];
      SalesOnly(init);
    }
  }

  /** The slots of a run, as far as positions and waiting purchases have taken them. */
  ghost predicate SlotsKept(setup: Setup, s: Backtest) {
    && WellTraded(setup.initialCapital, setup.trade.day.maxOpen, s.book.fills)
    && |OpenSymbols(s.book)| + Buys(s.exec.pending) <= setup.trade.day.maxOpen
  }

  lemma OpenKeepsSlots(setup: Setup, s: Backtest, b: BarIn)
    requires Fitting(setup, s) && SlotsKept(setup, s) && ExecutesOnceEach(setup, s, b)
    ensures var t := Executed(setup, s, b);
            && WellTraded(setup.initialCapital, setup.trade.day.maxOpen, t.book.fills)
            && |OpenSymbols(t.book)| <= setup.trade.day.maxOpen
  {
    var orders := Executing(setup.costs, s.exec.pending, b.bars);
    var fills := OpenLeaves(setup, s, b);
    ExecutingMembers(setup.costs, s.exec.pending, b.bars);
    FillsStayBounded(setup.initialCapital, setup.trade.day.maxOpen, s.book.fills, orders, fills);
  }

  lemma BarKeepsSlots(setup: Setup, s: Backtest, b: BarIn)
    requires setup.Valid() && Fitting(setup, s) && SlotsKept(setup, s)
    requires ExecutesOnceEach(setup, s, b) && PurchasesServed(s, b)
    ensures SlotsKept(setup, BarDone(setup, s, b))
  {
    var t := Executed(setup, s, b);
    var left, sent := Missing(s.exec.pending, b.bars), Sent(setup, t, b);
    OpenKeepsSlots(setup, s, b);
    OpenTradesExactly(setup, s, b);
    QueuedFit(setup, t, b);
    BarLeaves(setup, s, b);
    MissingMembers(s.exec.pending, b.bars);
    SalesOnly(left);
    ValueOfConcat(map[], left, sent);
  }

  /** Over every managed backtest in which no purchase waits without a bar and no open executes two orders for one
      symbol, positions are flat or long, never added to, closed in full, and never more than allowed. */
  lemma {:induction false} GapsKeepBounds(setup: Setup, bars: seq<BarIn>)
    requires setup.Valid() && NoneTwice(setup, bars) && AllPurchasesServed(setup, bars)
    ensures var r := Run(setup, NewBacktest(setup), bars); LongOnly(r.book) && SlotsKept(setup, r)
  {
    TradesFitExactly(setup, bars);
    if bars == [] {
      assert OpenSymbols(NewBacktest(setup).book) == {};
    } else {
      GapsKeepBounds(setup, bars[..|bars| - 1]);
      TradesFitExactly(setup, bars[..|bars| - 1]);
      BarKeepsSlots(setup, Before(setup, bars), bars[|bars| - 1]);
    }
  }

  /** With a bar for each waiting order both conditions hold. */
  lemma {:induction false} ServedMeetsBoth(setup: Setup, bars: seq<BarIn>)
    requires setup.Valid() && AllServed(setup, bars)
    ensures NoneTwice(setup, bars) && AllPurchasesServed(setup, bars)
  {
    if bars != [] {
      var init := bars[..|bars| - 1];
      ServedMeetsBoth(setup, init);
      RunKeeps(setup, init);
      ExecutingStaysDistinct(setup.costs, Before(setup, bars).exec.pending, bars[|bars| - 1].bars);
    }
  }

  // ---- Which bars are enough -----------------------------------------------------------------

  /** The symbols that the strategy has gone long on while they had a bar. */
  function Asked(bars: seq<BarIn>): set<Symbol> {
    if bars == [] then {}
    else
      var b := bars[|bars| - 1];
      Asked(bars[..|bars| - 1]) + set e | e in b.signals && e.direction.Long? && e.symbol in b.bars :: e.symbol
  }

  /** Those symbols never miss a bar from then on. */
  predicate KeepsTrading(bars: seq<BarIn>) {
    bars == [] || (KeepsTrading(bars[..|bars| - 1]) && Asked(bars[..|bars| - 1]) <= bars[|bars| - 1].bars.Keys)
  }

  /** What a batch opens, the strategy has asked for. */
  lemma OpeningIsAsked(setup: Setup, s: Backtest, b: BarIn, x: Symbol)
    requires setup.Valid() && x in NamesOf(OpeningSignals(setup.trade, DeskAt(s, b, EventsOf(s, b))))
    ensures exists e :: e in b.signals && e.direction.Long? && e.symbol == x
  {
    var events, d := EventsOf(s, b), DeskAt(s, b, EventsOf(s, b));
    ChosenSignal(events);
    StopSignalsAreFlat(b.fired, s.stops);
    ActingMembers(d.book, d.stopped, setup.trade.coverShorts, Chosen(events), Open);
    var e :| e in OpeningSignals(setup.trade, d) && e.symbol == x;
    LastForIsEvent(events, x, true);
    LastForIsEvent(events, x, false);
    assert e in events && e.direction.Long?;
    assert e !in StopSignals(b.fired, s.stops);
  }

  lemma SentIsAsked(setup: Setup, s: Backtest, b: BarIn, o: Order)
    requires setup.Valid() && LongOnly(s.book) && o in Sent(setup, s, b)
    ensures if o.side.Sell? then o.symbol in OpenSymbols(s.book)
            else o.symbol in b.bars && exists e :: e in b.signals && e.direction.Long? && e.symbol == o.symbol
  {
    var d, day := DeskAt(s, b, EventsOf(s, b)), Guarded(s, b).day;
    QueuedFit(setup, s, b);
    if o.side.Buy? {
      var candidates := Candidates(setup.trade, d, day, s.nextId, b.now).1;
      CandidatesAreGood(setup.trade, d, day, s.nextId, b.now);
      NumberedAreDistinct(candidates, s.nextId);
      RoutedIsGood(setup.trade, setup.sectors, s.gate, d, candidates);
      CandidatesAreNamed(setup.trade, d, day, s.nextId, b.now, o);
      OpeningIsAsked(setup, s, b, o.symbol);
    }
  }

  /** Every symbol that is held or waited for is in the set. */
  ghost predicate Within(s: Backtest, symbols: set<Symbol>) {
    OpenSymbols(s.book) <= symbols && forall o :: o in s.exec.pending ==> o.symbol in symbols
  }

  lemma BarStaysWithin(setup: Setup, s: Backtest, b: BarIn, symbols: set<Symbol>)
    requires setup.Valid() && BetweenBars(setup, s) && Fitting(setup, s) && Served(s, b) && Within(s, symbols)
    ensures var asked := set e | e in b.signals && e.direction.Long? && e.symbol in b.bars :: e.symbol;
            Within(BarDone(setup, s, b), symbols + asked)
  {
    var t := Executed(setup, s, b);
    ExecutingMembers(setup.costs, s.exec.pending, b.bars);
    ExecutingStaysDistinct(setup.costs, s.exec.pending, b.bars);
    OpenTradesExactly(setup, s, b);
    BarLeaves(setup, s, b);
    MissingMembers(s.exec.pending, b.bars);
    OpenStaysWithin(s.book, t.book, Executing(setup.costs, s.exec.pending, b.bars), symbols);
    forall o | o in Sent(setup, t, b)
      ensures o.symbol in symbols + set e | e in b.signals && e.direction.Long? && e.symbol in b.bars :: e.symbol
    {
      SentIsAsked(setup, t, b, o);
    }
  }

  lemma OpenStaysWithin(before: Book, after: Book, orders: seq<Order>, symbols: set<Symbol>)
    requires Traded(before, after, orders) && OpenSymbols(before) <= symbols
    requires forall o :: o in orders ==> o.symbol in symbols
    ensures OpenSymbols(after) <= symbols
  {
    forall x | x in OpenSymbols(after) ensures x in symbols {
      assert x !in symbols ==> At(after, x) == At(before, x);
    }
  }

  /** A condition on the bars alone: when the symbols the strategy has gone long on keep having bars, no order ever
      waits for one. */
  lemma {:induction false} KeptBarsServe(setup: Setup, bars: seq<BarIn>)
    requires setup.Valid() && KeepsTrading(bars)
    ensures AllServed(setup, bars) && Within(Run(setup, NewBacktest(setup), bars), Asked(bars))
  {
    if bars == [] {
      assert OpenSymbols(NewBacktest(setup).book) == {};
    } else {
      var init, b := bars[..|bars| - 1], bars[|bars| - 1];
      KeptBarsServe(setup, init);
      RunKeeps(setup, init);
      ServedMeetsBoth(setup, init);
      TradesFitExactly(setup, init);
      BarStaysWithin(setup, Before(setup, bars), b, Asked(init));
    }
  }
}
