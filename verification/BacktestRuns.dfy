/** What every managed backtest with a bar for each waiting order keeps: positions are flat or long, never added to,
    closed by exactly their own quantity, and never more than the configured number. */
module BacktestRuns {
  import opened Models
  import opened Portfolio
  import opened StopLoss
  import opened SignalBatch
  import opened BatchBounds
  import opened BacktestModel
  import Exec = ExecutionEngine

  // ---- Trades --------------------------------------------------------------------------------

  /** A fill opens a position where none is, or closes exactly what is held. */
  predicate ClosesOrOpens(h: Holding, f: Fill) {
    if f.side.Buy? then h.quantity == 0 else f.quantity == h.quantity
  }

  /** The whole trading history, at every point of it. */
  ghost predicate WellTraded(initial: real, most: int, fills: seq<Fill>) {
    fills == [] ||
    var before, f := fills[..|fills| - 1], fills[|fills| - 1];
    && WellTraded(initial, most, before)
    && f.quantity > 0 && ClosesOrOpens(At(Replayed(initial, before), f.symbol), f)
    && |OpenSymbols(Replayed(initial, fills))| <= most
  }

  predicate LevelsHeld(s: Backtest) {
    forall x :: x in s.stops ==> At(s.book, x).quantity > 0
  }

  predicate Known(s: Backtest, o: Order) {
    o.id in s.submitted && s.submitted[o.id] == o
  }

  /** What one fill does. */
  lemma FillTrades(setup: Setup, s: Backtest, o: Order, f: Fill)
    requires Fits(s.book, o) && Fulfils(f, o) && Known(s, o) && LongOnly(s.book) && LevelsHeld(s)
    ensures var t := FillBooked(setup, s, f);
            && LongOnly(t.book) && LevelsHeld(t)
            && At(t.book, o.symbol).quantity == (if o.side.Buy? then o.quantity else 0)
            && (forall x :: x != o.symbol ==> At(t.book, x) == At(s.book, x))
            && OpenSymbols(t.book) == (if o.side.Buy? then OpenSymbols(s.book) + {o.symbol}
                                       else OpenSymbols(s.book) - {o.symbol})
    ensures var t := FillBooked(setup, s, f);
            && (o.side.Buy? ==> t.stops.Keys == s.stops.Keys + {o.symbol})
            && (o.side.Sell? ==> t.stops.Keys == s.stops.Keys - {o.symbol})
    ensures ClosesOrOpens(At(s.book, o.symbol), f)
  {
  }

  // ---- The invariant -------------------------------------------------------------------------

  /** The orders waiting for the next open fit the book, one for each symbol, and leave room for every opening. */
  ghost predicate WaitingOk(setup: Setup, s: Backtest) {
    && DistinctSymbols(s.exec.pending) && DistinctIds(s.exec.pending)
    && (forall o :: o in s.exec.pending ==> Fits(s.book, o) && Known(s, o))
    && |OpenSymbols(s.book)| + Buys(s.exec.pending) <= setup.trade.day.maxOpen
  }

  ghost predicate BookOk(setup: Setup, s: Backtest) {
    && s.book == Replayed(setup.initialCapital, s.book.fills)
    && WellTraded(setup.initialCapital, setup.trade.day.maxOpen, s.book.fills)
    && LongOnly(s.book) && LevelsHeld(s)
  }

  ghost predicate BetweenBars(setup: Setup, s: Backtest) {
    && BookOk(setup, s) && WaitingOk(setup, s)
    && (forall id :: id in s.submitted ==> id < s.nextId)
    && (s.index <= setup.warmup ==> s.exec.pending == [] && OpenSymbols(s.book) == {})
  }

  /** Every waiting order has a bar. */
  predicate Served(s: Backtest, b: BarIn) {
    forall o :: o in s.exec.pending ==> o.symbol in b.bars
  }

  /** At each open of the run. */
  ghost predicate AllServed(setup: Setup, bars: seq<BarIn>)
    requires setup.Valid()
  {
    bars == [] ||
    var init := bars[..|bars| - 1];
    AllServed(setup, init) && Served(Run(setup, NewBacktest(setup), init), bars[|bars| - 1])
  }

  // ---- Fills at the open ---------------------------------------------------------------------

  /** The fills of the first `n` waiting orders are booked. */
  ghost predicate Midway(setup: Setup, s: Backtest, t: Backtest, n: nat)
    requires n <= |s.exec.pending|
  {
    && BookOk(setup, t) && t.submitted == s.submitted
    && Untouched(s.book, t.book, s.exec.pending[n..])
    && |OpenSymbols(t.book)| <= |OpenSymbols(s.book)| + Buys(s.exec.pending[..n])
  }

  ghost predicate Untouched(a: Book, b: Book, orders: seq<Order>) {
    forall o :: o in orders ==> At(b, o.symbol) == At(a, o.symbol)
  }

  lemma UntouchedRest(a: Book, b: Book, c: Book, orders: seq<Order>, n: nat)
    requires n < |orders| && DistinctSymbols(orders) && Untouched(a, b, orders[n..])
    requires forall x :: x != orders[n].symbol ==> At(c, x) == At(b, x)
    ensures Untouched(a, c, orders[n + 1..])
  {
    forall o | o in orders[n + 1..] ensures At(c, o.symbol) == At(a, o.symbol) {
      var i :| 0 <= i < |orders[n + 1..]| && orders[n + 1..][i] == o;
      assert orders[n + 1 + i] == o && orders[n..][i + 1] == o;
    }
  }

  function PassTo(setup: Setup, s: Backtest, b: BarIn, n: nat): Exec.Outcome
    requires n <= |s.exec.pending|
  {
    Exec.Pass(setup.costs, s.exec.pending[..n], b.bars, b.now, |s.exec.fills|)
  }

  lemma PassUnfolds(setup: Setup, s: Backtest, b: BarIn, n: nat)
    requires n < |s.exec.pending|
    ensures var r, t, o := PassTo(setup, s, b, n), PassTo(setup, s, b, n + 1), s.exec.pending[n];
            match Exec.FateOf(setup.costs, o, b.bars)
            case Deferred => t.fills == r.fills && t.rejected == r.rejected
            case Refused => t.fills == r.fills && t.rejected == r.rejected + [o]
            case Executed => t.rejected == r.rejected
                             && t.fills == r.fills + [Exec.FillOf(setup.costs, o, b.bars[o.symbol],
                                                                  |s.exec.fills| + |r.fills|, b.now)]
  {
    assert s.exec.pending[..n + 1][..n] == s.exec.pending[..n];
  }

  lemma AddOne(a: set<Symbol>, x: Symbol)
    ensures |a + {x}| <= |a| + 1 && |a - {x}| <= |a|
  {
    if x in a {
      assert a + {x} == a;
      assert (a - {x}) + {x} == a;
    } else {
      assert a - {x} == a;
    }
  }

  lemma BuysGrow(orders: seq<Order>, n: nat)
    requires n < |orders|
    ensures Buys(orders[..n + 1]) == Buys(orders[..n]) + (if orders[n].side.Buy? then 1 else 0)
    ensures Buys(orders[..n + 1]) <= Buys(orders)
  {
    assert orders[..n + 1][..n] == orders[..n];
    assert orders == orders[..n + 1] + orders[n + 1..];
    ValueOfConcat(map[], orders[..n + 1], orders[n + 1..]);
  }

  lemma BookGrows(setup: Setup, t: Backtest, f: Fill)
    requires t.book == Replayed(setup.initialCapital, t.book.fills)
    requires WellTraded(setup.initialCapital, setup.trade.day.maxOpen, t.book.fills)
    requires f.quantity > 0 && ClosesOrOpens(At(t.book, f.symbol), f)
    requires |OpenSymbols(Applied(t.book, f))| <= setup.trade.day.maxOpen
    ensures var u := FillBooked(setup, t, f);
            && u.book == Replayed(setup.initialCapital, u.book.fills)
            && WellTraded(setup.initialCapital, setup.trade.day.maxOpen, u.book.fills)
  {
    assert (t.book.fills + [f])[..|t.book.fills|] == t.book.fills;
  }

  lemma MidwayStep(setup: Setup, s: Backtest, t: Backtest, n: nat, f: Fill)
    requires n < |s.exec.pending| && WaitingOk(setup, s) && Midway(setup, s, t, n)
    requires Fulfils(f, s.exec.pending[n])
    ensures Midway(setup, s, FillBooked(setup, t, f), n + 1)
  {
    var ps, o, u := s.exec.pending, s.exec.pending[n], FillBooked(setup, t, f);
    assert o in ps && ps[n..][0] == o;
    FillTrades(setup, t, o, f);
    AddOne(OpenSymbols(t.book), o.symbol);
    BuysGrow(ps, n);
    UntouchedRest(s.book, t.book, u.book, ps, n);
    TradeKeepsBook(setup, t, o, f);
  }

  lemma TradeKeepsBook(setup: Setup, t: Backtest, o: Order, f: Fill)
    requires BookOk(setup, t) && Fits(t.book, o) && Fulfils(f, o) && Known(t, o)
    requires |OpenSymbols(FillBooked(setup, t, f).book)| <= setup.trade.day.maxOpen
    ensures BookOk(setup, FillBooked(setup, t, f))
  {
    FillTrades(setup, t, o, f);
    BookGrows(setup, t, f);
  }

  lemma MidwaySkips(setup: Setup, s: Backtest, t: Backtest, n: nat)
    requires n < |s.exec.pending| && WaitingOk(setup, s) && Midway(setup, s, t, n)
    ensures Midway(setup, s, t, n + 1)
  {
    BuysGrow(s.exec.pending, n);
    UntouchedRest(s.book, t.book, t.book, s.exec.pending, n);
  }

  lemma BookedUnfolds(setup: Setup, s: Backtest, fills: seq<Fill>, f: Fill)
    ensures FillsBooked(setup, s, fills + [f]) == FillBooked(setup, FillsBooked(setup, s, fills), f)
  {
    assert (fills + [f])[..|fills|] == fills;
  }

  /** The state with the fills of the first `n` waiting orders booked. */
  function BookedTo(setup: Setup, s: Backtest, start: Backtest, b: BarIn, n: nat): Backtest
    requires n <= |s.exec.pending|
  {
    FillsBooked(setup, start, PassTo(setup, s, b, n).fills)
  }

  lemma {:induction false} FillsKeep(setup: Setup, s: Backtest, start: Backtest, b: BarIn,
                                     n: nat, t: Backtest)
    requires n <= |s.exec.pending| && BookOk(setup, s) && WaitingOk(setup, s)
    requires start.book == s.book && start.stops == s.stops && start.submitted == s.submitted
    requires t == BookedTo(setup, s, start, b, n)
    ensures Midway(setup, s, t, n)
    decreases n
  {
    if n == 0 {
      assert s.exec.pending[..0] == [];
    } else {
      var before := BookedTo(setup, s, start, b, n - 1);
      FillsKeep(setup, s, start, b, n - 1, before);
      OneMoreKeeps(setup, s, start, b, n - 1, before, t);
    }
  }

  lemma OneMoreKeeps(setup: Setup, s: Backtest, start: Backtest, b: BarIn, n: nat, t: Backtest,
                     u: Backtest)
    requires n < |s.exec.pending| && WaitingOk(setup, s)
    requires t == BookedTo(setup, s, start, b, n) && Midway(setup, s, t, n)
    requires u == BookedTo(setup, s, start, b, n + 1)
    ensures Midway(setup, s, u, n + 1)
  {
    OneMoreBooked(setup, s, start, b, n);
    var o := s.exec.pending[n];
    if Exec.FateOf(setup.costs, o, b.bars).Executed? {
      MidwayStep(setup, s, t, n, NextFill(setup, s, b, n));
    } else {
      MidwaySkips(setup, s, t, n);
    }
  }

  function NextFill(setup: Setup, s: Backtest, b: BarIn, n: nat): Fill
    requires n < |s.exec.pending| && s.exec.pending[n].symbol in b.bars
  {
    Exec.FillOf(setup.costs, s.exec.pending[n], b.bars[s.exec.pending[n].symbol],
                |s.exec.fills| + |PassTo(setup, s, b, n).fills|, b.now)
  }

  lemma OneMoreBooked(setup: Setup, s: Backtest, start: Backtest, b: BarIn, n: nat)
    requires n < |s.exec.pending|
    ensures var t := BookedTo(setup, s, start, b, n);
            BookedTo(setup, s, start, b, n + 1)
            == if Exec.FateOf(setup.costs, s.exec.pending[n], b.bars).Executed?
                then FillBooked(setup, t, NextFill(setup, s, b, n)) else t
  {
    PassUnfolds(setup, s, b, n);
    if Exec.FateOf(setup.costs, s.exec.pending[n], b.bars).Executed? {
      BookedUnfolds(setup, start, PassTo(setup, s, b, n).fills, NextFill(setup, s, b, n));
    }
  }

  /** After the open nothing is waiting, and the book is in order. */
  lemma ExecutedKeeps(setup: Setup, s: Backtest, b: BarIn)
    requires BetweenBars(setup, s) && Served(s, b)
    ensures var t := Executed(setup, s, b);
            && BookOk(setup, t) && t.exec.pending == []
            && t == s.(exec := t.exec, book := t.book, stops := t.stops)
            && (s.index <= setup.warmup ==> OpenSymbols(t.book) == {})
  {
    var ps := s.exec.pending;
    var start := s.(exec := Exec.Processed(setup.costs, s.exec, b.bars, b.now).0);
    assert ps[..|ps|] == ps;
    FillsKeep(setup, s, start, b, |ps|, BookedTo(setup, s, start, b, |ps|));
    Exec.NothingDeferred(setup.costs, ps, b.bars, b.now, |s.exec.fills|);
    FillsTouchBook(setup, start, PassTo(setup, s, b, |ps|).fills);
  }

  lemma {:induction false} FillsTouchBook(setup: Setup, s: Backtest, fills: seq<Fill>)
    ensures var t := FillsBooked(setup, s, fills); t == s.(book := t.book, stops := t.stops)
    ensures fills == [] ==> FillsBooked(setup, s, fills) == s
  {
    if fills != [] {
      FillsTouchBook(setup, s, fills[..|fills| - 1]);
    }
  }

  // ---- The batch -----------------------------------------------------------------------------

  /** The orders of a batch as they are queued. */
  ghost function QueuedOf(setup: Setup, s: Backtest, b: BarIn): seq<Order>
    requires setup.Valid()
  {
    var events := EventsOf(s, b);
    Routed(setup.trade, setup.sectors, s.gate, s.book, PlanOf(setup, Guarded(s, b), b, events).1, Closes(b.bars)).1
  }

  lemma QueuedAreGood(setup: Setup, s: Backtest, b: BarIn)
    requires setup.Valid() && LongOnly(s.book)
    ensures var passed := QueuedOf(setup, s, b);
            && GoodBatch(setup.trade, DeskAt(s, b, EventsOf(s, b)), passed) && DistinctIds(passed)
            && forall o :: o in passed ==>
                 s.nextId <= o.id < s.nextId + |PlanOf(setup, Guarded(s, b), b, EventsOf(s, b)).1|
  {
    var d, day := DeskAt(s, b, EventsOf(s, b)), Guarded(s, b).day;
    var candidates := Candidates(setup.trade, d, day, s.nextId, b.now).1;
    CandidatesAreGood(setup.trade, d, day, s.nextId, b.now);
    NumberedAreDistinct(candidates, s.nextId);
    RoutedIsGood(setup.trade, setup.sectors, s.gate, d, candidates);
  }

  lemma {:induction false} ByIdFinds(orders: seq<Order>)
    requires DistinctIds(orders)
    ensures forall o :: o in orders ==> o.id in ById(orders) && ById(orders)[o.id] == o
    ensures forall id :: id in ById(orders) ==> ById(orders)[id] in orders && ById(orders)[id].id == id
  {
    if orders != [] {
      var init, o := orders[..|orders| - 1], orders[|orders| - 1];
      assert orders == init + [o];
      ByIdFinds(init);
      forall x | x in init ensures x.id != o.id {
        var i :| 0 <= i < |init| && init[i] == x;
        assert orders[i].id != orders[|init|].id;
      }
    }
  }

  lemma SlotsBound(setup: Setup, s: Backtest, buys: nat)
    requires setup.Valid() && BookOk(setup, s) && buys <= Slots(setup.trade, s.book)
    ensures |OpenSymbols(s.book)| + buys <= setup.trade.day.maxOpen
  {
    if s.book.fills == [] {
      assert OpenSymbols(s.book) == {};
    }
  }

  /** After the batch the queued orders satisfy what the next open relies on. */
  lemma BatchKeeps(setup: Setup, s: Backtest, b: BarIn)
    requires setup.Valid() && BookOk(setup, s) && s.exec.pending == []
    requires s.index <= setup.warmup ==> OpenSymbols(s.book) == {}
    requires forall id :: id in s.submitted ==> id < s.nextId
    ensures BetweenBars(setup, Closed(Batched(setup, Guarded(s, b), b, EventsOf(s, b)), b))
  {
    var t := Closed(Batched(setup, Guarded(s, b), b, EventsOf(s, b)), b);
    BatchShape(setup, s, b);
    if s.index < setup.warmup {
      assert |OpenSymbols(s.book)| == 0 && Buys([]) == 0;
    } else {
      QueuedWait(setup, s, b, t);
    }
  }

  /** What the batch changes. */
  lemma BatchShape(setup: Setup, s: Backtest, b: BarIn)
    requires setup.Valid() && s.exec.pending == []
    ensures var t := Closed(Batched(setup, Guarded(s, b), b, EventsOf(s, b)), b);
            && t.book == s.book && t.index == s.index + 1 && t.stops == LevelsAfter(s.stops, b.bars)
            && (s.index < setup.warmup ==> t.exec == s.exec && t.submitted == s.submitted && t.nextId == s.nextId)
            && (s.index >= setup.warmup ==>
                  var passed := QueuedOf(setup, s, b);
                  && t.exec.pending == passed && t.submitted == s.submitted + ById(passed)
                  && t.nextId == s.nextId + |PlanOf(setup, Guarded(s, b), b, EventsOf(s, b)).1|)
  {
    assert DeskAt(Guarded(s, b), b, EventsOf(s, b)) == DeskAt(s, b, EventsOf(s, b));
    assert [] + QueuedOf(setup, s, b) == QueuedOf(setup, s, b);
  }

  lemma QueuedWait(setup: Setup, s: Backtest, b: BarIn, t: Backtest)
    requires setup.Valid() && BookOk(setup, s)
    requires forall id :: id in s.submitted ==> id < s.nextId
    requires t.book == s.book && t.exec.pending == QueuedOf(setup, s, b)
    requires t.submitted == s.submitted + ById(t.exec.pending)
    requires t.nextId == s.nextId + |PlanOf(setup, Guarded(s, b), b, EventsOf(s, b)).1|
    ensures WaitingOk(setup, t) && forall id :: id in t.submitted ==> id < t.nextId
  {
    QueuedAreGood(setup, s, b);
    ByIdFinds(t.exec.pending);
    SlotsBound(setup, s, Buys(t.exec.pending));
  }

  lemma BarKeeps(setup: Setup, s: Backtest, b: BarIn)
    requires setup.Valid() && BetweenBars(setup, s) && Served(s, b)
    ensures BetweenBars(setup, BarDone(setup, s, b))
  {
    ExecutedKeeps(setup, s, b);
    BatchKeeps(setup, Executed(setup, s, b), b);
  }

  lemma {:induction false} RunKeeps(setup: Setup, bars: seq<BarIn>)
    requires setup.Valid() && AllServed(setup, bars)
    ensures BetweenBars(setup, Run(setup, NewBacktest(setup), bars))
  {
    if bars == [] {
      assert OpenSymbols(NewBacktest(setup).book) == {};
    } else {
      RunKeeps(setup, bars[..|bars| - 1]);
      BarKeeps(setup, Run(setup, NewBacktest(setup), bars[..|bars| - 1]), bars[|bars| - 1]);
    }
  }

  /** Over every managed backtest each position is flat or long, is never added to, and is closed by exactly its
      own quantity; at no point of the trading history are more positions open than allowed, although the slots
      were counted a bar before the orders fill. */
  lemma PositionsStayInBounds(setup: Setup, bars: seq<BarIn>)
    requires setup.Valid() && AllServed(setup, bars)
    ensures var r := Run(setup, NewBacktest(setup), bars);
            && LongOnly(r.book) && r.book == Replayed(setup.initialCapital, r.book.fills)
            && WellTraded(setup.initialCapital, setup.trade.day.maxOpen, r.book.fills)
            && |OpenSymbols(r.book)| + Buys(r.exec.pending) <= setup.trade.day.maxOpen
  {
    RunKeeps(setup, bars);
  }
}
