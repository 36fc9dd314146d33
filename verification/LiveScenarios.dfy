/** Short paper sessions, from a fresh engine on: a stop exit that a crash loses, and a purchase that passes the gate
    and is refused by the broker. */
module LiveScenarios {
  import opened Models
  import opened Portfolio
  import opened StopLoss
  import opened StopExits
  import opened RiskEngine
  import opened SignalBatch
  import opened OrderManager
  import opened PaperBroker
  import opened LiveModel
  import opened LiveRuns
  import opened LiveLaws
  import opened LiveExits
  import opened Scenarios

  // ---- The session ---------------------------------------------------------------------------

  /** Two positions, 1 percent slippage, nothing goes stale. */
  predicate Basic(setup: Setup) {
    && setup.trade == Plain(1.0, 0.0, 2) && setup.sectors == map[] && setup.terms == Terms(1000.5, 100.0, 0.0)
    && !setup.dryRun && !setup.trailing && setup.ttl <= 0
  }

  function FreshPaper(setup: Setup): Live {
    Live(Some(NewPaper(setup.terms)), EMPTY_OMS, Replayed(setup.terms.initialCapital, []), map[],
         Gate(setup.terms.initialCapital, false), NO_DAY, map[], true, 0, None, [])
  }

  lemma FreshIsClean(setup: Setup)
    requires Basic(setup)
    ensures setup.trade.Valid() && FairTerms(setup.terms) && CleanSession(setup, FreshPaper(setup))
  {
  }

  lemma RunGrows(setup: Setup, s: Live, ticks: seq<Tick>, t: Tick)
    requires setup.trade.Valid()
    ensures Run(setup, s, ticks + [t]) == Ticked(setup, Run(setup, s, ticks), t)
    ensures AllReal(setup, s, ticks + [t]) <==> AllReal(setup, s, ticks) && RealStops(setup, Run(setup, s, ticks), t)
  {
    assert (ticks + [t])[..|ticks|] == ticks;
  }

  // ---- A batch with one order ----------------------------------------------------------------

  /** The tick puts one order past the gate. */
  ghost predicate PassesOne(setup: Setup, s: Live, t: Tick, o: Order)
    requires setup.trade.Valid()
  {
    PassedIn(setup, s, t) == [o]
  }

  lemma BatchOfOne(setup: Setup, s: Live, t: Tick, o: Order)
    requires setup.trade.Valid() && PassesOne(setup, s, t, o)
    ensures BatchDone(setup, s, t)
            == Sent(setup, Staged(setup, Prepared(setup, s, t), t, EventsOf(setup, s, t)), o, t.now, t.world)
  {
    BatchSubmitsPassing(setup, Prepared(setup, s, t), t, EventsOf(setup, s, t));
    assert [o][..0] == [];
  }

  /** A purchase that the broker's cash does not cover passes the gate and ends REJECTED. */
  lemma UncoveredIsRejected(setup: Setup, s: Live, start: real, k: nat, t: Tick, o: Order)
    requires setup.trade.Valid() && FairTerms(setup.terms) && !setup.dryRun && RunOk(s, start, k) && t.Completes()
    requires PassesOne(setup, s, t, o) && o.side.Buy? && o.symbol in t.bars
    requires var r := Prepared(setup, s, t);
             r.venue.Some? && o.symbol in r.venue.value.quotes
             && CannotPay(r.venue.value, FillFor(setup.terms, r.venue.value, o, t.now))
    ensures var m := Ticked(setup, s, t).oms.orders;
            o.id in m && m[o.id].status.Rejected? && m[o.id].rejection == "INSUFFICIENT_FUNDS"
  {
    var r, events := Prepared(setup, s, t), EventsOf(setup, s, t);
    var staged := Staged(setup, r, t, events);
    PreparedIsCurrent(setup, s, start, k, t);
    BatchIsReady(setup, r, start, t, events);
    assert o in PassedIn(setup, s, t);
    BatchOfOne(setup, s, t, o);
    RefusedIsRejected(setup, staged, o, t.now, t.world);
    var d := BatchDone(setup, s, t);
    BatchDoneKeeps(setup, s, start, k, t);
    RejectedStays(setup, d, t, o.id);
  }

  lemma RefusedIsRejected(setup: Setup, s: Live, o: Order, now: Time, world: World)
    requires s.venue.Some? && s.venue.value.connected && !setup.dryRun && o.symbol in s.venue.value.quotes
    requires o.id !in s.oms.orders && CannotPay(s.venue.value, FillFor(setup.terms, s.venue.value, o, now))
    ensures var m := Sent(setup, s, o, now, world).oms.orders;
            o.id in m && m[o.id].status.Rejected? && m[o.id].rejection == "INSUFFICIENT_FUNDS"
  {
    PaperAttempt(setup, s.(oms := Created(s.oms, o, now)), o, 0, now, world);
  }

  lemma {:induction false} DrainKeepsFinal(setup: Setup, s: Live, log: seq<Fill>, now: Time, id: OrderId)
    requires Consistent(s.oms) && id in s.oms.orders && s.oms.orders[id].IsTerminal()
    ensures var t := Drained(setup, s, log, now).oms;
            Consistent(t) && id in t.orders && t.orders[id] == s.oms.orders[id]
  {
    if log != [] {
      var before := Drained(setup, s, log[..|log| - 1], now);
      DrainKeepsFinal(setup, s, log[..|log| - 1], now, id);
      DrainOneKeepsRest(setup, before, log[|log| - 1], now);
      FillSkipsFinal(setup, before, log[|log| - 1], now, id);
    }
  }

  lemma FillSkipsFinal(setup: Setup, s: Live, f: Fill, now: Time, id: OrderId)
    requires Consistent(s.oms) && id in s.oms.orders && s.oms.orders[id].IsTerminal()
    ensures var t := DrainOne(setup, s, f, now).oms; id in t.orders && t.orders[id] == s.oms.orders[id]
  {
    if f.orderId in s.oms.orders {
      DrainOneIsFill(setup, s, f, now);
    }
  }

  lemma RejectedStays(setup: Setup, d: Live, t: Tick, id: OrderId)
    requires d.venue.Some? && Consistent(d.oms) && id in d.oms.orders && d.oms.orders[id].status.Rejected?
    ensures var m := Finished(setup, d, t).oms.orders; id in m && m[id] == d.oms.orders[id]
  {
    DrainKeepsFinal(setup, d, LogOf(d), t.now, id);
  }

  lemma CoveredIsLogged(setup: Setup, s: Live, start: real, k: nat, t: Tick, o: Order)
    requires setup.trade.Valid() && FairTerms(setup.terms) && !setup.dryRun && RunOk(s, start, k)
    requires PassesOne(setup, s, t, o) && Covers(setup, Prepared(setup, s, t), o, t.now)
    ensures var r, d := Prepared(setup, s, t), BatchDone(setup, s, t);
            && LogOf(d) == LogOf(r) + [FillFor(setup.terms, r.venue.value, o, t.now)]
            && d.book == r.book && d.stops == r.stops
            && o.id in d.oms.orders && d.oms.orders[o.id].order == o
  {
    var r, events := Prepared(setup, s, t), EventsOf(setup, s, t);
    var staged := Staged(setup, r, t, events);
    PreparedIsCurrent(setup, s, start, k, t);
    BatchIsReady(setup, r, start, t, events);
    assert o in PassedIn(setup, s, t);
    BatchOfOne(setup, s, t, o);
    SentPlaces(setup, staged, o, t.now, t.world);
    SentKeeps(setup, staged, start, |LogOf(r)|, o, t.now, t.world);
    var first := SentLogs(setup, staged, start, |LogOf(r)|, o, t.now, t.world);
  }

  /** The broker quotes the symbol and has the cash. */
  predicate Covers(setup: Setup, r: Live, o: Order, now: Time) {
    r.venue.Some? && o.symbol in r.venue.value.quotes
    && !CannotPay(r.venue.value, FillFor(setup.terms, r.venue.value, o, now))
  }

  /** A covered order is filled in its tick: the fill reaches the book and the levels. */
  lemma CoveredIsFilled(setup: Setup, s: Live, start: real, k: nat, t: Tick, o: Order)
    requires setup.trade.Valid() && FairTerms(setup.terms) && !setup.dryRun && RunOk(s, start, k) && t.Completes()
    requires PassesOne(setup, s, t, o) && Covers(setup, Prepared(setup, s, t), o, t.now)
    ensures var r, e := Prepared(setup, s, t), Ticked(setup, s, t);
            var f := FillFor(setup.terms, r.venue.value, o, t.now);
            && LogOf(e) == LogOf(r) + [f] && e.book == Applied(r.book, f)
            && e.stops == StopsFor(setup.trailing, r.stops, At(e.book, f.symbol), f, o)
  {
    CoveredIsLogged(setup, s, start, k, t, o);
    BatchDoneKeeps(setup, s, start, k, t);
    PreparedKeeps(setup, s, start, k, t);
    LastIsTaken(setup, BatchDone(setup, s, t), start, |LogOf(s)|, t, o);
  }

  /** The end of a tick with one fill left to drain. */
  lemma LastIsTaken(setup: Setup, d: Live, start: real, k: nat, t: Tick, o: Order)
    requires RunOk(d, start, k) && |LogOf(d)| == k + 1 && LogOf(d)[k].orderId == o.id
    requires o.id in d.oms.orders && d.oms.orders[o.id].order == o
    ensures var e, f := Finished(setup, d, t), LogOf(d)[k];
            && LogOf(e) == LogOf(d) && e.book == Applied(d.book, f)
            && e.stops == StopsFor(setup.trailing, d.stops, At(e.book, f.symbol), f, o)
  {
    var log := LogOf(d);
    assert log[..|log|] == log && Logged(d.oms, log[k], false);
    DrainOldPart(setup, d, start, k, k, t.now);
    DrainedUnfolds(setup, d, log, k + 1, t.now);
    FinishedKeeps(setup, d, start, k, t);
  }

  // ---- The first tick ------------------------------------------------------------------------

  /** A tick that completes, with one long signal. */
  predicate Plainly(t: Tick, at: Time, x: Symbol) {
    t.Completes() && t.now == t.date == at && t.signals == [LongFor(x)] && t.fired == []
  }

  lemma NothingDrained(setup: Setup, s: Live, start: real, t: Tick)
    requires RunOk(s, start, |LogOf(s)|)
    ensures Opened(setup, s, t).book == s.book && Prepared(setup, s, t).book == s.book
    ensures var r := Prepared(setup, s, t);
            && LogOf(r) == LogOf(s) && r.venue.Some? && r.venue.value.cash == s.book.cash
            && forall x :: Held(r.venue.value, x) == At(s.book, x).quantity
  {
    var u := Opened(setup, s, t);
    PricedKeeps(s, start, |LogOf(s)|, t.bars);
    PollDrainsAll(setup, Priced(Connected(s), Closes(t.bars)), start, |LogOf(s)|, t.now, t.world, true);
    PreparedShape(setup, s, start, |LogOf(s)|, t);
    PreparedKeeps(setup, s, start, |LogOf(s)|, t);
    DrainedHasSameBooks(Prepared(setup, s, t), start);
  }

  /** The gate, the day and the ids before the batch. */
  lemma PreparedRest(setup: Setup, s: Live, start: real, k: nat, t: Tick)
    requires RunOk(s, start, k)
    ensures var r := Prepared(setup, s, t);
            && r.gate == Raised(s.gate, EquityAt(r.book, Closes(t.bars)))
            && r.day == DayUpdated(s.day, t.date, EquityAt(r.book, Closes(t.bars))) && r.nextId == s.nextId
  {
    var p := Priced(Connected(s), Closes(t.bars));
    PricedKeeps(s, start, k, t.bars);
    PollDrainsAll(setup, p, start, k, t.now, t.world, true);
    DrainKeepsRest(setup, p, LogOf(p), t.now);
    var polled := Opened(setup, s, t);
    ExpireAllKeeps(setup, polled, start, Stale(polled.oms, polled.oms.ids, setup.ttl, t.now), t.now, t.world);
  }

  /** Nothing has happened yet. */
  predicate Untouched(s: Live) {
    && s.book.positions == map[] && s.book.cash == 1000.5 && LogOf(s) == [] && s.queued == [] && s.stops == map[]
    && s.gate.peak <= 1000.5 && s.day == NO_DAY
  }

  lemma NothingHeld(b: Book, prices: Prices)
    requires b.positions == map[]
    ensures EquityAt(b, prices) == b.cash && OpenSymbols(b) == {}
  {
    assert MarketValues(b, prices) == map[];
  }

  lemma FirstEvents(setup: Setup, s: Live, t: Tick, x: Symbol)
    requires s.queued == [] && t.fired == [] && t.signals == [LongFor(x)]
    ensures EventsOf(setup, s, t) == [LongFor(x)]
  {
    assert [] + [] + [LongFor(x)] == [LongFor(x)];
  }

  lemma FirstReconciles(setup: Setup, s: Live, t: Tick)
    requires RunOk(s, 1000.5, 0) && Untouched(s)
    ensures Prepared(setup, s, t).reconciled && Prepared(setup, s, t).book == s.book
  {
    NothingDrained(setup, s, 1000.5, t);
    NothingHeld(s.book, Closes(t.bars));
    PricedTicksReconcile(setup, s, 1000.5, 0, t);
  }

  lemma FirstEquity(setup: Setup, s: Live, t: Tick)
    requires RunOk(s, 1000.5, 0) && Untouched(s)
    ensures EquityAt(Prepared(setup, s, t).book, Closes(t.bars)) == 1000.5
  {
    NothingDrained(setup, s, 1000.5, t);
    NothingHeld(s.book, Closes(t.bars));
  }

  /** With that equity the peak stays and the first day starts. */
  lemma DayStarts(s: Live, r: Live, date: int, equity: real)
    requires s.gate.peak <= 1000.5 && s.day == NO_DAY && equity == 1000.5
    requires r.gate == Raised(s.gate, equity) && r.day == DayUpdated(s.day, date, equity)
    ensures r.day == Day(Some(date), Some(1000.5), false) && r.gate.peak <= 1000.5
  {
  }

  lemma FirstRest(setup: Setup, s: Live, t: Tick)
    requires RunOk(s, 1000.5, 0) && Untouched(s)
    ensures var r := Prepared(setup, s, t);
            r.day == Day(Some(t.date), Some(1000.5), false) && r.gate.peak <= 1000.5 && r.nextId == s.nextId
  {
    var r := Prepared(setup, s, t);
    FirstEquity(setup, s, t);
    PreparedRest(setup, s, 1000.5, 0, t);
    DayStarts(s, r, t.date, EquityAt(r.book, Closes(t.bars)));
  }

  /** The first desk. */
  lemma FirstDesk(setup: Setup, s: Live, t: Tick, x: Symbol, at: Time)
    requires Basic(setup) && RunOk(s, 1000.5, 0) && Untouched(s) && Plainly(t, at, x) && QuietIn(t.bars, x)
    ensures Unspent(DeskOf(setup, s, t)) && DeskOf(setup, s, t).events == [LongFor(x)]
  {
    FirstReconciles(setup, s, t);
    FirstEvents(setup, s, t, x);
    OneIsUnspent(DeskOf(setup, s, t), x);
  }

  lemma FirstPasses(setup: Setup, s: Live, t: Tick, x: Symbol, at: Time)
    requires Basic(setup) && RunOk(s, 1000.5, 0) && Untouched(s) && Plainly(t, at, x) && QuietIn(t.bars, x)
    ensures setup.trade.Valid() && PassesOne(setup, s, t, Purchase(x, 100, s.nextId, at))
  {
    var r := Prepared(setup, s, t);
    FirstRest(setup, s, t);
    FirstDesk(setup, s, t, x, at);
    DeskPasses(r.gate, DeskOf(setup, s, t), r.day, x, s.nextId, at);
  }

  /** 100 shares, bought at 1.01 with a stop at 0.5. */
  predicate Bought(s: Live, x: Symbol, at: Time) {
    && s.book.positions == map[x := Holding(100, 1.01, 0.0, Some(at))] && s.book.cash == 899.5
    && s.stops == map[x := NewLevel(1.01, 0.5, None, false, "")]
  }

  lemma PaidFor(terms: Terms, p: Paper, x: Symbol, id: OrderId, now: Time)
    requires terms == Terms(1000.5, 100.0, 0.0) && x in p.quotes && p.quotes[x] == 1.0
    ensures var f := FillFor(terms, p, Purchase(x, 100, id, now), now);
            f.fillPrice == 1.01 && f.commission == 0.0 && CashEffect(f) == -101.0
  {
  }

  lemma BoughtFrom(b: Book, f: Fill, x: Symbol, id: OrderId, at: Time)
    requires b.positions == map[] && b.cash == 1000.5 && f.symbol == x && f.side.Buy? && f.quantity == 100
    requires f.fillPrice == 1.01 && CashEffect(f) == -101.0 && f.timestamp == at
    ensures var a := Applied(b, f);
            && a.positions == map[x := Holding(100, 1.01, 0.0, Some(at))] && a.cash == 899.5
            && StopsFor(false, map[], At(a, x), f, Purchase(x, 100, id, at))
               == map[x := NewLevel(1.01, 0.5, None, false, "")]
  {
    assert At(b, x) == FLAT;
  }

  /** Without fills to drain the levels are those of the tick before. */
  lemma SameLevels(setup: Setup, s: Live, start: real, t: Tick)
    requires ExitOk(s, start, |LogOf(s)|)
    ensures Opened(setup, s, t).stops == s.stops && Prepared(setup, s, t).stops == LevelsAfter(s.stops, t.bars)
  {
    assert LogOf(s)[|LogOf(s)|..] == [];
    OpenedAdvances(setup, s, start, |LogOf(s)|, t);
    PreparedShape(setup, s, start, |LogOf(s)|, t);
    NoneTaken(s, Opened(setup, s, t));
  }

  lemma NoneTaken(s: Live, u: Live)
    requires Taken(s, u, [])
    ensures u.stops == s.stops
  {
    forall x ensures (x in u.stops <==> x in s.stops) && (x in s.stops ==> u.stops[x] == s.stops[x]) {
      assert FreshIn([], x);
      assert SameFor(s, u, x);
    }
    assert u.stops.Keys == s.stops.Keys;
  }

  lemma FirstTick(setup: Setup, s: Live, t: Tick, x: Symbol, at: Time)
    requires Basic(setup) && ExitOk(s, 1000.5, 0) && Untouched(s) && Plainly(t, at, x) && QuietIn(t.bars, x)
    ensures setup.trade.Valid() && Bought(Ticked(setup, s, t), x, at)
  {
    var r, o := Prepared(setup, s, t), Purchase(x, 100, s.nextId, at);
    FirstPasses(setup, s, t, x, at);
    NothingDrained(setup, s, 1000.5, t);
    PreparedIsCurrent(setup, s, 1000.5, 0, t);
    PaidFor(setup.terms, r.venue.value, x, s.nextId, at);
    CoveredIsFilled(setup, s, 1000.5, 0, t, o);
    SameLevels(setup, s, 1000.5, t);
    BoughtFrom(r.book, FillFor(setup.terms, r.venue.value, o, at), x, s.nextId, at);
  }

  /** What a batch leaves of the gate and the day. */
  lemma BatchRest(setup: Setup, r: Live, start: real, t: Tick, events: seq<Signal>)
    requires setup.trade.Valid() && setup.sectors == map[] && FairTerms(setup.terms) && RunOk(r, start, |LogOf(r)|)
             && t.crash.None?
    ensures var d := Batched(setup, r, t, events);
            && d.gate.peak <= MaxR(r.gate.peak, EquityAt(r.book, Closes(t.bars))) && d.day.date == r.day.date
  {
    BatchIsReady(setup, r, start, t, events);
    BatchSubmitsPassing(setup, r, t, events);
    SubmitAllKeeps(setup, Staged(setup, r, t, events), start, |LogOf(r)|, r.book, Passing(setup, r, t, events), t.now,
                   t.world);
    PeakStays(setup.trade, r.gate, DeskAt(r, t, events), BatchPlan(setup, r, t, events).1);
    DateStays(setup.trade, DeskAt(r, t, events), r.day, r.nextId, t.now);
  }

  lemma FinishRest(setup: Setup, d: Live, t: Tick)
    requires d.venue.Some? && Consistent(d.oms)
    ensures var e := Finished(setup, d, t);
            e.gate == Raised(d.gate, EquityAt(e.book, Closes(t.bars))) && e.day == d.day
  {
    DrainKeepsRest(setup, d, LogOf(d), t.now);
  }

  lemma FirstBatchRest(setup: Setup, s: Live, t: Tick, x: Symbol)
    requires Basic(setup) && RunOk(s, 1000.5, 0) && Untouched(s) && Plainly(t, 0, x) && QuietIn(t.bars, x)
    ensures setup.trade.Valid() && Settled(BatchDone(setup, s, t))
  {
    FirstRest(setup, s, t);
    FirstEquity(setup, s, t);
    PreparedIsCurrent(setup, s, 1000.5, 0, t);
    BatchRest(setup, Prepared(setup, s, t), 1000.5, t, EventsOf(setup, s, t));
  }

  lemma FinishSettles(setup: Setup, d: Live, t: Tick, x: Symbol)
    requires d.venue.Some? && Consistent(d.oms) && Settled(d) && t.bars == map[x := QUIET_BAR]
    requires Bought(Finished(setup, d, t), x, 0)
    ensures Settled(Finished(setup, d, t))
  {
    FinishRest(setup, d, t);
    BoughtIsWorth(Finished(setup, d, t), x, 0);
  }

  lemma FirstTickRest(setup: Setup, s: Live, t: Tick, x: Symbol)
    requires Basic(setup) && ExitOk(s, 1000.5, 0) && Untouched(s) && Plainly(t, 0, x) && t.bars == map[x := QUIET_BAR]
    ensures setup.trade.Valid() && Settled(Ticked(setup, s, t))
  {
    assert QuietIn(t.bars, x);
    FirstBatchRest(setup, s, t, x);
    FirstTick(setup, s, t, x, 0);
    BatchDoneKeeps(setup, s, 1000.5, 0, t);
    FinishSettles(setup, BatchDone(setup, s, t), t, x);
  }

  /** The peak is the capital, and the day is the first. */
  predicate Settled(s: Live) {
    s.gate.peak <= 1000.5 && s.day.date == Some(0)
  }

  lemma BoughtIsWorth(e: Live, x: Symbol, at: Time)
    requires Bought(e, x, at)
    ensures EquityAt(e.book, Closes(map[x := QUIET_BAR])) == 999.5
  {
    TotalOfOne(MarketValues(e.book, Closes(map[x := QUIET_BAR])), x);
  }

  // ---- A crash between the stop check and the batch ------------------------------------------

  /** A bar that reaches the stop. */
  const DIP_BAR: Bar := BarData(1.0, 1.0, 0.5, 1.0, 1.0)

  lemma DipFires(levels: Levels, x: Symbol)
    requires levels == map[x := NewLevel(1.01, 0.5, None, false, "")]
    ensures IsFired([x], levels, map[x := DIP_BAR]) && LevelsAfter(levels, map[x := DIP_BAR]) == map[]
  {
  }

  predicate Crashes(t: Tick, x: Symbol) {
    t.bars == map[x := DIP_BAR] && !t.fails && t.crash == Some(0) && t.signals == [] && t.fired == [x]
  }

  /** Held on both sides, without a level and without a queued exit. */
  ghost predicate Stranded(s: Live, x: Symbol) {
    && At(s.book, x).quantity == 100 && !HasExit(s, x)
    && s.venue.Some? && Held(s.venue.value, x) == 100
  }

  predicate SameHoldings(r: Live, e: Live) {
    e.book == r.book && e.stops == r.stops && e.queued == r.queued && e.venue == r.venue
  }

  /** A crash before the first order leaves everything as it was before the batch. */
  lemma NothingRouted(setup: Setup, s: Live, t: Tick)
    requires setup.trade.Valid() && t.crash == Some(0) && t.bars != map[] && !t.fails
    ensures SameHoldings(Prepared(setup, s, t), Ticked(setup, s, t))
  {
    BatchSubmitsPassing(setup, Prepared(setup, s, t), t, EventsOf(setup, s, t));
  }

  lemma CrashKeepsPosition(setup: Setup, s: Live, start: real, t: Tick, x: Symbol)
    requires setup.trade.Valid() && ExitOk(s, start, |LogOf(s)|) && Crashes(t, x)
    ensures var e := Ticked(setup, s, t);
            && LogOf(e) == LogOf(s) && e.queued == []
            && e.book == s.book && e.stops == LevelsAfter(s.stops, t.bars)
            && e.venue.Some? && Held(e.venue.value, x) == At(e.book, x).quantity
  {
    assert x in t.bars;
    NothingRouted(setup, s, t);
    SameLevels(setup, s, start, t);
    NothingDrained(setup, s, start, t);
    PreparedShape(setup, s, start, |LogOf(s)|, t);
  }

  lemma CrashStrands(setup: Setup, s: Live, t: Tick, x: Symbol, at: Time)
    requires Basic(setup) && ExitOk(s, 1000.5, |LogOf(s)|) && Bought(s, x, at) && Crashes(t, x)
    ensures setup.trade.Valid() && RealStops(setup, s, t)
    ensures Stranded(Ticked(setup, s, t), x) && ExitOk(Ticked(setup, s, t), 1000.5, |LogOf(Ticked(setup, s, t))|)
  {
    SameLevels(setup, s, 1000.5, t);
    DipFires(s.stops, x);
    CrashKeepsPosition(setup, s, 1000.5, t, x);
    CrashedTickKeeps(setup, s, 1000.5, |LogOf(s)|, t);
    NothingLeftSuits(Ticked(setup, s, t));
  }

  predicate Silent(t: Tick) {
    t.Completes() && t.signals == [] && t.fired == []
  }

  lemma NothingCloses(setup: Setup, s: Live, t: Tick)
    requires Silent(t) && s.queued == []
    ensures ClosingSignals(setup.trade, DeskOf(setup, s, t)) == []
  {
    assert EventsOf(setup, s, t) == [] && Chosen([]) == [];
  }

  /** Nothing brings the exit back: while the strategy is silent the position stays, on any bars. */
  lemma StaysStranded(setup: Setup, s: Live, start: real, t: Tick, x: Symbol)
    requires setup.trade.Valid() && Basic(setup) && ExitOk(s, start, |LogOf(s)|)
    requires At(s.book, x).quantity != 0 && x !in s.stops && s.queued == [] && Silent(t)
    ensures At(Ticked(setup, s, t).book, x).quantity != 0 && !HasExit(Ticked(setup, s, t), x)
  {
    NothingDrained(setup, s, start, t);
    SameLevels(setup, s, start, t);
    NothingCloses(setup, s, t);
    SoldInTick(setup, s, start, |LogOf(s)|, t, x);
    LevelAtEndOfTick(setup, s, start, |LogOf(s)|, t, x);
    NothingQueued(setup, s, start, |LogOf(s)|, t);
  }

  /** A tick with nothing but bars and signals. */
  function TickOf(at: Time, bars: Bars, signals: seq<Signal>, fired: seq<Symbol>, crash: Option<nat>,
                  world: World): Tick
  {
    Tick(at, at, bars, map[], map[], signals, fired, false, crash, world)
  }

  lemma FreshIsOk(setup: Setup)
    requires Basic(setup)
    ensures setup.trade.Valid() && FairTerms(setup.terms) && CleanSession(setup, FreshPaper(setup))
    ensures ExitOk(FreshPaper(setup), 1000.5, 0) && Untouched(FreshPaper(setup))
  {
    FreshIsClean(setup);
    var k := RunIsOk(setup, FreshPaper(setup), []);
  }

  lemma FirstStopsAreReal(setup: Setup, s: Live, t: Tick, x: Symbol)
    requires ExitOk(s, 1000.5, 0) && Untouched(s) && Plainly(t, 0, x)
    ensures RealStops(setup, s, t)
  {
    SameLevels(setup, s, 1000.5, t);
  }

  lemma FirstTickIsOk(setup: Setup, s: Live, t: Tick, x: Symbol)
    requires Basic(setup) && ExitOk(s, 1000.5, 0) && Untouched(s) && Plainly(t, 0, x) && QuietIn(t.bars, x)
    ensures setup.trade.Valid()
    ensures var e := Ticked(setup, s, t); Bought(e, x, 0) && ExitOk(e, 1000.5, |LogOf(e)|) && e.queued == []
  {
    FirstTick(setup, s, t, x, 0);
    CompletedTickIsOk(setup, s, 1000.5, 0, t);
    NothingQueued(setup, s, 1000.5, 0, t);
  }

  ghost predicate Session(setup: Setup, ticks: seq<Tick>)
    requires setup.trade.Valid()
  {
    var s := Run(setup, FreshPaper(setup), ticks);
    AllReal(setup, FreshPaper(setup), ticks) && ExitOk(s, 1000.5, |LogOf(s)|) && s.queued == []
  }

  lemma StartOfSession(setup: Setup)
    requires Basic(setup)
    ensures setup.trade.Valid() && Session(setup, []) && Run(setup, FreshPaper(setup), []) == FreshPaper(setup)
  {
    FreshIsOk(setup);
  }

  /** The first tick of a session buys, and leaves nothing to drain. */
  lemma SessionBuys(setup: Setup, x: Symbol, world: World) returns (t: Tick)
    requires Basic(setup)
    ensures setup.trade.Valid() && Session(setup, [t])
    ensures var s := Run(setup, FreshPaper(setup), [t]); Bought(s, x, 0) && Settled(s)
  {
    t := TickOf(0, map[x := QUIET_BAR], [LongFor(x)], [], None, world);
    assert x in t.bars;
    FreshIsOk(setup);
    StartOfSession(setup);
    FirstStopsAreReal(setup, FreshPaper(setup), t, x);
    FirstTickIsOk(setup, FreshPaper(setup), t, x);
    FirstTickRest(setup, FreshPaper(setup), t, x);
    RunGrows(setup, FreshPaper(setup), [], t);
    assert [] + [t] == [t];
  }

  lemma SessionCrashes(setup: Setup, ticks: seq<Tick>, b: Tick, x: Symbol)
    requires setup.trade.Valid() && Basic(setup) && Session(setup, ticks) && Crashes(b, x)
    requires Bought(Run(setup, FreshPaper(setup), ticks), x, 0)
    ensures Session(setup, ticks + [b]) && Stranded(Run(setup, FreshPaper(setup), ticks + [b]), x)
  {
    var s := Run(setup, FreshPaper(setup), ticks);
    CrashStrands(setup, s, b, x, 0);
    CrashKeepsPosition(setup, s, 1000.5, b, x);
    RunGrows(setup, FreshPaper(setup), ticks, b);
  }

  lemma SilenceStrands(setup: Setup, ticks: seq<Tick>, c: Tick, x: Symbol)
    requires setup.trade.Valid() && Basic(setup) && Session(setup, ticks) && Silent(c)
    requires Stranded(Run(setup, FreshPaper(setup), ticks), x)
    ensures var s := Run(setup, FreshPaper(setup), ticks + [c]); At(s.book, x).quantity != 0 && !HasExit(s, x)
  {
    StaysStranded(setup, Run(setup, FreshPaper(setup), ticks), 1000.5, c, x);
    RunGrows(setup, FreshPaper(setup), ticks, c);
  }

  /** The stop fires and the tick crashes before its first order: the level is gone, the exit is not on the queue and
      nothing has been sold. So the position is left, while the strategy is silent. */
  lemma CrashLosesExit(setup: Setup, x: Symbol, world: World, c: Tick) returns (ticks: seq<Tick>)
    requires Basic(setup) && Silent(c)
    ensures setup.trade.Valid() && FairTerms(setup.terms) && CleanSession(setup, FreshPaper(setup))
    ensures AllReal(setup, FreshPaper(setup), ticks) && Stranded(Run(setup, FreshPaper(setup), ticks), x)
    ensures var s := Run(setup, FreshPaper(setup), ticks + [c]); At(s.book, x).quantity != 0 && !HasExit(s, x)
  {
    var a := SessionBuys(setup, x, world);
    var b := TickOf(1, map[x := DIP_BAR], [], [x], Some(0), world);
    ticks := [a] + [b];
    FreshIsClean(setup);
    SessionCrashes(setup, [a], b, x);
    SilenceStrands(setup, ticks, c, x);
  }

  // ---- A purchase without the reserve for its costs ------------------------------------------

  const HIGH_BAR: Bar := BarData(100.0, 100.0, 100.0, 100.0, 1.0)

  /** Another day, on which what is held has gained a hundredfold. */
  predicate Gains(t: Tick, x: Symbol, y: Symbol) {
    && t.bars == map[x := HIGH_BAR, y := QUIET_BAR] && Plainly(t, 1, y) && x != y
  }

  lemma DeskIsGained(d: Desk, s: Live, t: Tick, x: Symbol, y: Symbol)
    requires Bought(s, x, 0) && Gains(t, x, y)
    requires d.book == s.book && d.tape.bars == t.bars && d.stopped == {} && d.mayOpen && d.events == [LongFor(y)]
    ensures Gained(d, x, y)
  {
    assert At(s.book, y) == FLAT;
  }

  lemma SecondReconciles(setup: Setup, s: Live, t: Tick, x: Symbol, y: Symbol)
    requires RunOk(s, 1000.5, |LogOf(s)|) && Bought(s, x, 0) && Gains(t, x, y)
    ensures Prepared(setup, s, t).reconciled && Prepared(setup, s, t).book == s.book
  {
    NothingDrained(setup, s, 1000.5, t);
    assert OpenSymbols(s.book) == {x} && x in t.bars;
    PricedTicksReconcile(setup, s, 1000.5, |LogOf(s)|, t);
  }

  lemma SecondDesk(setup: Setup, s: Live, t: Tick, x: Symbol, y: Symbol)
    requires RunOk(s, 1000.5, |LogOf(s)|) && Bought(s, x, 0) && s.queued == [] && Gains(t, x, y)
    ensures Gained(DeskOf(setup, s, t), x, y) && Prepared(setup, s, t).book == s.book
  {
    SecondReconciles(setup, s, t, x, y);
    FirstEvents(setup, s, t, y);
    DeskIsGained(DeskOf(setup, s, t), s, t, x, y);
  }

  lemma SecondDay(setup: Setup, s: Live, t: Tick, x: Symbol, y: Symbol)
    requires RunOk(s, 1000.5, |LogOf(s)|) && Bought(s, x, 0) && s.queued == [] && Gains(t, x, y)
    requires Settled(s)
    ensures var r := Prepared(setup, s, t);
            && r.gate.peak <= 10899.5 && r.day == Day(Some(1), Some(10899.5), false) && r.nextId == s.nextId
  {
    SecondDesk(setup, s, t, x, y);
    GainedExposure(DeskOf(setup, s, t), x, y);
    PreparedRest(setup, s, 1000.5, |LogOf(s)|, t);
  }

  lemma SecondPasses(setup: Setup, s: Live, t: Tick, x: Symbol, y: Symbol)
    requires Basic(setup) && RunOk(s, 1000.5, |LogOf(s)|) && Bought(s, x, 0) && s.queued == [] && Gains(t, x, y)
    requires Settled(s)
    ensures setup.trade.Valid() && PassesOne(setup, s, t, Purchase(y, 899, s.nextId, 1))
  {
    var r := Prepared(setup, s, t);
    SecondDesk(setup, s, t, x, y);
    SecondDay(setup, s, t, x, y);
    GainedOrder(DeskOf(setup, s, t), r.day, x, y, s.nextId, 1);
    GainedCheck(r.gate, DeskOf(setup, s, t), x, y, s.nextId, 1);
  }

  lemma CostsMore(terms: Terms, p: Paper, y: Symbol, id: OrderId, now: Time)
    requires terms == Terms(1000.5, 100.0, 0.0) && y in p.quotes && p.quotes[y] == 1.0 && p.cash == 899.5
    ensures CannotPay(p, FillFor(terms, p, Purchase(y, 899, id, now), now))
  {
  }

  lemma SecondIsRejected(setup: Setup, s: Live, t: Tick, x: Symbol, y: Symbol)
    requires Basic(setup) && ExitOk(s, 1000.5, |LogOf(s)|) && Bought(s, x, 0) && s.queued == [] && Gains(t, x, y)
    requires Settled(s)
    ensures setup.trade.Valid() && PassesOne(setup, s, t, Purchase(y, 899, s.nextId, 1))
    ensures var m := Ticked(setup, s, t).oms.orders;
            s.nextId in m && m[s.nextId].status.Rejected? && m[s.nextId].rejection == "INSUFFICIENT_FUNDS"
  {
    SecondPasses(setup, s, t, x, y);
    NothingDrained(setup, s, 1000.5, t);
    PreparedIsCurrent(setup, s, 1000.5, |LogOf(s)|, t);
    assert y in t.bars;
    CostsMore(setup.terms, Prepared(setup, s, t).venue.value, y, s.nextId, 1);
    UncoveredIsRejected(setup, s, 1000.5, |LogOf(s)|, t, Purchase(y, 899, s.nextId, 1));
  }

  lemma SessionRejects(setup: Setup, ticks: seq<Tick>, b: Tick, x: Symbol, y: Symbol) returns (o: Order)
    requires setup.trade.Valid() && Basic(setup) && Session(setup, ticks) && Gains(b, x, y)
    requires var s := Run(setup, FreshPaper(setup), ticks);
             Bought(s, x, 0) && Settled(s)
    ensures o in PassedIn(setup, Run(setup, FreshPaper(setup), ticks), b)
    ensures var m := Run(setup, FreshPaper(setup), ticks + [b]).oms.orders;
            o.id in m && m[o.id].status.Rejected? && m[o.id].rejection == "INSUFFICIENT_FUNDS"
  {
    var s := Run(setup, FreshPaper(setup), ticks);
    SecondIsRejected(setup, s, b, x, y);
    RunGrows(setup, FreshPaper(setup), ticks, b);
    o := Purchase(y, 899, s.nextId, 1);
  }

  /** Without a reserve and with slippage the condition fails, and so does a purchase: after a hundredfold gain the next
      one may take all of the cash; its order passes the gate and the broker refuses it for lack of funds. */
  lemma ThinReserveRejects(setup: Setup, x: Symbol, y: Symbol, world: World)
    returns (ticks: seq<Tick>, b: Tick, o: Order)
    requires Basic(setup) && x != y
    ensures setup.trade.Valid() && FairTerms(setup.terms) && FreshSession(setup, FreshPaper(setup)) && b.Completes()
    ensures Fraction(1.0 - setup.trade.alloc.minCashPct, CostFactor(setup.terms)) > 1.0
    ensures o in PassedIn(setup, Run(setup, FreshPaper(setup), ticks), b)
    ensures var m := Run(setup, FreshPaper(setup), ticks + [b]).oms.orders;
            o.id in m && m[o.id].status.Rejected? && m[o.id].rejection == "INSUFFICIENT_FUNDS"
  {
    b := TickOf(1, map[x := HIGH_BAR, y := QUIET_BAR], [LongFor(y)], [], None, world);
    assert x in b.bars;
    var a := SessionBuys(setup, x, world);
    ticks := [a];
    o := SessionRejects(setup, ticks, b, x, y);
    FreshIsClean(setup);
  }
}
