/** A short session with an outside broker, from a fresh engine on: a report about another order than the one polled,
    and the shares that are booked twice. */
module PollScenarios {
  import opened Models
  import opened Portfolio
  import opened RiskEngine
  import opened SignalBatch
  import opened BatchBounds
  import opened OrderManager
  import opened PaperBroker
  import opened LiveModel
  import opened LiveRuns
  import opened LiveLaws
  import opened VenueLaws
  import opened PollLaws
  import opened Scenarios

  // ---- The session ---------------------------------------------------------------------------

  /** Two positions, nothing goes stale, and a minute between polls. */
  predicate Outside(setup: Setup) {
    && setup.trade == Plain(1.0, 0.0, 2) && setup.sectors == map[] && !setup.dryRun && setup.ttl <= 0
    && setup.pollInterval == 60
  }

  /** A fresh engine on an outside broker. */
  const FRESH: Live := Live(None, EMPTY_OMS, Replayed(1000.5, []), map[], Gate(1000.5, false), NO_DAY, map[], true, 0,
                            None, [])

  /** Nothing has happened yet. */
  predicate Untouched(s: Live) {
    && s.venue.None? && s.oms == EMPTY_OMS && s.book == Book(1000.5, 1000.5, map[], []) && s.queued == []
    && s.gate.peak <= 1000.5 && s.day == NO_DAY && s.nextId == 0
  }

  /** Two long signals; the broker's account is the fresh one, and it accepts both orders. */
  predicate Entering(t: Tick, x: Symbol, y: Symbol) {
    && t.Completes() && t.now == t.date == 0 && t.signals == [LongFor(x), LongFor(y)] && t.fired == [] && x != y
    && QuietIn(t.bars, x) && QuietIn(t.bars, y)
    && t.world.account == Some(Account(1000.5, 1000.5, map[]))
    && t.world.place(0, 0) == Placed("A") && t.world.place(1, 0) == Placed("B")
  }

  lemma NothingToPoll(setup: Setup, s: Live, t: Tick)
    requires Outside(setup) && Untouched(s)
    ensures var r := Prepared(setup, s, t);
            && r.venue.None? && r.oms == s.oms && r.book == s.book && r.nextId == 0 && r.lastPoll == Some(t.now)
            && r.gate == Raised(s.gate, EquityAt(s.book, Closes(t.bars)))
            && r.day == DayUpdated(s.day, t.date, EquityAt(s.book, Closes(t.bars)))
            && r.reconciled == Reconciles(t.world.account, s.book, Closes(t.bars))
  {
    NothingStale(s.oms, s.oms.ids, setup.ttl, t.now);
  }

  lemma FlatReconciles(b: Book, prices: Prices)
    requires b.positions == map[] && b.cash == 1000.5
    ensures EquityAt(b, prices) == 1000.5 && Reconciles(Some(Account(1000.5, 1000.5, map[])), b, prices)
  {
    assert MarketValues(b, prices) == map[] && OpenSymbols(b) == {};
  }

  ghost function DeskOf(setup: Setup, s: Live, t: Tick): Desk {
    DeskAt(Prepared(setup, s, t), t, EventsOf(setup, s, t))
  }

  lemma EnteringEvents(setup: Setup, s: Live, t: Tick, x: Symbol, y: Symbol)
    requires s.queued == [] && t.fired == [] && t.signals == [LongFor(x), LongFor(y)]
    ensures EventsOf(setup, s, t) == [LongFor(x), LongFor(y)]
  {
    assert [] + [] + [LongFor(x), LongFor(y)] == [LongFor(x), LongFor(y)];
  }

  lemma EnteringRest(setup: Setup, s: Live, t: Tick, x: Symbol, y: Symbol)
    requires Outside(setup) && Untouched(s) && Entering(t, x, y)
    ensures var r := Prepared(setup, s, t);
            r.day == Day(Some(0), Some(1000.5), false) && r.gate.peak <= 1000.5 && r.reconciled
  {
    NothingToPoll(setup, s, t);
    FlatReconciles(s.book, Closes(t.bars));
  }

  lemma EnteringDesk(setup: Setup, s: Live, t: Tick, x: Symbol, y: Symbol)
    requires Outside(setup) && Untouched(s) && Entering(t, x, y)
    ensures Unspent(DeskOf(setup, s, t)) && DeskOf(setup, s, t).events == [LongFor(x), LongFor(y)]
  {
    NothingToPoll(setup, s, t);
    EnteringRest(setup, s, t, x, y);
    EnteringEvents(setup, s, t, x, y);
    FreshIsUnspent(DeskOf(setup, s, t), x, y);
  }

  lemma EnteringIds(setup: Setup, s: Live, t: Tick)
    requires Outside(setup) && Untouched(s)
    ensures Prepared(setup, s, t).nextId == 0
  {
    NothingToPoll(setup, s, t);
  }

  lemma EnteringPlan(setup: Setup, s: Live, t: Tick, x: Symbol, y: Symbol)
    requires Outside(setup) && Untouched(s) && Entering(t, x, y)
    ensures setup.trade.Valid()
    ensures BatchPlan(setup, Prepared(setup, s, t), t, EventsOf(setup, s, t)).1
            == [Purchase(x, 100, 0, 0), Purchase(y, 100, 1, 0)]
  {
    EnteringIds(setup, s, t);
    EnteringRest(setup, s, t, x, y);
    EnteringDesk(setup, s, t, x, y);
    PlanOfDesk(setup, Prepared(setup, s, t), t, EventsOf(setup, s, t), x, y);
  }

  lemma PlanOfDesk(setup: Setup, r: Live, t: Tick, events: seq<Signal>, x: Symbol, y: Symbol)
    requires setup.trade == Plain(1.0, 0.0, 2) && r.nextId == 0 && t.now == 0 && x != y
    requires r.day.start == Some(1000.5) && !r.day.halted
    requires Unspent(DeskAt(r, t, events)) && events == [LongFor(x), LongFor(y)]
    ensures setup.trade.Valid()
    ensures BatchPlan(setup, r, t, events).1 == [Purchase(x, 100, 0, 0), Purchase(y, 100, 1, 0)]
  {
    DeskAsksTwo(DeskAt(r, t, events), r.day, x, y, 0, 0);
  }

  lemma AllPass(setup: Setup, s: Live, t: Tick, orders: seq<Order>)
    requires setup.trade.Valid() && t.crash.None?
    requires BatchPlan(setup, Prepared(setup, s, t), t, EventsOf(setup, s, t)).1 == orders
    requires PassedOf(setup.trade, setup.sectors, Prepared(setup, s, t).gate, DeskOf(setup, s, t), orders) == orders
    ensures PassedIn(setup, s, t) == orders
  {
  }

  lemma EnteringGate(setup: Setup, s: Live, t: Tick, x: Symbol, y: Symbol)
    requires Outside(setup) && Untouched(s) && Entering(t, x, y)
    ensures var orders := [Purchase(x, 100, 0, 0), Purchase(y, 100, 1, 0)];
            PassedOf(setup.trade, setup.sectors, Prepared(setup, s, t).gate, DeskOf(setup, s, t), orders) == orders
  {
    EnteringRest(setup, s, t, x, y);
    EnteringDesk(setup, s, t, x, y);
    DeskPassesTwo(Prepared(setup, s, t).gate, DeskOf(setup, s, t), x, y, 0, 0);
  }

  lemma EnteringPasses(setup: Setup, s: Live, t: Tick, x: Symbol, y: Symbol)
    requires Outside(setup) && Untouched(s) && Entering(t, x, y)
    ensures setup.trade.Valid() && PassedIn(setup, s, t) == [Purchase(x, 100, 0, 0), Purchase(y, 100, 1, 0)]
  {
    EnteringPlan(setup, s, t, x, y);
    EnteringGate(setup, s, t, x, y);
    AllPass(setup, s, t, [Purchase(x, 100, 0, 0), Purchase(y, 100, 1, 0)]);
  }

  // ---- Two orders at the broker --------------------------------------------------------------

  /** The order is at the broker, with nothing filled. */
  predicate AtBroker(oms: Oms, o: Order, brokerId: string) {
    && o.id in oms.orders && oms.orders[o.id].order == o && oms.orders[o.id].status.Submitted?
    && oms.orders[o.id].brokerId == brokerId && oms.orders[o.id].filled == 0
  }

  lemma AcceptedIsAtBroker(setup: Setup, s: Live, o: Order, now: Time, world: World, brokerId: string)
    requires s.venue.None? && !setup.dryRun && Consistent(s.oms) && o.id !in s.oms.orders
    requires world.place(o.id, 0) == Placed(brokerId)
    ensures var t := Sent(setup, s, o, now, world);
            && AtBroker(t.oms, o, brokerId) && t.oms.ids == s.oms.ids + [o.id] && Consistent(t.oms)
            && t == s.(oms := t.oms) && forall id :: id in s.oms.orders ==> t.oms.orders[id] == s.oms.orders[id]
  {
    DistinctAppend(s.oms.ids, o.id);
  }

  /** Both orders are with the broker, nothing is filled, and the last poll was at a given time. */
  ghost predicate BothAtBroker(s: Live, o: Order, p: Order, at: Time) {
    && s.venue.None? && Consistent(s.oms) && s.oms.ids == [o.id, p.id] && o.id != p.id
    && AtBroker(s.oms, o, "A") && AtBroker(s.oms, p, "B") && s.book.fills == [] && s.lastPoll == Some(at)
  }

  lemma SubmitTwo(setup: Setup, s: Live, o: Order, p: Order, now: Time, world: World)
    ensures SubmitAll(setup, s, [o, p], now, world)
            == Sent(setup, Sent(setup, s, o, now, world), p, now, world)
  {
    assert [o, p][..1] == [o] && [o][..0] == [];
    assert SubmitAll(setup, s, [o], now, world) == Sent(setup, s, o, now, world);
  }

  lemma BothAccepted(setup: Setup, s: Live, o: Order, p: Order, now: Time, world: World)
    requires s.venue.None? && !setup.dryRun && s.oms == EMPTY_OMS && o.id != p.id && s.book.fills == []
    requires world.place(o.id, 0) == Placed("A") && world.place(p.id, 0) == Placed("B") && s.lastPoll == Some(now)
    ensures BothAtBroker(SubmitAll(setup, s, [o, p], now, world), o, p, now)
  {
    var t := Sent(setup, s, o, now, world);
    SubmitTwo(setup, s, o, p, now, world);
    AcceptedIsAtBroker(setup, s, o, now, world, "A");
    OnlyOne(t.oms, o.id, p.id);
    AcceptedIsAtBroker(setup, t, p, now, world, "B");
  }

  lemma OnlyOne(oms: Oms, o: OrderId, p: OrderId)
    requires Consistent(oms) && oms.ids == [] + [o] && o != p
    ensures p !in oms.orders && oms.ids + [p] == [o, p]
  {
    assert p !in oms.ids;
  }

  lemma EnteringTick(setup: Setup, s: Live, t: Tick, x: Symbol, y: Symbol)
    requires Outside(setup) && Untouched(s) && Entering(t, x, y)
    ensures setup.trade.Valid()
    ensures BothAtBroker(Ticked(setup, s, t), Purchase(x, 100, 0, 0), Purchase(y, 100, 1, 0), 0)
  {
    var r, events := Prepared(setup, s, t), EventsOf(setup, s, t);
    EnteringPasses(setup, s, t, x, y);
    NothingToPoll(setup, s, t);
    BatchSubmitsPassing(setup, r, t, events);
    BothAccepted(setup, Staged(setup, r, t, events), Purchase(x, 100, 0, 0), Purchase(y, 100, 1, 0), 0, t.world);
    NoSecondPoll(setup, BatchDone(setup, s, t), t);
  }

  /** The poll at the end of a tick that has polled already does nothing. */
  lemma NoSecondPoll(setup: Setup, d: Live, t: Tick)
    requires d.venue.None? && d.lastPoll == Some(t.now) && setup.pollInterval > 0
    ensures var e := Finished(setup, d, t); e == d.(gate := e.gate)
  {
  }

  // ---- A report about the other order --------------------------------------------------------

  /** 40 shares of the first order, reported to the poll of either. */
  predicate Misreports(world: World, o: OrderId, p: OrderId) {
    && o in world.reports && p in world.reports
    && world.reports[o].orderId == o && world.reports[o].filled == 40
    && world.reports[p].orderId == o && world.reports[p].filled == 40
  }

  lemma FirstPollTakes(setup: Setup, s: Live, o: Order, p: Order, at: Time, now: Time, world: World)
    requires BothAtBroker(s, o, p, at) && Misreports(world, o.id, p.id) && o.quantity == p.quantity == 100
    ensures var t := PollOne(setup, s, o.id, now, world);
            && OpenAreUnfilled(t.oms) && t.oms.orders.Keys == s.oms.orders.Keys
            && t.oms.orders[o.id].filled == 40 && t.oms.orders[p.id] == s.oms.orders[p.id]
            && SharesOf(t.book.fills, o.id) == 40
  {
    OnlyTheTwo(s, o, p, at);
    ReportTakes(s.oms, o.id, world.reports[o.id], now);
    PollBooks(setup, s, o.id, o.id, now, world);
    PollOwes(setup, s, o.id, o.id, now, world, o.id);
  }

  lemma OnlyTheTwo(s: Live, o: Order, p: Order, at: Time)
    requires BothAtBroker(s, o, p, at) && o.quantity == p.quantity == 100
    ensures OpenAreUnfilled(s.oms) && s.oms.orders.Keys == {o.id, p.id}
    ensures Working(s.oms, s.oms.ids) == [o.id, p.id]
  {
    assert forall id :: id in s.oms.orders <==> id in s.oms.ids;
    assert forall id :: id in [o.id, p.id] <==> id == o.id || id == p.id;
    assert [o.id, p.id][..1] == [o.id] && [o.id][..0] == [];
    assert Working(s.oms, [o.id]) == [o.id];
  }

  lemma PollTwo(setup: Setup, s: Live, o: OrderId, p: OrderId, now: Time, world: World)
    ensures PollAll(setup, s, [o, p], now, world)
            == PollOne(setup, PollOne(setup, s, o, now, world), p, now, world)
  {
    assert [o, p][..1] == [o] && [o][..0] == [];
    assert PollAll(setup, s, [o], now, world) == PollOne(setup, s, o, now, world);
  }

  /** Polling both books the 40 shares twice. */
  lemma PollsCountTwice(setup: Setup, s: Live, o: Order, p: Order, at: Time, now: Time, world: World)
    requires BothAtBroker(s, o, p, at) && Misreports(world, o.id, p.id) && o.quantity == p.quantity == 100
    ensures Working(s.oms, s.oms.ids) == [o.id, p.id]
    ensures var t := PollAll(setup, s, [o.id, p.id], now, world);
            FilledOf(t.oms, o.id) == 40 && SharesOf(t.book.fills, o.id) == 80
  {
    var first := PollOne(setup, s, o.id, now, world);
    PollTwo(setup, s, o.id, p.id, now, world);
    OnlyTheTwo(s, o, p, at);
    FirstPollTakes(setup, s, o, p, at, now, world);
    MisaddressedReportCountsTwice(setup, first, p.id, o.id, now, world);
  }

  /** 40 shares are filled, and the portfolio has been given 80. */
  predicate BookedTwice(s: Live, o: OrderId) {
    FilledOf(s.oms, o) == 40 && SharesOf(s.book.fills, o) == 80
  }

  lemma PreparedCountsTwice(setup: Setup, s: Live, t: Tick, o: Order, p: Order, at: Time)
    requires Outside(setup) && BothAtBroker(s, o, p, at) && o.quantity == p.quantity == 100
    requires Misreports(t.world, o.id, p.id)
    ensures var r := Prepared(setup, s, t); BookedTwice(r, o.id) && r.venue.None? && r.lastPoll == Some(t.now)
  {
    var polling := Priced(Connected(s), Closes(t.bars)).(lastPoll := Some(t.now));
    PollsCountTwice(setup, polling, o, p, t.now, t.now, t.world);
    var polled := PollAll(setup, polling, [o.id, p.id], t.now, t.world);
    NothingStale(polled.oms, polled.oms.ids, setup.ttl, t.now);
    PollKeepsRest(setup, polling, [o.id, p.id], t.now, t.world);
  }

  lemma BatchKeepsPoll(setup: Setup, r: Live, t: Tick, events: seq<Signal>)
    requires setup.trade.Valid() && Sound(r)
    ensures Batched(setup, r, t, events).lastPoll == r.lastPoll
  {
    var n := PassingIsIssued(setup, r, t, events);
    BatchSubmitsPassing(setup, r, t, events);
    SubmitAllEvolves(setup, Staged(setup, r, t, events), Passing(setup, r, t, events), r.nextId, n, t.now, t.world);
  }

  /** The tick polls at its start, and books twice. */
  lemma TickCountsTwice(setup: Setup, s: Live, t: Tick, o: Order, p: Order, at: Time)
    requires Outside(setup) && Sound(s) && BothAtBroker(s, o, p, at) && o.quantity == p.quantity == 100
    requires t.Completes() && Misreports(t.world, o.id, p.id)
    ensures setup.trade.Valid() && BookedTwice(Ticked(setup, s, t), o.id)
  {
    var r, events := Prepared(setup, s, t), EventsOf(setup, s, t);
    PreparedCountsTwice(setup, s, t, o, p, at);
    PreparedEvolves(setup, s, t);
    BatchOwesTheSame(setup, r, t, events);
    BatchKeepsPoll(setup, r, t, events);
    BatchKeepsKind(setup, r, t, events);
    NoSecondPoll(setup, BatchDone(setup, s, t), t);
  }

  lemma FreshIsUntouched()
    ensures Untouched(FRESH) && Sound(FRESH)
  {
  }

  /** From a fresh engine on: two orders are accepted, 40 shares of the first are reported to the poll of each, and at
      the end of the second tick the portfolio has been given 80. */
  lemma MisaddressedSession(setup: Setup, x: Symbol, y: Symbol, a: Tick, b: Tick)
    requires Outside(setup) && Entering(a, x, y) && b.Completes() && Misreports(b.world, 0, 1)
    ensures setup.trade.Valid() && BookedTwice(Run(setup, FRESH, [a, b]), 0)
  {
    FreshIsUntouched();
    EnteringTick(setup, FRESH, a, x, y);
    TickEvolves(setup, FRESH, a);
    RunOfTwo(setup, FRESH, a, b);
    TickCountsTwice(setup, Ticked(setup, FRESH, a), b, Purchase(x, 100, 0, 0), Purchase(y, 100, 1, 0), 0);
  }

  lemma RunOfTwo(setup: Setup, s: Live, a: Tick, b: Tick)
    requires setup.trade.Valid()
    ensures Run(setup, s, [a, b]) == Ticked(setup, Ticked(setup, s, a), b)
  {
    assert [a, b][..1] == [a] && [a][..0] == [];
    assert Run(setup, s, [a]) == Ticked(setup, s, a);
  }
}
