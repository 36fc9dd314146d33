/** Small sessions, worked out in full, in which a guarantee fails. All prices are 1 where nothing else is said. */
module Scenarios {
  import opened Models
  import opened Totals
  import opened Portfolio
  import opened RiskEngine
  import opened SignalBatch
  import opened BatchBounds
  import Allocator
  import Sizing = PositionSizing

  // ---- A batch of long signals ---------------------------------------------------------------

  /** Equal weights, a tenth of equity for each trade, stops at half the price. */
  function Plain(maxPositionPct: real, reserve: real, maxOpen: int): Config {
    Config(Allocator.Config(Allocator.EqualWeight, maxPositionPct, reserve),
           Sizing.Config(Sizing.FixedFractional, 0.1, Sizing.FixedStop, 0.5, 1.0, None, maxPositionPct, 0.0, 0.5, 1.0,
                         1.0, 0.5),
           Limits(maxPositionPct, 1.0, 1.0, 1.0, reserve), DayLimits(maxOpen, 1.0), true)
  }

  function LongFor(s: Symbol): Signal {
    Signal(s, Long, false, "", 0)
  }

  const QUIET_BAR: Bar := BarData(1.0, 1.0, 1.0, 1.0, 1.0)

  ghost predicate StrategySignals(events: seq<Signal>) {
    OnePerSymbol(events) && forall e :: e in events ==> !e.fromStop
  }

  lemma {:induction false} UpsertNew(chosen: seq<Signal>, e: Signal)
    requires forall x :: x in chosen ==> x.symbol != e.symbol
    ensures Upsert(chosen, e) == chosen + [e]
  {
    if chosen != [] {
      assert chosen == [chosen[0]] + chosen[1..];
      UpsertNew(chosen[1..], e);
    }
  }

  lemma {:induction false} NoStopsToApply(chosen: seq<Signal>, events: seq<Signal>)
    requires forall e :: e in events ==> !e.fromStop
    ensures StopsApplied(chosen, events) == chosen
  {
    if events != [] {
      var init, e := events[..|events| - 1], events[|events| - 1];
      assert events == init + [e];
      NoStopsToApply(chosen, init);
    }
  }

  lemma {:induction false} LatestAsGiven(events: seq<Signal>)
    requires OnePerSymbol(events)
    ensures Latest(events) == events
  {
    if events != [] {
      var init, e := events[..|events| - 1], events[|events| - 1];
      assert events == init + [e];
      LatestAsGiven(init);
      UpsertNew(init, e);
    }
  }

  /** One signal for each symbol and no stop exits: each counts. */
  lemma ChosenAsGiven(events: seq<Signal>)
    requires StrategySignals(events)
    ensures Chosen(events) == events
  {
    LatestAsGiven(events);
    NoStopsToApply(events, events);
  }

  lemma {:induction false} ActingAlike(b: Book, stopped: set<Symbol>, coverShorts: bool, chosen: seq<Signal>, act: Act)
    requires forall e :: e in chosen ==> Verdict(At(b, e.symbol), e.symbol in stopped, e.direction, coverShorts) == act
    ensures Acting(b, stopped, coverShorts, chosen, act) == chosen
    ensures forall other :: other != act ==> Acting(b, stopped, coverShorts, chosen, other) == []
  {
    if chosen != [] {
      var init, e := chosen[..|chosen| - 1], chosen[|chosen| - 1];
      assert chosen == init + [e];
      ActingAlike(b, stopped, coverShorts, init, act);
    }
  }

  /** Long signals for symbols that are not held, with no stops about. */
  ghost predicate AllOpen(d: Desk) {
    && StrategySignals(d.events) && d.stopped == {} && d.mayOpen
    && forall e :: e in d.events ==> e.direction.Long? && At(d.book, e.symbol).quantity == 0
  }

  lemma OpeningsAsGiven(cfg: Config, d: Desk)
    requires AllOpen(d)
    ensures OpeningSignals(cfg, d) == d.events && ClosingSignals(cfg, d) == []
  {
    ChosenAsGiven(d.events);
    ActingAlike(d.book, d.stopped, cfg.coverShorts, d.events, Open);
  }

  lemma SelectedAsGiven(cfg: Config, d: Desk)
    requires AllOpen(d) && |d.events| <= Slots(cfg, d.book)
    ensures Selected(cfg, d.book, OpeningSignals(cfg, d)) == d.events
  {
    OpeningsAsGiven(cfg, d);
    assert d.events[..|d.events|] == d.events;
  }

  /** A batch of openings only, within the slots, on a day that is not halted. */
  lemma BatchAsGiven(cfg: Config, d: Desk, day: Day, firstId: OrderId, now: Time)
    requires cfg.Valid() && AllOpen(d) && 0 < |d.events| <= Slots(cfg, d.book)
    requires !day.halted && !DailyLossExceeded(cfg.day, day, EquityOf(d))
    ensures Candidates(cfg, d, day, firstId, now).1
            == OpenOrders(cfg, d.book, EquityOf(d), d.tape, TargetsOf(cfg, d), d.events, firstId, now)
  {
    OpeningsAsGiven(cfg, d);
    SelectedAsGiven(cfg, d);
    NothingToClose(cfg, d, firstId, now);
    var opens := OpeningOrders(cfg, d, firstId, now);
    assert [] + opens == opens;
  }

  lemma NothingToClose(cfg: Config, d: Desk, firstId: OrderId, now: Time)
    requires ClosingSignals(cfg, d) == []
    ensures ClosingOrders(cfg, d, firstId, now) == []
  {
  }

  /** An even share of the deployable cash, or the cap on a position. */
  predicate IsEvenSlice(cfg: Config, cash: real, equity: real, n: real, target: real)
    requires n > 0.0
  {
    AbsR(target - MinR(Allocator.Deployable(cfg.alloc, cash) / n, Fraction(equity, cfg.alloc.maxPositionPct)))
    <= 2.0 * Allocator.TOLERANCE
  }

  lemma PlainTargets(maxPositionPct: real, reserve: real, maxOpen: int, d: Desk, s: Symbol)
    requires var cfg := Plain(maxPositionPct, reserve, maxOpen);
             cfg.Valid() && AllOpen(d) && |d.events| <= Slots(cfg, d.book)
    requires EquityOf(d) > 0.0 && Distinct(SymbolsOf(d.events)) && s in SymbolsOf(d.events)
    ensures var cfg := Plain(maxPositionPct, reserve, maxOpen);
            s in TargetsOf(cfg, d) && IsEvenSlice(cfg, d.book.cash, EquityOf(d), |d.events| as real,
                                                  TargetsOf(cfg, d)[s])
  {
    var cfg := Plain(maxPositionPct, reserve, maxOpen);
    SelectedAsGiven(cfg, d);
    Allocator.EqualWeightSplitsEvenly(SymbolsOf(d.events), Allocator.Deployable(cfg.alloc, d.book.cash),
                                      Fraction(EquityOf(d), maxPositionPct), s);
  }

  function BudgetFor(equity: real, maxPositionPct: real, target: real): real {
    MinR(MinR(Fraction(equity, 0.1), target), Fraction(equity, maxPositionPct))
  }

  /** The size of a purchase at price 1, from the capital set aside for it. */
  lemma PlainSize(maxPositionPct: real, reserve: real, maxOpen: int, equity: real, m: Tape,
                  targets: map<Symbol, real>, s: Symbol, q: int)
    requires var cfg := Plain(maxPositionPct, reserve, maxOpen); cfg.Valid()
    requires s in m.bars && m.bars[s].close == 1.0 && s in targets && equity > 0.0 && q >= 1
    requires q as real <= BudgetFor(equity, maxPositionPct, targets[s]) < (q + 1) as real
    ensures SizeFor(Plain(maxPositionPct, reserve, maxOpen), equity, m, targets, s)
            == Some(Sizing.PositionSize(q, 1.0, 0.5, None, 0.5, Worth(0.5, q)))
  {
    var capped := BudgetFor(equity, maxPositionPct, targets[s]);
    var n := Shares(capped, 1.0);
    assert Worth(1.0, n) == n as real && Worth(1.0, n + 1) == (n + 1) as real && Worth(1.0, q) == q as real;
    assert n == q;
  }

  function Purchase(s: Symbol, q: int, id: OrderId, now: Time): Order
    requires q > 0
  {
    OpenOrder(LongFor(s), Sizing.PositionSize(q, 1.0, 0.5, None, 0.5, Worth(0.5, q)), id, now)
  }

  lemma OneMoreOpening(cfg: Config, b: Book, equity: real, m: Tape, targets: map<Symbol, real>, init: seq<Signal>,
                       s: Symbol, q: int, firstId: OrderId, now: Time)
    requires cfg.Valid() && q > 0 && At(b, s).quantity == 0
    requires SizeFor(cfg, equity, m, targets, s) == Some(Sizing.PositionSize(q, 1.0, 0.5, None, 0.5, Worth(0.5, q)))
    ensures var before := OpenOrders(cfg, b, equity, m, targets, init, firstId, now);
            OpenOrders(cfg, b, equity, m, targets, init + [LongFor(s)], firstId, now)
            == before + [Purchase(s, q, firstId + |before|, now)]
  {
    assert (init + [LongFor(s)])[..|init|] == init;
  }

  /** The signal is good for `q` shares. */
  ghost predicate AsksFor(cfg: Config, d: Desk, x: Symbol, q: int)
    requires cfg.Valid()
  {
    SizeFor(cfg, EquityOf(d), d.tape, TargetsOf(cfg, d), x)
    == Some(Sizing.PositionSize(q, 1.0, 0.5, None, 0.5, Worth(0.5, q)))
  }

  lemma OneOrder(cfg: Config, d: Desk, day: Day, x: Symbol, q: int, firstId: OrderId, now: Time)
    requires cfg.Valid() && AllOpen(d) && d.events == [LongFor(x)] && 1 <= Slots(cfg, d.book)
    requires !day.halted && !DailyLossExceeded(cfg.day, day, EquityOf(d)) && AsksFor(cfg, d, x, q) && q > 0
    ensures Candidates(cfg, d, day, firstId, now).1 == [Purchase(x, q, firstId, now)]
  {
    assert d.events[0] in d.events;
    OneMoreOpening(cfg, d.book, EquityOf(d), d.tape, TargetsOf(cfg, d), [], x, q, firstId, now);
    assert [] + [LongFor(x)] == d.events && [] + [Purchase(x, q, firstId, now)] == [Purchase(x, q, firstId, now)];
    BatchAsGiven(cfg, d, day, firstId, now);
  }

  lemma TwoOpenings(cfg: Config, d: Desk, x: Symbol, y: Symbol, q: int, firstId: OrderId, now: Time)
    requires cfg.Valid() && At(d.book, x).quantity == 0 && At(d.book, y).quantity == 0
    requires AsksFor(cfg, d, x, q) && AsksFor(cfg, d, y, q) && q > 0
    ensures OpenOrders(cfg, d.book, EquityOf(d), d.tape, TargetsOf(cfg, d), [LongFor(x), LongFor(y)], firstId, now)
            == [Purchase(x, q, firstId, now), Purchase(y, q, firstId + 1, now)]
  {
    OneMoreOpening(cfg, d.book, EquityOf(d), d.tape, TargetsOf(cfg, d), [], x, q, firstId, now);
    OneMoreOpening(cfg, d.book, EquityOf(d), d.tape, TargetsOf(cfg, d), [LongFor(x)], y, q, firstId, now);
    assert [] + [LongFor(x)] == [LongFor(x)] && [LongFor(x)] + [LongFor(y)] == [LongFor(x), LongFor(y)];
    assert [] + [Purchase(x, q, firstId, now)] == [Purchase(x, q, firstId, now)];
  }

  lemma TwoOrders(cfg: Config, d: Desk, day: Day, x: Symbol, y: Symbol, q: int, firstId: OrderId, now: Time)
    requires cfg.Valid() && AllOpen(d) && d.events == [LongFor(x), LongFor(y)] && 2 <= Slots(cfg, d.book)
    requires !day.halted && !DailyLossExceeded(cfg.day, day, EquityOf(d))
    requires AsksFor(cfg, d, x, q) && AsksFor(cfg, d, y, q) && q > 0
    ensures Candidates(cfg, d, day, firstId, now).1
            == [Purchase(x, q, firstId, now), Purchase(y, q, firstId + 1, now)]
  {
    assert d.events[0] in d.events && d.events[1] in d.events;
    TwoOpenings(cfg, d, x, y, q, firstId, now);
    BatchAsGiven(cfg, d, day, firstId, now);
  }

  // ---- The gate ------------------------------------------------------------------------------

  /** A purchase at price 1 that meets the limits passes a gate that is not halted. */
  lemma PurchasePasses(cfg: Config, g: Gate, d: Desk, s: Symbol, q: int, id: OrderId, now: Time)
    requires q > 0 && At(d.book, s).quantity == 0 && s in d.tape.bars && d.tape.bars[s].close == 1.0
    requires EquityOf(d) > 0.0 && g.peak <= EquityOf(d) && cfg.limits.maxDrawdownPct >= 0.0
    requires WithinAll(cfg.limits, ExposureAt(d.book, map[], Closes(d.tape.bars), s), 1.0, q)
    ensures var (after, decision) :=
            Checked(cfg.limits, map[], g, d.book, Purchase(s, q, id, now), Closes(d.tape.bars));
            decision == Approved(q) && after.peak <= EquityOf(d)
  {
    var e := ExposureAt(d.book, map[], Closes(d.tape.bars), s);
    NoDrawdown(cfg.limits, MaxR(g.peak, e.equity));
    ApprovalIsExact(cfg.limits, g, e, At(d.book, s), Buy, 1.0, q);
  }

  lemma NoDrawdown(limits: Limits, peak: real)
    requires peak > 0.0 && limits.maxDrawdownPct >= 0.0
    ensures peak >= peak - Fraction(peak, limits.maxDrawdownPct)
  {
  }

  lemma OneMorePasses(cfg: Config, g: Gate, d: Desk, init: seq<Order>, o: Order)
    requires Checked(cfg.limits, map[], Routed(cfg, map[], g, d.book, init, Closes(d.tape.bars)).0, d.book, o,
                     Closes(d.tape.bars)).1.Approved?
    ensures PassedOf(cfg, map[], g, d, init + [o]) == PassedOf(cfg, map[], g, d, init) + [o]
  {
    assert (init + [o])[..|init|] == init;
  }

  lemma {:induction false} PeakStays(cfg: Config, g: Gate, d: Desk, orders: seq<Order>)
    ensures Routed(cfg, map[], g, d.book, orders, Closes(d.tape.bars)).0.peak <= MaxR(g.peak, EquityOf(d))
  {
    if orders != [] {
      PeakStays(cfg, g, d, orders[..|orders| - 1]);
    }
  }

  lemma DateStays(cfg: Config, d: Desk, day: Day, firstId: OrderId, now: Time)
    requires cfg.Valid()
    ensures Candidates(cfg, d, day, firstId, now).0.date == day.date
  {
  }

  // ---- Two purchases that break the cash floor -----------------------------------------------

  /** Initial capital 1000, of which 900 have gone into one symbol. */
  function Invested(h: Symbol): Book {
    Replayed(1000.0, [Fill(0, 0, h, Buy, 900, 1.0, 0.0, 0.0, 0)])
  }

  function QuietDesk(a: Symbol, b: Symbol, h: Symbol): Desk {
    Desk(Invested(h), Tape(map[a := QUIET_BAR, b := QUIET_BAR, h := QUIET_BAR], map[], map[]), {},
         [LongFor(a), LongFor(b)], true)
  }

  lemma TotalOfOne(m: map<Symbol, real>, s: Symbol)
    requires m.Keys == {s}
    ensures Total(m) == m[s]
  {
    TotalPeel(m, s);
    assert m - {s} == map[];
  }

  lemma InvestedBook(h: Symbol)
    ensures Invested(h).positions == map[h := Holding(900, 1.0, 0.0, Some(0))] && Invested(h).cash == 100.0
  {
    var f := Fill(0, 0, h, Buy, 900, 1.0, 0.0, 0.0, 0);
    var start := Book(1000.0, 1000.0, map[], []);
    assert [f][..|[f]| - 1] == [] && Replayed(1000.0, []) == start;
    assert Invested(h) == Applied(start, f) && At(start, h) == FLAT;
  }

  lemma InvestedExposure(a: Symbol, b: Symbol, h: Symbol, s: Symbol)
    requires a != b && a != h && b != h && (s == a || s == b)
    ensures var d := QuietDesk(a, b, h);
            && LongOnly(d.book) && OpenSymbols(d.book) == {h} && At(d.book, s) == FLAT
            && EquityOf(d) == 1000.0 && d.book.cash == 100.0
            && ExposureAt(d.book, map[], Closes(d.tape.bars), s) == Exposure(1000.0, 100.0, 0.0, 900.0, 900.0)
  {
    var d := QuietDesk(a, b, h);
    InvestedBook(h);
    var prices := Closes(d.tape.bars);
    var values := MarketValues(d.book, prices);
    TotalOfOne(values, h);
    TotalOfOne(Magnitudes(values), h);
    TotalOfOne(InSector(Magnitudes(values), map[], "Unknown"), h);
    assert values[h] == 900.0;
  }

  lemma QuietDeskSlots(a: Symbol, b: Symbol, h: Symbol)
    requires a != b && a != h && b != h
    ensures Slots(Plain(0.05, 0.05, 3), QuietDesk(a, b, h).book) == 2
  {
    InvestedExposure(a, b, h, a);
    assert |{h}| == 1;
  }

  lemma QuietDeskOpens(a: Symbol, b: Symbol, h: Symbol)
    requires a != b && a != h && b != h
    ensures var d := QuietDesk(a, b, h); AllOpen(d) && SymbolsOf(d.events) == [a, b] && Distinct([a, b])
  {
    var d := QuietDesk(a, b, h);
    InvestedBook(h);
    assert At(d.book, a) == FLAT && At(d.book, b) == FLAT;
  }

  lemma HalfOfDeployable(cash: real, equity: real, n: real, x: real)
    requires cash == 100.0 && equity == 1000.0 && n == 2.0 && IsEvenSlice(Plain(0.05, 0.05, 3), cash, equity, n, x)
    ensures 47.0 <= x < 48.0
  {
  }

  lemma TwoSlices(a: Symbol, b: Symbol, h: Symbol, s: Symbol)
    requires a != b && a != h && b != h && (s == a || s == b)
    ensures var cfg, d := Plain(0.05, 0.05, 3), QuietDesk(a, b, h);
            && AllOpen(d) && Slots(cfg, d.book) == 2
            && s in TargetsOf(cfg, d) && 47.0 <= TargetsOf(cfg, d)[s] < 48.0
  {
    var cfg, d := Plain(0.05, 0.05, 3), QuietDesk(a, b, h);
    InvestedExposure(a, b, h, s);
    QuietDeskOpens(a, b, h);
    QuietDeskSlots(a, b, h);
    assert [a, b][0] == a && [a, b][1] == b;
    PlainTargets(0.05, 0.05, 3, d, s);
    HalfOfDeployable(d.book.cash, EquityOf(d), |d.events| as real, TargetsOf(cfg, d)[s]);
  }

  /** A symbol whose target is between 47 and 48 gets an order for 47. */
  lemma PlainPurchase(d: Desk, s: Symbol, init: seq<Signal>)
    requires At(d.book, s).quantity == 0 && EquityOf(d) == 1000.0 && s in d.tape.bars && d.tape.bars[s].close == 1.0
    requires var targets := TargetsOf(Plain(0.05, 0.05, 3), d); s in targets && 47.0 <= targets[s] < 48.0
    ensures var cfg := Plain(0.05, 0.05, 3);
            var before := OpenOrders(cfg, d.book, EquityOf(d), d.tape, TargetsOf(cfg, d), init, 0, 0);
            OpenOrders(cfg, d.book, EquityOf(d), d.tape, TargetsOf(cfg, d), init + [LongFor(s)], 0, 0)
            == before + [Purchase(s, 47, |before|, 0)]
  {
    var cfg := Plain(0.05, 0.05, 3);
    PlainSize(0.05, 0.05, 3, EquityOf(d), d.tape, TargetsOf(cfg, d), s, 47);
    OneMoreOpening(cfg, d.book, EquityOf(d), d.tape, TargetsOf(cfg, d), init, s, 47, 0, 0);
  }

  lemma QuietPurchase(a: Symbol, b: Symbol, h: Symbol, s: Symbol, init: seq<Signal>)
    requires a != b && a != h && b != h && (s == a || s == b)
    ensures var cfg, d := Plain(0.05, 0.05, 3), QuietDesk(a, b, h);
            var before := OpenOrders(cfg, d.book, EquityOf(d), d.tape, TargetsOf(cfg, d), init, 0, 0);
            OpenOrders(cfg, d.book, EquityOf(d), d.tape, TargetsOf(cfg, d), init + [LongFor(s)], 0, 0)
            == before + [Purchase(s, 47, |before|, 0)]
  {
    InvestedExposure(a, b, h, s);
    TwoSlices(a, b, h, s);
    PlainPurchase(QuietDesk(a, b, h), s, init);
  }

  lemma TwoPurchases(a: Symbol, b: Symbol, h: Symbol)
    requires a != b && a != h && b != h
    ensures var cfg, d := Plain(0.05, 0.05, 3), QuietDesk(a, b, h);
            Candidates(cfg, d, NO_DAY, 0, 0).1 == [Purchase(a, 47, 0, 0), Purchase(b, 47, 1, 0)]
  {
    var cfg, d := Plain(0.05, 0.05, 3), QuietDesk(a, b, h);
    TwoSlices(a, b, h, a);
    BatchAsGiven(cfg, d, NO_DAY, 0, 0);
    QuietPurchase(a, b, h, a, []);
    QuietPurchase(a, b, h, b, [LongFor(a)]);
    assert [] + [LongFor(a)] == [LongFor(a)] && [LongFor(a)] + [LongFor(b)] == d.events;
    assert [] + [Purchase(a, 47, 0, 0)] == [Purchase(a, 47, 0, 0)];
  }

  /** The reserve is kept out of cash, the gate's floor is a share of equity. With 900 of 1000 invested, a batch for two
      signals costs 94 of the 95 that are deployable; both orders pass every check, and together they leave 6 in cash
      where the floor is 50. */
  lemma SiblingsMayBreakCashFloor(a: Symbol, b: Symbol, h: Symbol)
    requires a != b && a != h && b != h
    ensures var cfg, d := Plain(0.05, 0.05, 3), QuietDesk(a, b, h);
            var passed := PassedOf(cfg, map[], Gate(1000.0, false), d, Candidates(cfg, d, NO_DAY, 0, 0).1);
            && cfg.Valid() && LongOnly(d.book)
            && passed == [Purchase(a, 47, 0, 0), Purchase(b, 47, 1, 0)]
            && OpeningValue(d.tape.bars, passed) == 94.0
            && !AboveFloor(cfg.limits, d.book.cash, OpeningValue(d.tape.bars, passed), EquityOf(d))
  {
    var cfg, d, g := Plain(0.05, 0.05, 3), QuietDesk(a, b, h), Gate(1000.0, false);
    var o, p := Purchase(a, 47, 0, 0), Purchase(b, 47, 1, 0);
    InvestedExposure(a, b, h, a);
    InvestedExposure(a, b, h, b);
    TwoPurchases(a, b, h);
    PurchasePasses(cfg, g, d, a, 47, 0, 0);
    OneMorePasses(cfg, g, d, [], o);
    assert [] + [o] == [o] && [o] + [p] == [o, p];
    FirstCheck(cfg, g, d, o);
    PurchasePasses(cfg, Routed(cfg, map[], g, d.book, [o], Closes(d.tape.bars)).0, d, b, 47, 1, 0);
    OneMorePasses(cfg, g, d, [o], p);
    TwoValues(d.tape.bars, o, p);
  }

  lemma FirstCheck(cfg: Config, g: Gate, d: Desk, o: Order)
    ensures Routed(cfg, map[], g, d.book, [o], Closes(d.tape.bars)).0
            == Checked(cfg.limits, map[], g, d.book, o, Closes(d.tape.bars)).0
  {
    assert [o][..0] == [];
  }

  lemma TwoValues(bars: map<Symbol, Bar>, o: Order, p: Order)
    ensures OpeningValue(bars, [o, p]) == NotionalOf(bars, o) + NotionalOf(bars, p)
  {
    assert [o, p][..1] == [o] && [o][..0] == [];
    assert OpeningValue(bars, [o]) == NotionalOf(bars, o);
  }

  // ---- A fresh desk -----------------------------------------------------------------------------

  /** A desk with nothing bought, and long signals for some of the quoted symbols. */
  ghost predicate Unspent(d: Desk) {
    && AllOpen(d) && EquityOf(d) == 1000.5 == d.book.cash && d.book.positions == map[]
    && 1 <= |d.events| <= 2 && forall e :: e in d.events ==> QuietIn(d.tape.bars, e.symbol)
  }

  predicate QuietIn(bars: map<Symbol, Bar>, x: Symbol) {
    x in bars && bars[x].close == 1.0
  }

  lemma HalfOrWhole(cash: real, n: real)
    requires cash == 1000.5 && (n == 1.0 || n == 2.0)
    ensures cash / n >= 500.0
  {
  }

  lemma SliceIsEnough(cash: real, n: real, t: real)
    requires cash == 1000.5 && (n == 1.0 || n == 2.0) && IsEvenSlice(Plain(1.0, 0.0, 2), cash, cash, n, t)
    ensures 100.0 <= BudgetFor(cash, 1.0, t) < 101.0
  {
    HalfOrWhole(cash, n);
  }

  lemma SlotsForTwo(d: Desk)
    requires d.book.positions == map[]
    ensures Slots(Plain(1.0, 0.0, 2), d.book) == 2
  {
    assert OpenSymbols(d.book) == {};
  }

  lemma TargetIsEnough(d: Desk, x: Symbol)
    requires Unspent(d) && Distinct(SymbolsOf(d.events)) && x in SymbolsOf(d.events)
    ensures var targets := TargetsOf(Plain(1.0, 0.0, 2), d);
            x in targets && 100.0 <= BudgetFor(EquityOf(d), 1.0, targets[x]) < 101.0
  {
    SlotsForTwo(d);
    PlainTargets(1.0, 0.0, 2, d, x);
    SliceIsEnough(d.book.cash, |d.events| as real, TargetsOf(Plain(1.0, 0.0, 2), d)[x]);
  }

  lemma HundredIsTheSize(d: Desk, x: Symbol)
    requires Unspent(d) && Distinct(SymbolsOf(d.events)) && x in SymbolsOf(d.events) && QuietIn(d.tape.bars, x)
    ensures AsksFor(Plain(1.0, 0.0, 2), d, x, 100)
  {
    TargetIsEnough(d, x);
    PlainSize(1.0, 0.0, 2, EquityOf(d), d.tape, TargetsOf(Plain(1.0, 0.0, 2), d), x, 100);
  }

  lemma NothingExposed(d: Desk, x: Symbol)
    requires d.book.positions == map[] && EquityOf(d) == 1000.5 == d.book.cash
    ensures ExposureAt(d.book, map[], Closes(d.tape.bars), x) == Exposure(1000.5, 1000.5, 0.0, 0.0, 0.0)
  {
    var prices := Closes(d.tape.bars);
    assert MarketValues(d.book, prices) == map[] && Magnitudes(map[]) == map[];
    assert InSector(map[], map[], SectorOf(map[], x)) == map[];
  }

  lemma OrderPasses(d: Desk, g: Gate, init: seq<Order>, x: Symbol, id: OrderId, now: Time)
    requires Unspent(d) && QuietIn(d.tape.bars, x)
    requires Routed(Plain(1.0, 0.0, 2), map[], g, d.book, init, Closes(d.tape.bars)).0.peak <= 1000.5
    ensures var cfg, o := Plain(1.0, 0.0, 2), Purchase(x, 100, id, now);
            && PassedOf(cfg, map[], g, d, init + [o]) == PassedOf(cfg, map[], g, d, init) + [o]
            && Routed(cfg, map[], g, d.book, init + [o], Closes(d.tape.bars)).0.peak <= 1000.5
  {
    var cfg, o := Plain(1.0, 0.0, 2), Purchase(x, 100, id, now);
    NothingExposed(d, x);
    PurchasePasses(cfg, Routed(cfg, map[], g, d.book, init, Closes(d.tape.bars)).0, d, x, 100, id, now);
    OneMorePasses(cfg, g, d, init, o);
    assert (init + [o])[..|init|] == init;
  }

  lemma DeskAsks(d: Desk, day: Day, x: Symbol, id: OrderId, now: Time)
    requires Unspent(d) && d.events == [LongFor(x)] && day.start == Some(1000.5) && !day.halted
    ensures Candidates(Plain(1.0, 0.0, 2), d, day, id, now).1 == [Purchase(x, 100, id, now)]
  {
    assert SymbolsOf(d.events) == [x] && [x][0] == x && d.events[0] in d.events;
    HundredIsTheSize(d, x);
    SlotsForTwo(d);
    OneOrder(Plain(1.0, 0.0, 2), d, day, x, 100, id, now);
  }

  /** A desk whose one order passes. */
  lemma DeskPasses(g: Gate, d: Desk, day: Day, x: Symbol, id: OrderId, now: Time)
    requires Unspent(d) && d.events == [LongFor(x)] && g.peak <= 1000.5
    requires day.start == Some(1000.5) && !day.halted
    ensures var cfg, o := Plain(1.0, 0.0, 2), Purchase(x, 100, id, now);
            Candidates(cfg, d, day, id, now).1 == [o] && PassedOf(cfg, map[], g, d, [o]) == [o]
  {
    DeskAsks(d, day, x, id, now);
    assert d.events[0] in d.events;
    OrderPasses(d, g, [], x, id, now);
    assert [] + [Purchase(x, 100, id, now)] == [Purchase(x, 100, id, now)];
  }

  lemma FreshIsUnspent(d: Desk, x: Symbol, y: Symbol)
    requires d.book.positions == map[] && d.book.cash == 1000.5 && d.stopped == {} && d.mayOpen && x != y
    requires d.events == [LongFor(x), LongFor(y)] && QuietIn(d.tape.bars, x) && QuietIn(d.tape.bars, y)
    ensures Unspent(d)
  {
    assert MarketValues(d.book, Closes(d.tape.bars)) == map[];
    assert forall e :: e in d.events ==> e == LongFor(x) || e == LongFor(y);
  }

  lemma OneIsUnspent(d: Desk, x: Symbol)
    requires d.book.positions == map[] && d.book.cash == 1000.5 && d.stopped == {} && d.mayOpen
    requires d.events == [LongFor(x)] && QuietIn(d.tape.bars, x)
    ensures Unspent(d)
  {
    assert MarketValues(d.book, Closes(d.tape.bars)) == map[];
    assert forall e :: e in d.events ==> e == LongFor(x);
  }

  /** Two orders that both pass. */
  lemma DeskAsksTwo(d: Desk, day: Day, x: Symbol, y: Symbol, id: OrderId, now: Time)
    requires Unspent(d) && d.events == [LongFor(x), LongFor(y)] && x != y
    requires day.start == Some(1000.5) && !day.halted
    ensures Candidates(Plain(1.0, 0.0, 2), d, day, id, now).1
            == [Purchase(x, 100, id, now), Purchase(y, 100, id + 1, now)]
  {
    assert SymbolsOf(d.events) == [x, y] && [x, y][0] == x && [x, y][1] == y;
    assert d.events[0] in d.events && d.events[1] in d.events;
    HundredIsTheSize(d, x);
    HundredIsTheSize(d, y);
    SlotsForTwo(d);
    TwoOrders(Plain(1.0, 0.0, 2), d, day, x, y, 100, id, now);
  }

  lemma DeskPassesTwo(g: Gate, d: Desk, x: Symbol, y: Symbol, id: OrderId, now: Time)
    requires Unspent(d) && d.events == [LongFor(x), LongFor(y)] && g.peak <= 1000.5
    ensures var orders := [Purchase(x, 100, id, now), Purchase(y, 100, id + 1, now)];
            PassedOf(Plain(1.0, 0.0, 2), map[], g, d, orders) == orders
  {
    var o, p := Purchase(x, 100, id, now), Purchase(y, 100, id + 1, now);
    assert d.events[0] in d.events && d.events[1] in d.events;
    OrderPasses(d, g, [], x, id, now);
    assert [] + [o] == [o] && [o] + [p] == [o, p];
    OrderPasses(d, g, [o], y, id + 1, now);
  }

  // ---- A desk that has gained ----------------------------------------------------------------

  /** 100 shares bought at 1.01 are worth 100 each; 899.5 in cash, and a signal for another symbol, at 1. */
  ghost predicate Gained(d: Desk, x: Symbol, y: Symbol) {
    && x != y && AllOpen(d) && d.events == [LongFor(y)] && d.book.cash == 899.5
    && d.book.positions.Keys == {x} && d.book.positions[x].quantity == 100
    && d.tape.bars.Keys == {x, y} && d.tape.bars[x].close == 100.0 && d.tape.bars[y].close == 1.0
  }

  lemma GainedExposure(d: Desk, x: Symbol, y: Symbol)
    requires Gained(d, x, y)
    ensures EquityOf(d) == 10899.5 && OpenSymbols(d.book) == {x} && At(d.book, y) == FLAT
    ensures ExposureAt(d.book, map[], Closes(d.tape.bars), y) == Exposure(10899.5, 899.5, 0.0, 10000.0, 10000.0)
  {
    var prices := Closes(d.tape.bars);
    var values := MarketValues(d.book, prices);
    TotalOfOne(values, x);
    TotalOfOne(Magnitudes(values), x);
    TotalOfOne(InSector(Magnitudes(values), map[], "Unknown"), x);
    assert values[x] == 10000.0;
  }

  lemma AllOfTheCash(equity: real, cash: real, n: real, t: real)
    requires cash == 899.5 && equity == 10899.5 && n == 1.0 && IsEvenSlice(Plain(1.0, 0.0, 2), cash, equity, n, t)
    ensures 899.0 <= BudgetFor(equity, 1.0, t) < 900.0
  {
  }

  lemma GainedAsks(d: Desk, x: Symbol, y: Symbol)
    requires Gained(d, x, y)
    ensures Slots(Plain(1.0, 0.0, 2), d.book) == 1 && AsksFor(Plain(1.0, 0.0, 2), d, y, 899)
  {
    var targets := TargetsOf(Plain(1.0, 0.0, 2), d);
    GainedExposure(d, x, y);
    assert SymbolsOf(d.events) == [y] && [y][0] == y && |{x}| == 1;
    PlainTargets(1.0, 0.0, 2, d, y);
    AllOfTheCash(EquityOf(d), d.book.cash, |d.events| as real, targets[y]);
    PlainSize(1.0, 0.0, 2, EquityOf(d), d.tape, targets, y, 899);
  }

  lemma GainedFits(e: Exposure)
    requires e == Exposure(10899.5, 899.5, 0.0, 10000.0, 10000.0)
    ensures WithinAll(Plain(1.0, 0.0, 2).limits, e, 1.0, 899)
  {
  }

  lemma GainedOrder(d: Desk, day: Day, x: Symbol, y: Symbol, id: OrderId, now: Time)
    requires Gained(d, x, y) && day.start == Some(10899.5) && !day.halted
    ensures Candidates(Plain(1.0, 0.0, 2), d, day, id, now).1 == [Purchase(y, 899, id, now)]
  {
    GainedExposure(d, x, y);
    GainedAsks(d, x, y);
    OneOrder(Plain(1.0, 0.0, 2), d, day, y, 899, id, now);
  }

  lemma GainedCheck(g: Gate, d: Desk, x: Symbol, y: Symbol, id: OrderId, now: Time)
    requires Gained(d, x, y) && g.peak <= 10899.5
    ensures PassedOf(Plain(1.0, 0.0, 2), map[], g, d, [Purchase(y, 899, id, now)]) == [Purchase(y, 899, id, now)]
  {
    var o := Purchase(y, 899, id, now);
    GainedExposure(d, x, y);
    GainedFits(ExposureAt(d.book, map[], Closes(d.tape.bars), y));
    PurchasePasses(Plain(1.0, 0.0, 2), g, d, y, 899, id, now);
    OneMorePasses(Plain(1.0, 0.0, 2), g, d, [], o);
    assert [] + [o] == [o];
  }
}
