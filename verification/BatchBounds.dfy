/** What one batch of orders guarantees, although every order is sized and checked on its own. */
module BatchBounds {
  import opened Models
  import opened Totals
  import opened Portfolio
  import opened RiskEngine
  import opened SignalBatch
  import Allocator
  import Sizing = PositionSizing

  ghost predicate LongOnly(b: Book) {
    forall s :: s in b.positions ==> b.positions[s].quantity >= 0
  }

  /** An order fits the book: it closes exactly what is held, or opens a position where none is, with a stop. */
  predicate Fits(b: Book, o: Order) {
    && o.kind.Market?
    && (if o.side.Sell? then o.tags.closing && o.quantity == At(b, o.symbol).quantity
        else !o.tags.closing && At(b, o.symbol).quantity == 0
             && o.tags.stopPrice.Some? && o.tags.stopPrice.value > 0.0)
  }

  /** An opening order was sized within the single-name cap at a current price. */
  predicate SizedWithin(cfg: Config, equity: real, bars: map<Symbol, Bar>, o: Order) {
    o.side.Buy? ==>
      && o.symbol in bars
      && Worth(bars[o.symbol].close, o.quantity) <= Fraction(equity, cfg.limits.maxPositionPct)
  }

  ghost predicate DistinctSymbols(orders: seq<Order>) {
    forall i, j :: 0 <= i < j < |orders| ==> orders[i].symbol != orders[j].symbol
  }

  ghost predicate DistinctIds(orders: seq<Order>) {
    forall i, j :: 0 <= i < j < |orders| ==> orders[i].id != orders[j].id
  }

  ghost predicate Numbered(orders: seq<Order>, firstId: OrderId) {
    forall i :: 0 <= i < |orders| ==> orders[i].id == firstId + i
  }

  /** How many of the orders open a position. */
  function Buys(orders: seq<Order>): nat {
    if orders == [] then 0 else Buys(orders[..|orders| - 1]) + (if orders[|orders| - 1].side.Buy? then 1 else 0)
  }

  function NotionalOf(bars: map<Symbol, Bar>, o: Order): real {
    if o.side.Buy? && o.symbol in bars then Worth(bars[o.symbol].close, o.quantity) else 0.0
  }

  /** The notional of the opening orders at the prices they were decided on. */
  function OpeningValue(bars: map<Symbol, Bar>, orders: seq<Order>): real {
    if orders == [] then 0.0
    else OpeningValue(bars, orders[..|orders| - 1]) + NotionalOf(bars, orders[|orders| - 1])
  }

  // ---- The closing orders --------------------------------------------------------------------

  lemma {:induction false} ClosesFit(b: Book, signals: seq<Signal>, firstId: OrderId, now: Time)
    requires LongOnly(b) && OnePerSymbol(signals)
    requires forall e :: e in signals ==> At(b, e.symbol).quantity != 0
    ensures var os := CloseOrders(b, signals, firstId, now);
            && |os| == |signals| && Numbered(os, firstId)
            && (forall i :: 0 <= i < |os| ==> Closing(b, os[i], signals[i]))
            && Buys(os) == 0
  {
    if signals != [] {
      var init, e := signals[..|signals| - 1], signals[|signals| - 1];
      assert signals == init + [e];
      ClosesFit(b, init, firstId, now);
      var before := CloseOrders(b, init, firstId, now);
      CloseFits(b, e, firstId + |before|, now);
      assert CloseOrders(b, signals, firstId, now) == before + [CloseOrder(b, e, firstId + |before|, now)];
    }
  }

  predicate Closing(b: Book, o: Order, e: Signal) {
    o.symbol == e.symbol && o.side.Sell? && Fits(b, o)
  }

  lemma CloseFits(b: Book, e: Signal, id: OrderId, now: Time)
    requires LongOnly(b) && At(b, e.symbol).quantity != 0
    ensures var o := CloseOrder(b, e, id, now); Closing(b, o, e) && o.id == id
  {
  }

  lemma ClosesAreDistinct(b: Book, signals: seq<Signal>, firstId: OrderId, now: Time)
    requires LongOnly(b) && OnePerSymbol(signals)
    requires forall e :: e in signals ==> At(b, e.symbol).quantity != 0
    ensures DistinctSymbols(CloseOrders(b, signals, firstId, now))
  {
    ClosesFit(b, signals, firstId, now);
  }

  // ---- The opening orders --------------------------------------------------------------------

  /** The targets of the symbols that `signals` names. */
  ghost function TargetSum(targets: map<Symbol, real>, signals: seq<Signal>): real {
    Total(Only(targets, NamesOf(signals)))
  }

  ghost function NamesOf(signals: seq<Signal>): set<Symbol> {
    set e | e in signals :: e.symbol
  }

  /** What holds of one opening order, given the signal it answers. */
  predicate OpensWell(cfg: Config, b: Book, equity: real, m: Tape, targets: map<Symbol, real>, o: Order) {
    && o.side.Buy? && Fits(b, o) && SizedWithin(cfg, equity, m.bars, o)
    && o.symbol in targets && NotionalOf(m.bars, o) <= targets[o.symbol]
  }

  lemma SizedOrderOpensWell(cfg: Config, b: Book, equity: real, m: Tape, targets: map<Symbol, real>, e: Signal,
                            id: OrderId, now: Time)
    requires cfg.Valid() && At(b, e.symbol).quantity == 0
    requires SizeFor(cfg, equity, m, targets, e.symbol).Some?
    ensures var o := OpenOrder(e, SizeFor(cfg, equity, m, targets, e.symbol).value, id, now);
            BuildOrders(b, e, SizeFor(cfg, equity, m, targets, e.symbol).value, id, now) == [o]
            && OpensWell(cfg, b, equity, m, targets, o)
  {
    var s := e.symbol;
    Sizing.SizeIsLargestAllowed(cfg.sizer, m.bars[s].close, equity, AtrOf(m, s), targets[s], Long);
  }

  lemma {:induction false} OpensFit(cfg: Config, b: Book, equity: real, m: Tape, targets: map<Symbol, real>,
                                    signals: seq<Signal>, firstId: OrderId, now: Time)
    requires cfg.Valid() && OnePerSymbol(signals)
    requires forall e :: e in signals ==> At(b, e.symbol).quantity == 0
    ensures var os := OpenOrders(cfg, b, equity, m, targets, signals, firstId, now);
            && |os| <= |signals| && Numbered(os, firstId) && DistinctSymbols(os)
            && (forall o :: o in os ==> o.symbol in NamesOf(signals) && OpensWell(cfg, b, equity, m, targets, o))
  {
    if signals != [] {
      var init, e := signals[..|signals| - 1], signals[|signals| - 1];
      OpensFit(cfg, b, equity, m, targets, init, firstId, now);
      var before := OpenOrders(cfg, b, equity, m, targets, init, firstId, now);
      NamesGrow(signals);
      var size := SizeFor(cfg, equity, m, targets, e.symbol);
      if size.Some? {
        SizedOrderOpensWell(cfg, b, equity, m, targets, e, firstId + |before|, now);
        AppendOrder(before, OpenOrder(e, size.value, firstId + |before|, now));
      }
    }
  }

  /** Orders whose notionals stay within their symbols' targets cost no more together than the targets. */
  lemma {:induction false} CostWithinTargets(bars: map<Symbol, Bar>, targets: map<Symbol, real>, orders: seq<Order>,
                                             names: set<Symbol>)
    requires DistinctSymbols(orders)
    requires forall o :: o in orders ==>
               o.side.Buy? && o.symbol in names && o.symbol in targets && NotionalOf(bars, o) <= targets[o.symbol]
    requires forall s :: s in targets ==> targets[s] >= 0.0
    ensures OpeningValue(bars, orders) <= Total(Only(targets, names)) && Buys(orders) == |orders|
  {
    if orders == [] {
      TotalNonNegative(Only(targets, names));
    } else {
      var init, o := orders[..|orders| - 1], orders[|orders| - 1];
      forall x | x in init ensures x.symbol != o.symbol {
        var i :| 0 <= i < |init| && init[i] == x;
        assert orders[i].symbol != orders[|init|].symbol;
      }
      OnlyPeel(targets, names, o.symbol);
      CostWithinTargets(bars, targets, init, names - {o.symbol});
    }
  }

  lemma NamesGrow(signals: seq<Signal>)
    requires signals != [] && OnePerSymbol(signals)
    ensures var init, e := signals[..|signals| - 1], signals[|signals| - 1];
            e.symbol in NamesOf(signals) && NamesOf(init) == NamesOf(signals) - {e.symbol}
  {
    var init, e := signals[..|signals| - 1], signals[|signals| - 1];
    assert signals == init + [e];
    forall x | x in init ensures x.symbol != e.symbol && x.symbol in NamesOf(signals) {
      assert x in signals;
    }
    assert e in signals;
  }

  lemma AppendOrder(orders: seq<Order>, o: Order)
    ensures (forall x :: x in orders ==> x.symbol != o.symbol) && DistinctSymbols(orders) ==>
            DistinctSymbols(orders + [o])
    ensures (forall x :: x in orders ==> x.id != o.id) && DistinctIds(orders) ==> DistinctIds(orders + [o])
  {
  }

  // ---- The whole batch -----------------------------------------------------------------------

  /** Everything a batch promises before the gate sees it. */
  ghost predicate GoodBatch(cfg: Config, d: Desk, orders: seq<Order>) {
    && DistinctSymbols(orders)
    && (forall o :: o in orders ==> Fits(d.book, o) && SizedWithin(cfg, EquityOf(d), d.tape.bars, o))
    && Buys(orders) <= Slots(cfg, d.book)
    && OpeningValue(d.tape.bars, orders) <= Allocator.Deployable(cfg.alloc, d.book.cash)
  }

  lemma {:induction false} ValueOfConcat(bars: map<Symbol, Bar>, a: seq<Order>, b: seq<Order>)
    ensures OpeningValue(bars, a + b) == OpeningValue(bars, a) + OpeningValue(bars, b)
    ensures Buys(a + b) == Buys(a) + Buys(b)
  {
    if b == [] {
      assert a + b == a;
    } else {
      assert (a + b)[..|a + b| - 1] == a + b[..|b| - 1];
      ValueOfConcat(bars, a, b[..|b| - 1]);
    }
  }

  lemma {:induction false} SalesHaveNoValue(bars: map<Symbol, Bar>, orders: seq<Order>)
    requires forall o :: o in orders ==> o.side.Sell?
    ensures OpeningValue(bars, orders) == 0.0 && Buys(orders) == 0
  {
    if orders != [] {
      SalesHaveNoValue(bars, orders[..|orders| - 1]);
    }
  }

  lemma FlatWhenOpening(cfg: Config, d: Desk)
    requires LongOnly(d.book)
    ensures forall e :: e in OpeningSignals(cfg, d) ==> At(d.book, e.symbol).quantity == 0
  {
    ClosingAreHeld(cfg, d);
  }

  /** The orders are for symbols that the signals name. */
  ghost predicate Named(orders: seq<Order>, signals: seq<Signal>) {
    forall o :: o in orders ==> o.symbol in NamesOf(signals)
  }

  ghost predicate ClosePart(cfg: Config, d: Desk, closes: seq<Order>, firstId: OrderId) {
    GoodBatch(cfg, d, closes) && Numbered(closes, firstId) && Buys(closes) == 0
        && OpeningValue(d.tape.bars, closes) == 0.0
  }

  ghost predicate OpenPart(cfg: Config, d: Desk, opens: seq<Order>, firstId: OrderId) {
    GoodBatch(cfg, d, opens) && Numbered(opens, firstId)
  }

  ghost predicate Apart(a: seq<Order>, b: seq<Order>) {
    forall o, p :: o in a && p in b ==> o.symbol != p.symbol
  }

  /** Sales that close what is held. */
  ghost predicate AllCloses(b: Book, orders: seq<Order>) {
    forall o :: o in orders ==> o.side.Sell? && Fits(b, o)
  }

  lemma ClosesQualify(cfg: Config, d: Desk, firstId: OrderId, now: Time)
    requires LongOnly(d.book)
    ensures var os := ClosingOrders(cfg, d, firstId, now);
            && AllCloses(d.book, os) && Named(os, ClosingSignals(cfg, d)) && Numbered(os, firstId)
               && DistinctSymbols(os)
  {
    var signals, os := ClosingSignals(cfg, d), ClosingOrders(cfg, d, firstId, now);
    ClosingAreHeld(cfg, d);
    ClosesFit(d.book, signals, firstId, now);
    ClosesAreDistinct(d.book, signals, firstId, now);
    forall o | o in os ensures o.symbol in NamesOf(signals) && Fits(d.book, o) && o.side.Sell? {
      var i :| 0 <= i < |os| && os[i] == o;
      assert Closing(d.book, os[i], signals[i]) && signals[i] in signals;
    }
  }

  lemma ClosesAreGood(cfg: Config, d: Desk, firstId: OrderId, now: Time)
    requires LongOnly(d.book)
    ensures var os := ClosingOrders(cfg, d, firstId, now);
            ClosePart(cfg, d, os, firstId) && Named(os, ClosingSignals(cfg, d))
  {
    ClosesQualify(cfg, d, firstId, now);
    SalesHaveNoValue(d.tape.bars, ClosingOrders(cfg, d, firstId, now));
  }

  lemma OpensAreGood(cfg: Config, d: Desk, firstId: OrderId, now: Time)
    requires cfg.Valid() && LongOnly(d.book)
    ensures var os := OpeningOrders(cfg, d, firstId, now);
            OpenPart(cfg, d, os, firstId) && Named(os, OpeningSignals(cfg, d))
  {
    var signals := Selected(cfg, d.book, OpeningSignals(cfg, d));
    var targets := TargetsOf(cfg, d);
    ClosingAreHeld(cfg, d);
    FlatWhenOpening(cfg, d);
    if EquityOf(d) <= 0.0 {
      assert targets == map[];
    } else {
      Allocator.TargetsAreBounded(cfg.alloc, SymbolsOf(signals), EquityOf(d), d.book.cash, d.tape.sigmas);
    }
    OpensFit(cfg, d.book, EquityOf(d), d.tape, targets, signals, firstId, now);
    CostWithinTargets(d.tape.bars, targets, OpeningOrders(cfg, d, firstId, now), NamesOf(signals));
    TargetSumIsBounded(cfg, d);
  }

  lemma TargetSumIsBounded(cfg: Config, d: Desk)
    requires cfg.Valid()
    ensures TargetSum(TargetsOf(cfg, d), Selected(cfg, d.book, OpeningSignals(cfg, d)))
            <= Allocator.Deployable(cfg.alloc, d.book.cash)
  {
    var signals := Selected(cfg, d.book, OpeningSignals(cfg, d));
    var targets := TargetsOf(cfg, d);
    if EquityOf(d) <= 0.0 {
      assert Only(targets, NamesOf(signals)) == map[];
    } else {
      Allocator.TargetsAreBounded(cfg.alloc, SymbolsOf(signals), EquityOf(d), d.book.cash, d.tape.sigmas);
      TotalSplit(targets, NamesOf(signals));
      TotalNonNegative(Only(targets, targets.Keys - NamesOf(signals)));
    }
  }

  lemma CandidatesAreGood(cfg: Config, d: Desk, day: Day, firstId: OrderId, now: Time)
    requires cfg.Valid() && LongOnly(d.book)
    ensures GoodBatch(cfg, d, Candidates(cfg, d, day, firstId, now).1)
    ensures Numbered(Candidates(cfg, d, day, firstId, now).1, firstId)
  {
    CandidatesUnfold(cfg, d, day, firstId, now);
    ClosesAreGood(cfg, d, firstId, now);
    WholeBatchIsGood(cfg, d, firstId, now);
  }

  /** Closes and openings of a batch, all of them. */
  ghost function WholeBatch(cfg: Config, d: Desk, firstId: OrderId, now: Time): seq<Order>
    requires cfg.Valid()
  {
    var closes := ClosingOrders(cfg, d, firstId, now);
    closes + OpeningOrders(cfg, d, firstId + |closes|, now)
  }

  lemma CandidatesUnfold(cfg: Config, d: Desk, day: Day, firstId: OrderId, now: Time)
    requires cfg.Valid()
    ensures var os := Candidates(cfg, d, day, firstId, now).1;
            os == ClosingOrders(cfg, d, firstId, now) || os == WholeBatch(cfg, d, firstId, now)
  {
  }

  /** Every order of a batch is one of the closes or one of the openings. */
  lemma CandidateOrigin(cfg: Config, d: Desk, day: Day, firstId: OrderId, now: Time, o: Order)
    requires cfg.Valid() && o in Candidates(cfg, d, day, firstId, now).1
    ensures var closes := ClosingOrders(cfg, d, firstId, now);
            o in closes || o in OpeningOrders(cfg, d, firstId + |closes|, now)
  {
    CandidatesUnfold(cfg, d, day, firstId, now);
  }

  lemma WholeBatchIsGood(cfg: Config, d: Desk, firstId: OrderId, now: Time)
    requires cfg.Valid() && LongOnly(d.book)
    ensures GoodBatch(cfg, d, WholeBatch(cfg, d, firstId, now))
    ensures Numbered(WholeBatch(cfg, d, firstId, now), firstId)
  {
    var closes := ClosingOrders(cfg, d, firstId, now);
    var opens := OpeningOrders(cfg, d, firstId + |closes|, now);
    ClosesAreGood(cfg, d, firstId, now);
    OpensAreGood(cfg, d, firstId + |closes|, now);
    NamedApart(cfg, d, closes, opens);
    PartsAreGood(cfg, d, closes, opens, firstId);
  }

  lemma NamedApart(cfg: Config, d: Desk, closes: seq<Order>, opens: seq<Order>)
    requires Named(closes, ClosingSignals(cfg, d)) && Named(opens, OpeningSignals(cfg, d))
    ensures Apart(closes, opens)
  {
    NamesAreDisjoint(cfg, d);
  }

  lemma PartsAreGood(cfg: Config, d: Desk, closes: seq<Order>, opens: seq<Order>, firstId: OrderId)
    requires ClosePart(cfg, d, closes, firstId) && OpenPart(cfg, d, opens, firstId + |closes|) && Apart(closes, opens)
    ensures GoodBatch(cfg, d, closes + opens) && Numbered(closes + opens, firstId)
  {
    GoodConcat(cfg, d, closes, opens);
    NumberedConcat(closes, opens, firstId);
  }

  lemma NumberedAreDistinct(orders: seq<Order>, firstId: OrderId)
    requires Numbered(orders, firstId)
    ensures DistinctIds(orders)
  {
  }

  lemma NumberedConcat(a: seq<Order>, b: seq<Order>, firstId: OrderId)
    requires Numbered(a, firstId) && Numbered(b, firstId + |a|)
    ensures Numbered(a + b, firstId)
  {
  }

  lemma NamesAreDisjoint(cfg: Config, d: Desk)
    ensures NamesOf(ClosingSignals(cfg, d)) !! NamesOf(OpeningSignals(cfg, d))
  {
    ClosingAreHeld(cfg, d);
  }

  lemma GoodConcat(cfg: Config, d: Desk, closes: seq<Order>, opens: seq<Order>)
    requires GoodBatch(cfg, d, closes) && GoodBatch(cfg, d, opens)
    requires Buys(closes) == 0 && OpeningValue(d.tape.bars, closes) == 0.0
    requires Apart(closes, opens)
    ensures GoodBatch(cfg, d, closes + opens)
  {
    ValueOfConcat(d.tape.bars, closes, opens);
    DistinctConcat(closes, opens);
  }

  lemma DistinctConcat(a: seq<Order>, b: seq<Order>)
    requires DistinctSymbols(a) && DistinctSymbols(b) && Apart(a, b)
    ensures DistinctSymbols(a + b)
  {
  }

  // ---- Behind the gate -----------------------------------------------------------------------

  lemma NeverReduced(cfg: Config, sectors: map<Symbol, string>, g: Gate, d: Desk, o: Order)
    requires cfg.Valid() && Fits(d.book, o) && SizedWithin(cfg, EquityOf(d), d.tape.bars, o)
    ensures var decision := Checked(cfg.limits, sectors, g, d.book, o, Closes(d.tape.bars)).1;
            !decision.Reduced? && (decision.Approved? ==> Admitted(o, decision) == [o])
  {
    var h := At(d.book, o.symbol);
    var prices := Closes(d.tape.bars);
    var e := ExposureAt(d.book, sectors, prices, o.symbol);
    if o.side.Buy? {
      SizedOrdersKeepQuantity(cfg.limits, g, e, h, o.side, PriceOf(prices, o.symbol), o.quantity);
    }
  }

  ghost function PassedOf(cfg: Config, sectors: map<Symbol, string>, g: Gate, d: Desk, orders: seq<Order>): seq<Order> {
    Routed(cfg, sectors, g, d.book, orders, Closes(d.tape.bars)).1
  }

  /** What passes is, in place, part of the batch, with no more notional and no more openings. */
  ghost predicate Thinned(bars: map<Symbol, Bar>, orders: seq<Order>, passed: seq<Order>) {
    && DistinctSymbols(passed) && DistinctIds(passed) && (forall o :: o in passed ==> o in orders)
    && OpeningValue(bars, passed) <= OpeningValue(bars, orders)
    && Buys(passed) <= Buys(orders)
  }

  lemma ThinnedGrows(bars: map<Symbol, Bar>, orders: seq<Order>, passed: seq<Order>, o: Order)
    requires Thinned(bars, orders, passed) && DistinctSymbols(orders + [o]) && DistinctIds(orders + [o])
    ensures Thinned(bars, orders + [o], passed)
    ensures Thinned(bars, orders + [o], passed + [o])
  {
    NotionalIsNonNegative(bars, o);
    assert (orders + [o])[..|orders|] == orders && (passed + [o])[..|passed|] == passed;
    forall x | x in passed ensures x.symbol != o.symbol && x.id != o.id {
      var i :| 0 <= i < |orders| && orders[i] == x;
      assert (orders + [o])[i] == x && (orders + [o])[|orders|] == o;
    }
    AppendOrder(passed, o);
  }

  lemma DistinctPrefix(orders: seq<Order>, n: nat)
    requires n <= |orders| && DistinctSymbols(orders) && DistinctIds(orders)
    ensures DistinctSymbols(orders[..n]) && DistinctIds(orders[..n])
  {
  }

  /** The gate only ever drops orders of a batch: what it passes keeps its place and its full quantity. */
  lemma {:induction false} RoutedIsFilter(cfg: Config, sectors: map<Symbol, string>, g: Gate, d: Desk,
                                          orders: seq<Order>)
    requires cfg.Valid() && DistinctSymbols(orders) && DistinctIds(orders)
    requires forall o :: o in orders ==> Fits(d.book, o) && SizedWithin(cfg, EquityOf(d), d.tape.bars, o)
    ensures Thinned(d.tape.bars, orders, PassedOf(cfg, sectors, g, d, orders))
  {
    if orders != [] {
      var init, o := orders[..|orders| - 1], orders[|orders| - 1];
      assert orders == init + [o];
      DistinctPrefix(orders, |init|);
      RoutedIsFilter(cfg, sectors, g, d, init);
      RoutedStep(cfg, sectors, g, d, init, o);
      ThinnedGrows(d.tape.bars, init, PassedOf(cfg, sectors, g, d, init), o);
    }
  }

  lemma RoutedStep(cfg: Config, sectors: map<Symbol, string>, g: Gate, d: Desk, init: seq<Order>, o: Order)
    requires cfg.Valid() && Fits(d.book, o) && SizedWithin(cfg, EquityOf(d), d.tape.bars, o)
    ensures var passed, now := PassedOf(cfg, sectors, g, d, init), PassedOf(cfg, sectors, g, d, init + [o]);
            now == passed || now == passed + [o]
  {
    var prices := Closes(d.tape.bars);
    var (before, passed) := Routed(cfg, sectors, g, d.book, init, prices);
    NeverReduced(cfg, sectors, before, d, o);
    ReducedIsPositive(cfg.limits, sectors, before, d.book, o, prices);
    assert (init + [o])[..|init + [o]| - 1] == init;
    assert passed + [] == passed;
  }

  lemma RoutedIsGood(cfg: Config, sectors: map<Symbol, string>, g: Gate, d: Desk, orders: seq<Order>)
    requires cfg.Valid() && GoodBatch(cfg, d, orders) && DistinctIds(orders)
    ensures GoodBatch(cfg, d, PassedOf(cfg, sectors, g, d, orders))
    ensures DistinctIds(PassedOf(cfg, sectors, g, d, orders))
    ensures forall o :: o in PassedOf(cfg, sectors, g, d, orders) ==> o in orders
  {
    RoutedIsFilter(cfg, sectors, g, d, orders);
  }

  lemma NotionalIsNonNegative(bars: map<Symbol, Bar>, o: Order)
    ensures NotionalOf(bars, o) >= 0.0
  {
    if o.side.Buy? && o.symbol in bars {
      WorthMonotone(bars[o.symbol].close, 0, o.quantity);
    }
  }

  /** Every opening order that passes meets the cash floor and the single-name, sector and gross limits. */
  lemma {:induction false} PassedMeetLimits(cfg: Config, sectors: map<Symbol, string>, g: Gate, d: Desk,
                                            orders: seq<Order>, o: Order)
    requires cfg.Valid() && DistinctSymbols(orders)
    requires forall x :: x in orders ==> Fits(d.book, x) && SizedWithin(cfg, EquityOf(d), d.tape.bars, x)
    requires o in PassedOf(cfg, sectors, g, d, orders) && o.side.Buy?
    ensures var prices := Closes(d.tape.bars);
            && EquityOf(d) > 0.0
            && WithinAll(cfg.limits, ExposureAt(d.book, sectors, prices, o.symbol), PriceOf(prices, o.symbol),
                         o.quantity)
  {
    var init, last := orders[..|orders| - 1], orders[|orders| - 1];
    assert orders == init + [last];
    var prices := Closes(d.tape.bars);
    var (before, passed) := Routed(cfg, sectors, g, d.book, init, prices);
    if o in passed {
      PassedMeetLimits(cfg, sectors, g, d, init, o);
    } else {
      NeverReduced(cfg, sectors, before, d, last);
      assert o == last;
      ApprovalIsExact(cfg.limits, before, ExposureAt(d.book, sectors, prices, o.symbol), At(d.book, o.symbol),
                      o.side, PriceOf(prices, o.symbol), o.quantity);
    }
  }

  /** With positive equity every closing order of a batch passes, whatever halts are active. */
  lemma {:induction false} ClosesPass(cfg: Config, sectors: map<Symbol, string>, g: Gate, d: Desk, orders: seq<Order>,
                                      o: Order)
    requires cfg.Valid() && EquityOf(d) > 0.0
    requires o in orders && o.side.Sell? && Fits(d.book, o)
    ensures o in PassedOf(cfg, sectors, g, d, orders)
  {
    var init, last := orders[..|orders| - 1], orders[|orders| - 1];
    assert orders == init + [last];
    var prices := Closes(d.tape.bars);
    if o in init {
      ClosesPass(cfg, sectors, g, d, init, o);
    } else {
      var before := Routed(cfg, sectors, g, d.book, init, prices).0;
      ClosingPasses(cfg.limits, before, ExposureAt(d.book, sectors, prices, o.symbol), At(d.book, o.symbol),
                    o.side, PriceOf(prices, o.symbol), o.quantity);
    }
  }

  lemma GrossIsEquityLessCash(b: Book, prices: Prices)
    requires LongOnly(b)
    ensures GrossAt(b, prices) == EquityAt(b, prices) - b.cash
  {
    var values := MarketValues(b, prices);
    forall s | s in values ensures AbsR(values[s]) == values[s] {
      WorthMonotone(prices[s], 0, b.positions[s].quantity);
    }
    assert Magnitudes(values) == values;
  }

  /** Each order is checked without its siblings, yet after the whole batch gross exposure at decision prices
      stays below equity by the cash reserve. */
  lemma BatchKeepsReserve(cfg: Config, sectors: map<Symbol, string>, g: Gate, d: Desk, day: Day, firstId: OrderId,
                          now: Time)
    requires cfg.Valid() && LongOnly(d.book) && d.book.cash >= 0.0
    ensures var passed := PassedOf(cfg, sectors, g, d, Candidates(cfg, d, day, firstId, now).1);
            && OpeningValue(d.tape.bars, passed) <= Fraction(d.book.cash, 1.0 - cfg.alloc.minCashPct)
            && GrossAt(d.book, Closes(d.tape.bars)) + OpeningValue(d.tape.bars, passed)
               <= EquityOf(d) - Fraction(d.book.cash, cfg.alloc.minCashPct)
  {
    CandidatesAreGood(cfg, d, day, firstId, now);
    NumberedAreDistinct(Candidates(cfg, d, day, firstId, now).1, firstId);
    RoutedIsGood(cfg, sectors, g, d, Candidates(cfg, d, day, firstId, now).1);
    GrossIsEquityLessCash(d.book, Closes(d.tape.bars));
    ReserveSplits(d.book.cash, cfg.alloc.minCashPct);
  }

  lemma ReserveSplits(cash: real, pct: real)
    requires cash >= 0.0 && 0.0 <= pct <= 1.0
    ensures Fraction(cash, 1.0 - pct) == cash - Fraction(cash, pct)
    ensures 0.0 <= Fraction(cash, 1.0 - pct) <= cash
  {
  }

  // ---- The cash floor ------------------------------------------------------------------------

  /** What is left of the cash after a spend is no less than the gate's floor. */
  predicate AboveFloor(limits: Limits, cash: real, spent: real, equity: real) {
    cash - spent >= Fraction(equity, limits.minCashPct)
  }

  /** The allocator keeps its reserve out of cash, the gate its floor out of equity: every spend within the deployable
      cash leaves the floor exactly when there is no reserve or nothing but cash in the books (or less). */
  lemma ReserveKeepsFloor(cfg: Config, cash: real, equity: real)
    requires cfg.Valid() && cash >= 0.0
    ensures (forall spent :: 0.0 <= spent <= Allocator.Deployable(cfg.alloc, cash) ==>
             AboveFloor(cfg.limits, cash, spent, equity))
            <==> cfg.limits.minCashPct == 0.0 || cash >= equity
  {
    var most, pct := Allocator.Deployable(cfg.alloc, cash), cfg.limits.minCashPct;
    ReserveSplits(cash, pct);
    ShareGrows(equity, cash, pct);
    if pct > 0.0 && cash < equity {
      assert !AboveFloor(cfg.limits, cash, most, equity);
    }
  }

  lemma ShareGrows(a: real, b: real, pct: real)
    requires pct >= 0.0
    ensures a <= b ==> Fraction(a, pct) <= Fraction(b, pct)
    ensures pct > 0.0 && a > b ==> Fraction(a, pct) > Fraction(b, pct)
    ensures Fraction(a, 0.0) == 0.0
  {
    assert Fraction(b - a, pct) == Fraction(b, pct) - Fraction(a, pct) == -Fraction(a - b, pct);
    ShareIsPositive(a - b, pct);
    ShareIsPositive(b - a, pct);
  }

  lemma ShareIsPositive(x: real, pct: real)
    requires pct >= 0.0
    ensures x >= 0.0 ==> Fraction(x, pct) >= 0.0
    ensures x > 0.0 && pct > 0.0 ==> Fraction(x, pct) > 0.0
  {
  }

  /** So a whole batch keeps the floor, though its orders are checked one by one, when there is no reserve or the book
      is all cash. */
  lemma BatchKeepsFloor(cfg: Config, sectors: map<Symbol, string>, g: Gate, d: Desk, day: Day, firstId: OrderId,
                        now: Time)
    requires cfg.Valid() && LongOnly(d.book) && d.book.cash >= 0.0
    requires cfg.limits.minCashPct == 0.0 || d.book.cash >= EquityOf(d)
    ensures var passed := PassedOf(cfg, sectors, g, d, Candidates(cfg, d, day, firstId, now).1);
            AboveFloor(cfg.limits, d.book.cash, OpeningValue(d.tape.bars, passed), EquityOf(d))
  {
    var candidates := Candidates(cfg, d, day, firstId, now).1;
    CandidatesAreGood(cfg, d, day, firstId, now);
    NumberedAreDistinct(candidates, firstId);
    RoutedIsGood(cfg, sectors, g, d, candidates);
    ReserveKeepsFloor(cfg, d.book.cash, EquityOf(d));
    ValueIsNonNegative(d.tape.bars, PassedOf(cfg, sectors, g, d, candidates));
  }

  lemma {:induction false} ValueIsNonNegative(bars: map<Symbol, Bar>, orders: seq<Order>)
    ensures OpeningValue(bars, orders) >= 0.0
  {
    if orders != [] {
      ValueIsNonNegative(bars, orders[..|orders| - 1]);
      NotionalIsNonNegative(bars, orders[|orders| - 1]);
    }
  }

  lemma {:induction false} OneBuy(bars: map<Symbol, Bar>, orders: seq<Order>) returns (o: Order)
    requires Buys(orders) == 1
    ensures o in orders && o.side.Buy? && OpeningValue(bars, orders) == NotionalOf(bars, o)
  {
    var init, last := orders[..|orders| - 1], orders[|orders| - 1];
    assert orders == init + [last];
    if last.side.Buy? {
      o := last;
      NoBuys(bars, init);
    } else {
      o := OneBuy(bars, init);
    }
  }

  lemma {:induction false} NoBuys(bars: map<Symbol, Bar>, orders: seq<Order>)
    requires Buys(orders) == 0
    ensures OpeningValue(bars, orders) == 0.0
  {
    if orders != [] {
      NoBuys(bars, orders[..|orders| - 1]);
    }
  }

  /** A batch with a single opening always keeps the floor: that one order was checked. */
  lemma LoneOpeningKeepsFloor(cfg: Config, sectors: map<Symbol, string>, g: Gate, d: Desk, day: Day, firstId: OrderId,
                              now: Time)
    requires cfg.Valid() && LongOnly(d.book)
    requires Buys(PassedOf(cfg, sectors, g, d, Candidates(cfg, d, day, firstId, now).1)) == 1
    ensures var passed := PassedOf(cfg, sectors, g, d, Candidates(cfg, d, day, firstId, now).1);
            AboveFloor(cfg.limits, d.book.cash, OpeningValue(d.tape.bars, passed), EquityOf(d))
  {
    var candidates := Candidates(cfg, d, day, firstId, now).1;
    CandidatesAreGood(cfg, d, day, firstId, now);
    NumberedAreDistinct(candidates, firstId);
    RoutedIsGood(cfg, sectors, g, d, candidates);
    var o := OneBuy(d.tape.bars, PassedOf(cfg, sectors, g, d, candidates));
    PassedMeetLimits(cfg, sectors, g, d, candidates, o);
    assert o in candidates && SizedWithin(cfg, EquityOf(d), d.tape.bars, o);
  }

  // ---- Ids and times -------------------------------------------------------------------------

  /** Market orders of one instant. */
  ghost predicate Stamped(orders: seq<Order>, now: Time) {
    forall o :: o in orders ==> o.kind.Market? && o.timestamp == now
  }

  /** Such orders under ids that were handed out together. */
  ghost predicate Issued(orders: seq<Order>, lo: OrderId, hi: OrderId, now: Time) {
    DistinctIds(orders) && Stamped(orders, now) && forall o :: o in orders ==> lo <= o.id < hi
  }

  lemma {:induction false} CloseIds(b: Book, signals: seq<Signal>, firstId: OrderId, now: Time)
    requires forall e :: e in signals ==> At(b, e.symbol).quantity != 0
    ensures var os := CloseOrders(b, signals, firstId, now); Numbered(os, firstId) && Stamped(os, now)
  {
    if signals != [] {
      CloseIds(b, signals[..|signals| - 1], firstId, now);
    }
  }

  lemma {:induction false} OpenIds(cfg: Config, b: Book, equity: real, m: Tape, targets: map<Symbol, real>,
                                   signals: seq<Signal>, firstId: OrderId, now: Time)
    requires cfg.Valid()
    ensures var os := OpenOrders(cfg, b, equity, m, targets, signals, firstId, now);
            Numbered(os, firstId) && Stamped(os, now)
  {
    if signals != [] {
      OpenIds(cfg, b, equity, m, targets, signals[..|signals| - 1], firstId, now);
    }
  }

  lemma CandidateIds(cfg: Config, d: Desk, day: Day, firstId: OrderId, now: Time)
    requires cfg.Valid()
    ensures var os := Candidates(cfg, d, day, firstId, now).1; Numbered(os, firstId) && Stamped(os, now)
  {
    CandidatesUnfold(cfg, d, day, firstId, now);
    ClosingIds(cfg, d, firstId, now);
    OpeningIds(cfg, d, firstId + |ClosingOrders(cfg, d, firstId, now)|, now);
    NumberedConcat(ClosingOrders(cfg, d, firstId, now),
                   OpeningOrders(cfg, d, firstId + |ClosingOrders(cfg, d, firstId, now)|, now), firstId);
  }

  lemma ClosingIds(cfg: Config, d: Desk, firstId: OrderId, now: Time)
    ensures var os := ClosingOrders(cfg, d, firstId, now); Numbered(os, firstId) && Stamped(os, now)
  {
    ClosingAreHeld(cfg, d);
    CloseIds(d.book, ClosingSignals(cfg, d), firstId, now);
  }

  lemma OpeningIds(cfg: Config, d: Desk, firstId: OrderId, now: Time)
    requires cfg.Valid()
    ensures var os := OpeningOrders(cfg, d, firstId, now); Numbered(os, firstId) && Stamped(os, now)
  {
    OpenIds(cfg, d.book, EquityOf(d), d.tape, TargetsOf(cfg, d), Selected(cfg, d.book, OpeningSignals(cfg, d)),
            firstId, now);
  }

  lemma {:induction false} RoutedIds(cfg: Config, sectors: map<Symbol, string>, g: Gate, b: Book, orders: seq<Order>,
                                     prices: Prices, firstId: OrderId, now: Time)
    requires Numbered(orders, firstId) && Stamped(orders, now)
    ensures Issued(Routed(cfg, sectors, g, b, orders, prices).1, firstId, firstId + |orders|, now)
  {
    if orders != [] {
      var init, o := orders[..|orders| - 1], orders[|orders| - 1];
      RoutedIds(cfg, sectors, g, b, init, prices, firstId, now);
      var (before, passed) := Routed(cfg, sectors, g, b, init, prices);
      var decision := Checked(cfg.limits, sectors, before, b, o, prices).1;
      ReducedIsPositive(cfg.limits, sectors, before, b, o, prices);
      assert o.id == firstId + |init|;
      IssuedGrows(passed, o, decision, firstId, firstId + |init|, now);
    }
  }

  lemma IssuedGrows(passed: seq<Order>, o: Order, decision: Decision, lo: OrderId, hi: OrderId, now: Time)
    requires Issued(passed, lo, hi, now) && o.id == hi && lo <= hi && o.kind.Market? && o.timestamp == now
    requires decision.Reduced? ==> decision.quantity > 0
    ensures Issued(passed + Admitted(o, decision), lo, hi + 1, now)
  {
    if decision.Refused? {
      assert passed + [] == passed;
    } else {
      AppendOrder(passed, Admitted(o, decision)[0]);
    }
  }

  lemma IssuedPrefix(orders: seq<Order>, lo: OrderId, hi: OrderId, now: Time)
    requires orders != [] && Issued(orders, lo, hi, now)
    ensures var init, o := orders[..|orders| - 1], orders[|orders| - 1];
            && Issued(init, lo, hi, now) && o.kind.Market? && lo <= o.id < hi
            && forall x :: x in init ==> x.id != o.id
  {
    var init, o := orders[..|orders| - 1], orders[|orders| - 1];
    assert orders == init + [o];
    forall x | x in init ensures x.id != o.id {
      var i :| 0 <= i < |init| && init[i] == x;
      assert orders[i].id != orders[|init|].id;
    }
  }

  /** Cutting a batch short keeps everything it promises. */
  lemma PrefixIsGood(cfg: Config, d: Desk, orders: seq<Order>, n: nat)
    requires GoodBatch(cfg, d, orders) && n <= |orders|
    ensures GoodBatch(cfg, d, orders[..n])
  {
    PrefixCostsLess(d.tape.bars, orders, n);
  }

  lemma {:induction false} PrefixCostsLess(bars: map<Symbol, Bar>, orders: seq<Order>, n: nat)
    requires n <= |orders|
    ensures OpeningValue(bars, orders[..n]) <= OpeningValue(bars, orders) && Buys(orders[..n]) <= Buys(orders)
  {
    if n == |orders| {
      assert orders[..n] == orders;
    } else {
      var init := orders[..|orders| - 1];
      assert init[..n] == orders[..n];
      PrefixCostsLess(bars, init, n);
      NotionalIsNonNegative(bars, orders[|orders| - 1]);
    }
  }
}
