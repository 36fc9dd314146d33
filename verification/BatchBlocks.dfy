/** What a signal batch may still do when it may not buy: with no permission to open, after a day's loss, or after a
    fall of equity from its peak, only exits pass. */
module BatchBlocks {
  import opened Models
  import opened Portfolio
  import opened RiskEngine
  import opened SignalBatch
  import opened BatchBounds

  // ---- Exits ---------------------------------------------------------------------------------

  /** The order gives up what is held, long or short. */
  predicate ExitOrder(b: Book, o: Order) {
    if o.side.Sell? then o.quantity == At(b, o.symbol).quantity else o.quantity == -At(b, o.symbol).quantity
  }

  ghost predicate OnlyExits(b: Book, orders: seq<Order>) {
    forall o :: o in orders ==> ExitOrder(b, o)
  }

  lemma {:induction false} ClosesExit(b: Book, signals: seq<Signal>, firstId: OrderId, now: Time)
    requires forall e :: e in signals ==> At(b, e.symbol).quantity != 0
    ensures OnlyExits(b, CloseOrders(b, signals, firstId, now))
  {
    if signals != [] {
      ClosesExit(b, signals[..|signals| - 1], firstId, now);
    }
  }

  lemma ClosingOrdersExit(cfg: Config, d: Desk, firstId: OrderId, now: Time)
    ensures OnlyExits(d.book, ClosingOrders(cfg, d, firstId, now))
  {
    ClosingAreHeld(cfg, d);
    ClosesExit(d.book, ClosingSignals(cfg, d), firstId, now);
  }

  /** The gate passes an exit as it is or not at all. */
  lemma {:induction false} RoutedExits(cfg: Config, sectors: map<Symbol, string>, g: Gate, b: Book, orders: seq<Order>,
                                       prices: Prices)
    requires OnlyExits(b, orders)
    ensures OnlyExits(b, Routed(cfg, sectors, g, b, orders, prices).1)
  {
    if orders != [] {
      var init, o := orders[..|orders| - 1], orders[|orders| - 1];
      assert orders == init + [o];
      RoutedExits(cfg, sectors, g, b, init, prices);
      assert ExitOrder(b, o);
      ReducedIsPositive(cfg.limits, sectors, Routed(cfg, sectors, g, b, init, prices).0, b, o, prices);
    }
  }

  /** A batch that may not open, for whatever reason, passes exits alone, also when it is cut short. */
  lemma BlockedBatchExits(cfg: Config, sectors: map<Symbol, string>, g: Gate, d: Desk, day: Day, firstId: OrderId,
                          now: Time, orders: seq<Order>)
    requires cfg.Valid() && orders <= Candidates(cfg, d, day, firstId, now).1
    requires Candidates(cfg, d, day, firstId, now).1 == ClosingOrders(cfg, d, firstId, now)
    ensures OnlyExits(d.book, PassedOf(cfg, sectors, g, d, orders))
  {
    ClosingOrdersExit(cfg, d, firstId, now);
    assert forall o :: o in orders ==> o in ClosingOrders(cfg, d, firstId, now);
    RoutedExits(cfg, sectors, g, d.book, orders, Closes(d.tape.bars));
  }

  /** The batch has openings and may place them. */
  predicate Asks(cfg: Config, d: Desk) {
    d.mayOpen && OpeningSignals(cfg, d) != []
  }

  /** A batch with openings asks the daily guard, and places them exactly when a slot is free, the day is not halted and
      no more than the limit is lost; the guard halts the day exactly when that last is the reason. */
  lemma GuardIsAsked(cfg: Config, d: Desk, day: Day, firstId: OrderId, now: Time)
    requires cfg.Valid()
    ensures var (after, orders) := Candidates(cfg, d, day, firstId, now);
            var free, lost := |OpenSymbols(d.book)| < cfg.day.maxOpen, Lost(cfg.day, day, EquityOf(d));
            && after == (if Asks(cfg, d) && free && lost then day.(halted := true) else day)
            && orders == if Asks(cfg, d) && free && !day.halted && !lost then WholeBatch(cfg, d, firstId, now)
                         else ClosingOrders(cfg, d, firstId, now)
  {
    DailyLossIsExact(cfg.day, day, |OpenSymbols(d.book)|, EquityOf(d));
  }

  /** A day on which more than the limit is lost leaves a batch its closes. */
  lemma LossLeavesCloses(cfg: Config, d: Desk, day: Day, firstId: OrderId, now: Time)
    requires cfg.Valid() && Lost(cfg.day, day, EquityOf(d))
    ensures Candidates(cfg, d, day, firstId, now).1 == ClosingOrders(cfg, d, firstId, now)
  {
    GuardIsAsked(cfg, d, day, firstId, now);
  }

  /** The same day, at the same starting equity. */
  predicate SameDay(a: Day, b: Day) {
    b.date == a.date && b.start == a.start
  }

  lemma CandidatesKeepDay(cfg: Config, d: Desk, day: Day, firstId: OrderId, now: Time)
    requires cfg.Valid()
    ensures SameDay(day, Candidates(cfg, d, day, firstId, now).0)
  {
  }

  // ---- The fall from the peak ----------------------------------------------------------------

  /** The order opens a position where none is. */
  predicate EntryOrder(b: Book, o: Order) {
    o.side.Buy? && At(b, o.symbol).quantity == 0
  }

  ghost predicate ExitsOrEntries(b: Book, orders: seq<Order>) {
    forall o :: o in orders ==> ExitOrder(b, o) || EntryOrder(b, o)
  }

  lemma {:induction false} OpensEnter(cfg: Config, b: Book, equity: real, m: Tape, targets: map<Symbol, real>,
                                      signals: seq<Signal>, firstId: OrderId, now: Time)
    requires cfg.Valid()
    ensures ExitsOrEntries(b, OpenOrders(cfg, b, equity, m, targets, signals, firstId, now))
  {
    if signals != [] {
      OpensEnter(cfg, b, equity, m, targets, signals[..|signals| - 1], firstId, now);
    }
  }

  lemma CandidatesEnterOrExit(cfg: Config, d: Desk, day: Day, firstId: OrderId, now: Time)
    requires cfg.Valid()
    ensures ExitsOrEntries(d.book, Candidates(cfg, d, day, firstId, now).1)
  {
    var next := firstId + |ClosingOrders(cfg, d, firstId, now)|;
    ClosingOrdersExit(cfg, d, firstId, now);
    OpensEnter(cfg, d.book, EquityOf(d), d.tape, TargetsOf(cfg, d), Selected(cfg, d.book, OpeningSignals(cfg, d)),
               next, now);
    forall o | o in Candidates(cfg, d, day, firstId, now).1 ensures ExitOrder(d.book, o) || EntryOrder(d.book, o) {
      CandidateOrigin(cfg, d, day, firstId, now, o);
      assert o !in ClosingOrders(cfg, d, firstId, now) ==> o in OpeningOrders(cfg, d, next, now);
    }
  }

  /** Equity is positive and has fallen from a value by more than the limit. */
  predicate Fallen(limits: Limits, high: real, equity: real) {
    0.0 < equity < high - Fraction(high, limits.maxDrawdownPct)
  }

  /** A gate whose peak lies that high keeps it, and refuses every entry. */
  lemma {:induction false} GateRefusesEntries(cfg: Config, sectors: map<Symbol, string>, g: Gate, d: Desk,
                                              orders: seq<Order>)
    requires Fallen(cfg.limits, g.peak, EquityOf(d)) && EquityOf(d) <= g.peak && ExitsOrEntries(d.book, orders)
    ensures Routed(cfg, sectors, g, d.book, orders, Closes(d.tape.bars)).0.peak == g.peak
    ensures OnlyExits(d.book, PassedOf(cfg, sectors, g, d, orders))
  {
    if orders != [] {
      var init, o := orders[..|orders| - 1], orders[|orders| - 1];
      assert orders == init + [o];
      var prices := Closes(d.tape.bars);
      GateRefusesEntries(cfg, sectors, g, d, init);
      var before := Routed(cfg, sectors, g, d.book, init, prices).0;
      DrawdownHaltIsExact(cfg.limits, before, ExposureAt(d.book, sectors, prices, o.symbol), At(d.book, o.symbol),
                          o.side, PriceOf(prices, o.symbol), o.quantity);
      assert ExitOrder(d.book, o) || EntryOrder(d.book, o);
      ReducedIsPositive(cfg.limits, sectors, before, d.book, o, prices);
    }
  }

  /** A check never lowers the peak. */
  lemma {:induction false} RoutedRaisesPeak(cfg: Config, sectors: map<Symbol, string>, g: Gate, b: Book,
                                            orders: seq<Order>, prices: Prices)
    ensures Routed(cfg, sectors, g, b, orders, prices).0.peak >= g.peak
  {
    if orders != [] {
      RoutedRaisesPeak(cfg, sectors, g, b, orders[..|orders| - 1], prices);
    }
  }

  lemma HigherPeakFalls(limits: Limits, high: real, peak: real, equity: real)
    requires 0.0 < high <= peak && Fallen(limits, high, equity)
    ensures Fallen(limits, peak, equity)
  {
    var left := 1.0 - limits.maxDrawdownPct;
    assert high * left == high - Fraction(high, limits.maxDrawdownPct) > 0.0;
    assert left > 0.0;
    assert (peak - high) * left >= 0.0;
    assert peak * left == peak - Fraction(peak, limits.maxDrawdownPct);
  }
}
