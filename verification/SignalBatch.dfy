/** The managed-risk batch step that cpat/backtest/engine.py and cpat/infrastructure/execution_engine_live.py
    share: signals to closing and opening orders, through cpat/portfolio/translator.py.
    Risk checks and sizing read a book that no order of the batch has touched yet. */
module SignalBatch {
  import opened Models
  import opened Portfolio
  import opened RiskEngine
  import Allocator
  import Sizing = PositionSizing

  datatype Signal = Signal(symbol: Symbol, direction: Direction, fromStop: bool, strategyId: string, signalId: nat)

  /** Bars of the current instant, and the indicator values computed from history. */
  datatype Tape = Tape(bars: map<Symbol, Bar>, sigmas: map<Symbol, real>, atrs: map<Symbol, real>)

  function Closes(bars: map<Symbol, Bar>): Prices {
    map s | s in bars :: bars[s].close
  }

  function AtrOf(m: Tape, s: Symbol): real {
    if s in m.atrs then m.atrs[s] else 0.0
  }

  datatype Config = Config(
    alloc: Allocator.Config, sizer: Sizing.Config, limits: Limits, day: DayLimits, coverShorts: bool)
  {
    /** Ranges of the schema, and the wiring of the two engines: allocator, sizer and gate are given the same
        single-name cap, allocator and gate the same cash reserve. */
    predicate Valid() {
      && alloc.Valid() && sizer.Valid()
      && sizer.maxPositionPct == alloc.maxPositionPct == limits.maxPositionPct
      && limits.minCashPct == alloc.minCashPct
      && day.maxOpen >= 1
    }
  }

  // ---- Which signal counts -------------------------------------------------------------------

  /** Assignment to a dictionary keyed by symbol: an existing key keeps its place. */
  function Upsert(chosen: seq<Signal>, e: Signal): seq<Signal> {
    if chosen == [] then [e]
    else if chosen[0].symbol == e.symbol then [e] + chosen[1..]
    else [chosen[0]] + Upsert(chosen[1..], e)
  }

  function Latest(events: seq<Signal>): seq<Signal> {
    if events == [] then [] else Upsert(Latest(events[..|events| - 1]), events[|events| - 1])
  }

  function StopsApplied(chosen: seq<Signal>, events: seq<Signal>): seq<Signal> {
    if events == [] then chosen
    else
      var before, e := StopsApplied(chosen, events[..|events| - 1]), events[|events| - 1];
      if e.fromStop then Upsert(before, e) else before
  }

  /** One signal for each symbol, in the order in which the symbols first appear. */
  function Chosen(events: seq<Signal>): seq<Signal> {
    StopsApplied(Latest(events), events)
  }

  function LastFor(events: seq<Signal>, s: Symbol, stopOnly: bool): Option<Signal> {
    if events == [] then None
    else
      var e := events[|events| - 1];
      if e.symbol == s && (e.fromStop || !stopOnly) then Some(e) else LastFor(events[..|events| - 1], s, stopOnly)
  }

  ghost predicate OnePerSymbol(chosen: seq<Signal>) {
    forall i, j :: 0 <= i < j < |chosen| ==> chosen[i].symbol != chosen[j].symbol
  }

  lemma {:induction false} UpsertMembers(chosen: seq<Signal>, e: Signal)
    requires OnePerSymbol(chosen)
    ensures OnePerSymbol(Upsert(chosen, e))
    ensures forall x :: x in Upsert(chosen, e) <==> x == e || (x in chosen && x.symbol != e.symbol)
  {
    if chosen != [] {
      var head, tail := chosen[0], chosen[1..];
      assert chosen == [head] + tail;
      if head.symbol != e.symbol {
        UpsertMembers(tail, e);
        assert head !in Upsert(tail, e) && forall x :: x in Upsert(tail, e) ==> x.symbol != head.symbol;
      } else {
        assert forall x :: x in tail ==> x.symbol != head.symbol;
      }
    }
  }

  lemma {:induction false} LatestMembers(events: seq<Signal>)
    ensures OnePerSymbol(Latest(events))
    ensures forall x :: x in Latest(events) <==> LastFor(events, x.symbol, false) == Some(x)
  {
    if events != [] {
      LatestMembers(events[..|events| - 1]);
      UpsertMembers(Latest(events[..|events| - 1]), events[|events| - 1]);
    }
  }

  lemma {:induction false} StopsMembers(chosen: seq<Signal>, events: seq<Signal>)
    requires OnePerSymbol(chosen)
    ensures OnePerSymbol(StopsApplied(chosen, events))
    ensures forall x :: x in StopsApplied(chosen, events) <==>
              if LastFor(events, x.symbol, true).Some? then LastFor(events, x.symbol, true) == Some(x) else x in chosen
  {
    if events != [] {
      var before, e := events[..|events| - 1], events[|events| - 1];
      StopsMembers(chosen, before);
      if e.fromStop {
        UpsertMembers(StopsApplied(chosen, before), e);
      }
    }
  }

  /** A symbol's signal is its last stop exit if it has one, otherwise its last signal: a strategy cannot
      override a stop raised in the same batch. */
  lemma ChosenSignal(events: seq<Signal>)
    ensures OnePerSymbol(Chosen(events))
    ensures forall x :: x in Chosen(events) <==>
              Some(x) == if LastFor(events, x.symbol, true).Some? then LastFor(events, x.symbol, true)
                         else LastFor(events, x.symbol, false)
  {
    LatestMembers(events);
    StopsMembers(Latest(events), events);
  }

  // ---- What a signal asks for ----------------------------------------------------------------

  datatype Act = Ignore | Close | Open

  function Verdict(h: Holding, stopped: bool, direction: Direction, coverShorts: bool): Act {
    if stopped || direction.Flat? then if h.quantity == 0 then Ignore else Close
    else if direction.Short? then if h.quantity > 0 then Close else Ignore
    else if h.quantity > 0 then Ignore
    else if h.quantity < 0 && coverShorts then Close
    else Open
  }

  function Acting(b: Book, stopped: set<Symbol>, coverShorts: bool, chosen: seq<Signal>, act: Act): seq<Signal> {
    if chosen == [] then []
    else
      var before, e := Acting(b, stopped, coverShorts, chosen[..|chosen| - 1], act), chosen[|chosen| - 1];
      if Verdict(At(b, e.symbol), e.symbol in stopped, e.direction, coverShorts) == act then before + [e] else before
  }

  lemma {:induction false} ActingMembers(b: Book, stopped: set<Symbol>, coverShorts: bool, chosen: seq<Signal>,
                                         act: Act)
    requires OnePerSymbol(chosen)
    ensures OnePerSymbol(Acting(b, stopped, coverShorts, chosen, act))
    ensures forall x :: x in Acting(b, stopped, coverShorts, chosen, act) <==>
              x in chosen && Verdict(At(b, x.symbol), x.symbol in stopped, x.direction, coverShorts) == act
  {
    if chosen != [] {
      var init, e := chosen[..|chosen| - 1], chosen[|chosen| - 1];
      ActingMembers(b, stopped, coverShorts, init, act);
      assert chosen == init + [e];
      assert forall x :: x in init ==> x.symbol != e.symbol;
    }
  }

  function CloseOrder(b: Book, e: Signal, id: OrderId, now: Time): Order
    requires At(b, e.symbol).quantity != 0
  {
    var q := At(b, e.symbol).quantity;
    OrderData(id, e.symbol, if q > 0 then Sell else Buy, Market, Abs(q), None, None, now, e.strategyId,
              Some(e.signalId), Tags(None, None, true))
  }

  function OpenOrder(e: Signal, size: Sizing.PositionSize, id: OrderId, now: Time): Order
    requires size.quantity > 0
  {
    OrderData(id, e.symbol, Buy, Market, size.quantity, None, None, now, e.strategyId,
              Some(e.signalId), Tags(Some(size.stop), size.takeProfit, false))
  }

  /** `build_close_order` for each signal. */
  function CloseOrders(b: Book, signals: seq<Signal>, firstId: OrderId, now: Time): seq<Order>
    requires forall e :: e in signals ==> At(b, e.symbol).quantity != 0
  {
    if signals == [] then []
    else
      var before := CloseOrders(b, signals[..|signals| - 1], firstId, now);
      before + [CloseOrder(b, signals[|signals| - 1], firstId + |before|, now)]
  }

  /** `build_orders` for a LONG signal. */
  function BuildOrders(b: Book, e: Signal, size: Sizing.PositionSize, id: OrderId, now: Time): seq<Order>
    requires size.quantity > 0
  {
    var q := At(b, e.symbol).quantity;
    if q > 0 then [] else if q < 0 then [CloseOrder(b, e, id, now)] else [OpenOrder(e, size, id, now)]
  }

  function SizeFor(cfg: Config, equity: real, m: Tape, targets: map<Symbol, real>,
                   s: Symbol): Option<Sizing.PositionSize>
    requires cfg.Valid()
  {
    if s !in m.bars || s !in targets || targets[s] <= 0.0 then None
    else
      var size := Sizing.Compute(cfg.sizer, m.bars[s].close, equity, AtrOf(m, s), Some(targets[s]), Long);
      if size.IsValid() then Some(size) else None
  }

  function OpenOrders(cfg: Config, b: Book, equity: real, m: Tape, targets: map<Symbol, real>, signals: seq<Signal>,
                      firstId: OrderId, now: Time): seq<Order>
    requires cfg.Valid()
  {
    if signals == [] then []
    else
      var before, e := OpenOrders(cfg, b, equity, m, targets, signals[..|signals| - 1], firstId, now),
          signals[|signals| - 1];
      var size := SizeFor(cfg, equity, m, targets, e.symbol);
      if size.None? then before else before + BuildOrders(b, e, size.value, firstId + |before|, now)
  }

  function SymbolsOf(signals: seq<Signal>): seq<Symbol> {
    seq(|signals|, i requires 0 <= i < |signals| => signals[i].symbol)
  }

  function Slots(cfg: Config, b: Book): int {
    if cfg.day.maxOpen > |OpenSymbols(b)| then cfg.day.maxOpen - |OpenSymbols(b)| else 0
  }

  function Selected(cfg: Config, b: Book, openings: seq<Signal>): seq<Signal> {
    openings[..Min(|openings|, Slots(cfg, b))]
  }

  datatype Desk = Desk(book: Book, tape: Tape, stopped: set<Symbol>, events: seq<Signal>, mayOpen: bool)

  function ClosingSignals(cfg: Config, d: Desk): seq<Signal> {
    Acting(d.book, d.stopped, cfg.coverShorts, Chosen(d.events), Close)
  }

  function OpeningSignals(cfg: Config, d: Desk): seq<Signal> {
    Acting(d.book, d.stopped, cfg.coverShorts, Chosen(d.events), Open)
  }

  lemma ClosingAreHeld(cfg: Config, d: Desk)
    ensures forall e :: e in ClosingSignals(cfg, d) ==> At(d.book, e.symbol).quantity != 0
    ensures OnePerSymbol(ClosingSignals(cfg, d)) && OnePerSymbol(OpeningSignals(cfg, d))
    ensures forall e, f :: e in ClosingSignals(cfg, d) && f in OpeningSignals(cfg, d) ==> e.symbol != f.symbol
    ensures forall e :: e in OpeningSignals(cfg, d) ==>
              At(d.book, e.symbol).quantity <= 0 && (cfg.coverShorts ==> At(d.book, e.symbol).quantity == 0)
  {
    ChosenSignal(d.events);
    ActingMembers(d.book, d.stopped, cfg.coverShorts, Chosen(d.events), Close);
    ActingMembers(d.book, d.stopped, cfg.coverShorts, Chosen(d.events), Open);
  }

  function ClosingOrders(cfg: Config, d: Desk, firstId: OrderId, now: Time): seq<Order> {
    ClosingAreHeld(cfg, d);
    CloseOrders(d.book, ClosingSignals(cfg, d), firstId, now)
  }

  ghost function EquityOf(d: Desk): real {
    EquityAt(d.book, Closes(d.tape.bars))
  }

  ghost function TargetsOf(cfg: Config, d: Desk): map<Symbol, real> {
    Allocator.Targets(cfg.alloc, SymbolsOf(Selected(cfg, d.book, OpeningSignals(cfg, d))), EquityOf(d), d.book.cash,
                      d.tape.sigmas)
  }

  ghost function OpeningOrders(cfg: Config, d: Desk, firstId: OrderId, now: Time): seq<Order>
    requires cfg.Valid()
  {
    OpenOrders(cfg, d.book, EquityOf(d), d.tape, TargetsOf(cfg, d), Selected(cfg, d.book, OpeningSignals(cfg, d)),
               firstId, now)
  }

  /** The orders a batch puts to the risk gate, closes first, and the daily guard afterwards. */
  ghost function Candidates(cfg: Config, d: Desk, day: Day, firstId: OrderId, now: Time): (Day, seq<Order>)
    requires cfg.Valid()
  {
    var closes := ClosingOrders(cfg, d, firstId, now);
    if OpeningSignals(cfg, d) == [] || !d.mayOpen then (day, closes)
    else
      var (after, allowed) := CanOpen(cfg.day, day, |OpenSymbols(d.book)|, EquityOf(d));
      if !allowed then (after, closes)
      else (after, closes + OpeningOrders(cfg, d, firstId + |closes|, now))
  }

  // ---- The risk gate over a batch ------------------------------------------------------------

  function Admitted(order: Order, decision: Decision): seq<Order>
    requires decision.Reduced? ==> decision.quantity > 0
  {
    match decision
    case Approved(_) => [order]
    case Reduced(q) => [order.(quantity := q)]
    case Refused(_) => []
  }

  ghost function Routed(cfg: Config, sectors: map<Symbol, string>, g: Gate, b: Book, orders: seq<Order>,
                        prices: Prices): (Gate, seq<Order>)
  {
    if orders == [] then (g, [])
    else
      var (before, passed) := Routed(cfg, sectors, g, b, orders[..|orders| - 1], prices);
      var (after, decision) := Checked(cfg.limits, sectors, before, b, orders[|orders| - 1], prices);
      ReducedIsPositive(cfg.limits, sectors, before, b, orders[|orders| - 1], prices);
      (after, passed + Admitted(orders[|orders| - 1], decision))
  }

  lemma ReducedIsPositive(limits: Limits, sectors: map<Symbol, string>, g: Gate, b: Book, order: Order, prices: Prices)
    ensures var d := Checked(limits, sectors, g, b, order, prices).1;
            d.Reduced? ==> 0 < d.quantity
  {
  }
}
