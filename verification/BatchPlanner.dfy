/** The loops behind a signal batch: choosing one signal for each symbol, sorting them into closes and openings,
    and building the orders, against a portfolio that the batch itself does not change. */
module BatchPlanner {
  import opened Models
  import opened Portfolio
  import opened RiskEngine
  import opened SignalBatch
  import Allocator
  import Sizing = PositionSizing

  method ChooseSignals(events: seq<Signal>) returns (chosen: seq<Signal>)
    ensures chosen == Chosen(events)
  {
    chosen := [];
    for i := 0 to |events|
      invariant chosen == Latest(events[..i])
    {
      assert events[..i + 1][..i] == events[..i];
      chosen := Upsert(chosen, events[i]);
    }
    assert events[..|events|] == events;
    for i := 0 to |events|
      invariant chosen == StopsApplied(Latest(events), events[..i])
    {
      assert events[..i + 1][..i] == events[..i];
      if events[i].fromStop {
        chosen := Upsert(chosen, events[i]);
      }
    }
  }

  method SortSignals(cfg: Config, portfolio: PortfolioManager, stopped: set<Symbol>, chosen: seq<Signal>)
    returns (closing: seq<Signal>, opening: seq<Signal>)
    requires portfolio.Valid()
    ensures closing == Acting(portfolio.State(), stopped, cfg.coverShorts, chosen, Close)
    ensures opening == Acting(portfolio.State(), stopped, cfg.coverShorts, chosen, Open)
  {
    ghost var b := portfolio.State();
    closing, opening := [], [];
    for i := 0 to |chosen|
      invariant portfolio.State() == b
      invariant closing == Acting(b, stopped, cfg.coverShorts, chosen[..i], Close)
      invariant opening == Acting(b, stopped, cfg.coverShorts, chosen[..i], Open)
    {
      assert chosen[..i + 1][..i] == chosen[..i];
      var e := chosen[i];
      var h := portfolio.GetPosition(e.symbol);
      if e.symbol in stopped || e.direction.Flat? {
        if h.quantity != 0 {
          closing := closing + [e];
        }
      } else if e.direction.Short? {
        if h.quantity > 0 {
          closing := closing + [e];
        }
      } else if h.quantity <= 0 {
        if h.quantity < 0 && cfg.coverShorts {
          closing := closing + [e];
        } else {
          opening := opening + [e];
        }
      }
    }
    assert chosen[..|chosen|] == chosen;
  }

  /** `build_close_order` on the position it reads. */
  function CloseOf(h: Holding, e: Signal, id: OrderId, now: Time): (order: Order)
    requires h.quantity != 0
    ensures forall b: Book :: At(b, e.symbol) == h ==> order == CloseOrder(b, e, id, now)
  {
    var side := if h.quantity > 0 then Sell else Buy;
    OrderData(id, e.symbol, side, Market, Abs(h.quantity), None, None, now, e.strategyId, Some(e.signalId),
              Tags(None, None, true))
  }

  /** `build_close_order` for each signal. */
  method BuildCloses(portfolio: PortfolioManager, ghost b: Book, signals: seq<Signal>, firstId: OrderId, now: Time)
    returns (orders: seq<Order>)
    requires portfolio.Valid() && portfolio.State() == b
    requires forall e :: e in signals ==> At(b, e.symbol).quantity != 0
    ensures orders == CloseOrders(b, signals, firstId, now)
  {
    orders := [];
    for i := 0 to |signals|
      invariant portfolio.State() == b
      invariant orders == CloseOrders(b, signals[..i], firstId, now)
    {
      assert signals[..i + 1][..i] == signals[..i];
      var e := signals[i];
      assert e in signals;
      var h := portfolio.GetPosition(e.symbol);
      assert h == At(b, e.symbol);
      orders := orders + [CloseOf(h, e, firstId + |orders|, now)];
    }
    assert signals[..|signals|] == signals;
  }

  /** The capital slices are those of the targets, in the order of the signals. */
  ghost predicate SlicesFor(slices: seq<Allocator.Slice>, targets: map<Symbol, real>, signals: seq<Signal>) {
    if targets == map[] then slices == []
    else |slices| == |signals| && forall i :: 0 <= i < |signals| ==>
      signals[i].symbol in targets && slices[i].symbol == signals[i].symbol
          && slices[i].target == targets[signals[i].symbol]
  }

  /** Sizing and `build_orders` for each selected signal. */
  method BuildOpens(cfg: Config, portfolio: PortfolioManager, ghost b: Book, equity: real, tape: Tape,
                    slices: seq<Allocator.Slice>, ghost targets: map<Symbol, real>, signals: seq<Signal>,
                    firstId: OrderId, now: Time) returns (orders: seq<Order>)
    requires cfg.Valid() && portfolio.Valid() && portfolio.State() == b && SlicesFor(slices, targets, signals)
    ensures orders == OpenOrders(cfg, b, equity, tape, targets, signals, firstId, now)
  {
    orders := [];
    for i := 0 to |signals|
      invariant portfolio.State() == b
      invariant orders == OpenOrders(cfg, b, equity, tape, targets, signals[..i], firstId, now)
    {
      assert signals[..i + 1][..i] == signals[..i];
      var e := signals[i];
      if e.symbol in tape.bars && slices != [] && slices[i].target > 0.0 {
        var size := Sizing.Compute(cfg.sizer, tape.bars[e.symbol].close, equity, AtrOf(tape, e.symbol),
                                   Some(slices[i].target), Long);
        if size.IsValid() {
          var h := portfolio.GetPosition(e.symbol);
          assert h == At(b, e.symbol);
          var built := BuildFrom(h, e, size, firstId + |orders|, now);
          BuiltFrom(b, e, size, firstId + |orders|, now);
          orders := orders + built;
        }
      }
    }
    assert signals[..|signals|] == signals;
  }

  /** `build_orders` for a LONG signal, on the position it reads. */
  function BuildFrom(h: Holding, e: Signal, size: Sizing.PositionSize, id: OrderId, now: Time): seq<Order>
    requires size.quantity > 0
  {
    if h.quantity > 0 then [] else if h.quantity < 0 then [CloseOf(h, e, id, now)] else [OpenOrder(e, size, id, now)]
  }

  lemma BuiltFrom(b: Book, e: Signal, size: Sizing.PositionSize, id: OrderId, now: Time)
    requires size.quantity > 0
    ensures BuildFrom(At(b, e.symbol), e, size, id, now) == BuildOrders(b, e, size, id, now)
  {
  }

  method AllocateSlices(cfg: Config, signals: seq<Signal>, equity: real, cash: real, sigmas: map<Symbol, real>)
    returns (slices: seq<Allocator.Slice>)
    requires cfg.Valid()
    ensures SlicesFor(slices, Allocator.Targets(cfg.alloc, SymbolsOf(signals), equity, cash, sigmas), signals)
  {
    var symbols := SymbolsOf(signals);
    slices := Allocator.Allocate(cfg.alloc, symbols, equity, cash, sigmas);
    ghost var targets := Allocator.Targets(cfg.alloc, symbols, equity, cash, sigmas);
    NoTargets(cfg, signals, equity, cash, sigmas);
    forall i | 0 <= i < |slices| ensures symbols[i] == signals[i].symbol {
    }
    assert targets != map[] ==> forall i :: 0 <= i < |signals| ==>
      slices[i] == Allocator.SliceFor(cfg.alloc.weighting, symbols[i], targets[symbols[i]],
                                      Allocator.Deployable(cfg.alloc, cash), sigmas);
  }

  lemma NoTargets(cfg: Config, signals: seq<Signal>, equity: real, cash: real, sigmas: map<Symbol, real>)
    requires cfg.Valid()
    ensures Allocator.Targets(cfg.alloc, SymbolsOf(signals), equity, cash, sigmas) == map[] <==>
            signals == [] || equity <= 0.0
  {
    var symbols := SymbolsOf(signals);
    if equity > 0.0 {
      Allocator.TargetsAreBounded(cfg.alloc, symbols, equity, cash, sigmas);
      if signals != [] {
        assert symbols[0] in Allocator.Targets(cfg.alloc, symbols, equity, cash, sigmas);
      } else {
        assert Allocator.Targets(cfg.alloc, symbols, equity, cash, sigmas).Keys == {};
      }
    }
  }

  /** Slots, allocation and sizing of the opening signals. */
  method PlanOpens(cfg: Config, portfolio: PortfolioManager, ghost d: Desk, equity: real, tape: Tape, held: nat,
                   opening: seq<Signal>, firstId: OrderId, now: Time) returns (orders: seq<Order>)
    requires cfg.Valid() && portfolio.Valid() && portfolio.State() == d.book && tape == d.tape
    requires equity == EquityOf(d) && held == |OpenSymbols(d.book)| && opening == OpeningSignals(cfg, d)
    ensures orders == OpeningOrders(cfg, d, firstId, now)
  {
    var selected := SelectFirst(cfg, d, held, opening);
    ghost var targets := TargetsOf(cfg, d);
    var slices := AllocateSlices(cfg, selected, equity, portfolio.cash, tape.sigmas);
    assert portfolio.State() == d.book;
    assert SlicesFor(slices, targets, selected);
    orders := BuildOpens(cfg, portfolio, d.book, equity, tape, slices, targets, selected, firstId, now);
    OpeningUnfolds(cfg, d, selected, firstId, now);
  }

  method SelectFirst(cfg: Config, ghost d: Desk, held: nat, opening: seq<Signal>) returns (selected: seq<Signal>)
    requires held == |OpenSymbols(d.book)|
    ensures selected == Selected(cfg, d.book, opening)
  {
    var slots := if cfg.day.maxOpen > held then cfg.day.maxOpen - held else 0;
    selected := opening[..Min(|opening|, slots)];
  }

  lemma OpeningUnfolds(cfg: Config, d: Desk, selected: seq<Signal>, firstId: OrderId, now: Time)
    requires cfg.Valid() && selected == Selected(cfg, d.book, OpeningSignals(cfg, d))
    ensures OpeningOrders(cfg, d, firstId, now)
            == OpenOrders(cfg, d.book, EquityOf(d), d.tape, TargetsOf(cfg, d), selected, firstId, now)
  {
  }

  method PlanCloses(cfg: Config, portfolio: PortfolioManager, ghost d: Desk, stopped: set<Symbol>, events: seq<Signal>,
                    firstId: OrderId, now: Time) returns (closes: seq<Order>, opening: seq<Signal>)
    requires portfolio.Valid() && portfolio.State() == d.book && stopped == d.stopped && events == d.events
    ensures closes == ClosingOrders(cfg, d, firstId, now) && opening == OpeningSignals(cfg, d)
  {
    var chosen := ChooseSignals(events);
    var closing, toOpen := SortSignals(cfg, portfolio, stopped, chosen);
    assert portfolio.State() == d.book;
    ClosingAreHeld(cfg, d);
    closes := BuildCloses(portfolio, d.book, closing, firstId, now);
    opening := toOpen;
  }

  /** `_process_signal_batch` up to the risk gate. The orders read a portfolio that no order of the batch has
      changed, so planning them all before routing any gives the orders that planning one at a time does. */
  method Plan(cfg: Config, portfolio: PortfolioManager, guard: PortfolioRiskManager, tape: Tape, stopped: set<Symbol>,
              events: seq<Signal>, mayOpen: bool, firstId: OrderId, now: Time) returns (orders: seq<Order>)
    requires cfg.Valid() && portfolio.Valid() && guard.limits == cfg.day
    modifies guard
    ensures (guard.State(), orders)
            == Candidates(cfg, Desk(old(portfolio.State()), tape, stopped, events, mayOpen), old(guard.State()),
                          firstId, now)
  {
    ghost var d := Desk(portfolio.State(), tape, stopped, events, mayOpen);
    var closes, opening := PlanCloses(cfg, portfolio, d, stopped, events, firstId, now);
    if opening == [] || !mayOpen {
      return closes;
    }
    var equity := portfolio.TotalEquity(Closes(tape.bars));
    assert portfolio.State() == d.book;
    var open := portfolio.OpenPositions();
    assert portfolio.State() == d.book;
    var allowed := guard.CanOpenNewPosition(|open|, equity);
    if !allowed {
      return closes;
    }
    assert portfolio.State() == d.book;
    var opens := PlanOpens(cfg, portfolio, d, equity, tape, |open|, opening, firstId + |closes|, now);
    return closes + opens;
  }
}
