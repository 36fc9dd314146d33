/** The managed backtest of cpat/backtest/engine.py as an object that updates execution engine, portfolio, stop
    levels and risk state in place. Each method does what the transition system of BacktestModel says. */
module BacktestEngine {
  import opened Models
  import opened Portfolio
  import opened StopLoss
  import opened StopExits
  import opened RiskEngine
  import opened SignalBatch
  import opened BacktestModel
  import Exec = ExecutionEngine
  import BatchPlanner

  class BacktestEngine {
    const setup: Setup
    const portfolio: PortfolioManager
    const exec: Exec.ExecutionEngine
    const stops: StopLossTracker
    const gate: RiskGate
    const guard: PortfolioRiskManager
    var submitted: map<OrderId, Order>
    var nextId: OrderId
    var index: nat
    ghost var Repr: set<object>

    ghost function Singles(): set<object> {
      {this, exec, gate, guard}
    }

    ghost function Footprint(): set<object>
      reads this, portfolio, stops
    {
      Singles() + portfolio.Repr() + stops.Repr()
    }

    ghost predicate Wired() {
      && setup.Valid() && gate.portfolio == portfolio && gate.limits == setup.trade.limits
      && guard.limits == setup.trade.day && portfolio.sectors == setup.sectors
         && stops.defaultTrailing == setup.trailing
      && exec.costs == setup.costs
    }

    ghost predicate Valid()
      reads this, portfolio, stops
    {
      && Footprint() <= Repr && Wired() && portfolio.Valid() && stops.Valid()
      && portfolio.Repr() !! stops.Repr() && Singles() !! portfolio.Repr() && Singles() !! stops.Repr()
    }

    ghost function State(): Backtest
      reads Footprint()
    {
      Backtest(exec.State(), portfolio.State(), stops.State(), gate.State(), guard.State(), submitted, nextId, index)
    }

    constructor (setup: Setup)
      requires setup.Valid()
      ensures Valid() && fresh(Repr) && State() == NewBacktest(setup) && this.setup == setup
    {
      var portfolio, stops := NewLedgers(setup);
      var exec, gate, guard := NewGuards(setup, portfolio);
      this.setup, this.portfolio, this.exec, this.stops, this.gate, this.guard :=
          setup, portfolio, exec, stops, gate, guard;
      submitted, nextId, index := map[], 0, 0;
      Repr := {this, exec, gate, guard} + portfolio.Repr() + stops.Repr();
    }

    static method NewLedgers(setup: Setup) returns (portfolio: PortfolioManager, stops: StopLossTracker)
      requires setup.Valid()
      ensures portfolio.Valid() && stops.Valid() && portfolio.Repr() !! stops.Repr()
      ensures fresh(portfolio.Repr()) && fresh(stops.Repr())
      ensures portfolio.State() == Replayed(setup.initialCapital, []) && portfolio.sectors == setup.sectors
      ensures stops.State() == map[] && stops.defaultTrailing == setup.trailing
    {
      portfolio := new PortfolioManager(setup.initialCapital, setup.sectors);
      stops := new StopLossTracker(setup.trailing);
    }

    static method NewGuards(setup: Setup, portfolio: PortfolioManager)
      returns (exec: Exec.ExecutionEngine, gate: RiskGate, guard: PortfolioRiskManager)
      ensures fresh({exec, gate, guard}) && exec.costs == setup.costs && exec.State() == Exec.Exec([], [])
      ensures gate.portfolio == portfolio && gate.limits == setup.trade.limits
      ensures gate.State() == Gate(portfolio.initialCapital, false)
      ensures guard.limits == setup.trade.day && guard.State() == NO_DAY
    {
      exec := new Exec.ExecutionEngine(setup.costs);
      gate := new RiskGate(portfolio, setup.trade.limits);
      guard := new PortfolioRiskManager(setup.trade.day);
    }

    /** The objects a component has created belong to the engine. */
    ghost method Adopt()
      requires Wired() && portfolio.Valid() && stops.Valid() && Singles() <= Repr
      requires portfolio.Repr() !! stops.Repr() && Singles() !! portfolio.Repr() && Singles() !! stops.Repr()
      modifies this`Repr
      ensures Valid() && Repr == old(Repr) + portfolio.Repr() + stops.Repr() && State() == old(State())
    {
      Repr := Repr + portfolio.Repr() + stops.Repr();
    }

    // ---- Fills at the open -------------------------------------------------------------------

    method BookFill(fill: Fill)
      requires Valid()
      modifies Repr
      ensures Valid() && fresh(Repr - old(Repr))
      ensures State() == old(State()).(book := Applied(old(State()).book, fill))
    {
      ghost var levels := stops.State();
      portfolio.ApplyFill(fill);
      assert stops.State() == levels;
      Adopt();
    }

    method SyncStopState(fill: Fill, order: Order)
      requires Valid()
      modifies this`Repr, stops
      ensures Valid() && fresh(Repr - old(Repr))
      ensures var s := old(State());
              State() == s.(stops := StopsFor(setup.trailing, s.stops, At(s.book, fill.symbol), fill, order))
    {
      ghost var b := portfolio.State();
      var h := portfolio.GetPosition(fill.symbol);
      SyncLevels(stops, h, fill, order);
      assert portfolio.State() == b && h == At(b, fill.symbol);
      Adopt();
    }

    method ApplyFill(fill: Fill)
      requires Valid()
      modifies Repr
      ensures Valid() && fresh(Repr - old(Repr))
      ensures State() == FillBooked(setup, old(State()), fill)
    {
      BookFill(fill);
      if fill.orderId in submitted {
        SyncStopState(fill, submitted[fill.orderId]);
      }
    }

    method ApplyFills(fills: seq<Fill>)
      requires Valid()
      modifies Repr
      ensures Valid() && fresh(Repr - old(Repr))
      ensures State() == FillsBooked(setup, old(State()), fills)
    {
      ghost var s := State();
      for i := 0 to |fills|
        invariant Valid() && fresh(Repr - old(Repr))
        invariant State() == FillsBooked(setup, s, fills[..i])
      {
        assert fills[..i + 1][..i] == fills[..i];
        ApplyFill(fills[i]);
      }
      assert fills[..|fills|] == fills;
    }

    method FillPending(bars: StopLoss.Bars, now: Time) returns (r: Exec.Outcome)
      requires Valid()
      modifies exec
      ensures Valid() && Repr == old(Repr)
      ensures var (e, outcome) := Exec.Processed(setup.costs, old(State()).exec, bars, now);
              r == outcome && State() == old(State()).(exec := e)
    {
      r := exec.ProcessPending(bars, now);
    }

    method OpenBar(b: BarIn)
      requires Valid()
      modifies Repr
      ensures Valid() && fresh(Repr - old(Repr))
      ensures State() == Executed(setup, old(State()), b)
    {
      var r := FillPending(b.bars, b.now);
      ApplyFills(r.fills);
    }

    // ---- Guards and stops --------------------------------------------------------------------

    method StartDay(date: int, prices: Prices)
      requires Valid()
      modifies guard
      ensures Valid() && Repr == old(Repr)
      ensures State() == old(State()).(day := DayUpdated(old(State()).day, date, EquityAt(old(State()).book, prices)))
    {
      ghost var s := State();
      var equity := portfolio.TotalEquity(prices);
      assert State() == s;
      guard.UpdateDailyEquity(date, equity);
    }

    method CheckStops(bars: StopLoss.Bars) returns (fired: seq<Symbol>, exits: seq<Signal>)
      requires Valid()
      modifies stops.Repr()
      ensures Valid() && Repr == old(Repr)
      ensures IsFired(fired, old(State()).stops, bars) && exits == StopSignals(fired, old(State()).stops)
      ensures State() == old(State()).(stops := LevelsAfter(old(State()).stops, bars))
    {
      ghost var b := portfolio.State();
      fired, exits := RaiseStops(stops, bars);
      assert portfolio.State() == b;
    }

    // ---- The batch ---------------------------------------------------------------------------

    method AskForPlan(b: BarIn, events: seq<Signal>) returns (orders: seq<Order>)
      requires Valid()
      modifies guard
      ensures Valid() && Repr == old(Repr)
      ensures var (day, planned) := PlanOf(setup, old(State()), b, events);
              orders == planned && State() == old(State()).(day := day)
    {
      ghost var s := State();
      var stopped := set x | x in b.fired;
      orders := BatchPlanner.Plan(setup.trade, portfolio, guard, Tape(b.bars, b.sigmas, b.atrs), stopped, events,
                                  true, nextId, b.now);
      assert State() == s.(day := guard.State());
    }

    method Enqueue(order: Order)
      requires Valid()
      modifies exec, this`submitted
      ensures Valid() && Repr == old(Repr)
      ensures State() == Sent(old(State()), [order])
    {
      SentOne(State(), order);
      submitted := submitted[order.id := order];
      exec.Submit(order);
    }

    method AskGate(order: Order, prices: Prices) returns (decision: Decision)
      requires Valid()
      modifies gate
      ensures Valid() && Repr == old(Repr) && (decision.Reduced? ==> decision.quantity > 0)
      ensures var s := old(State());
              var (g, d) := Checked(setup.trade.limits, setup.sectors, s.gate, s.book, order, prices);
              decision == d && State() == s.(gate := g)
    {
      ghost var s := State();
      decision := gate.Check(order, prices);
      ReducedIsPositive(setup.trade.limits, setup.sectors, s.gate, s.book, order, prices);
      assert State() == s.(gate := gate.State());
    }

    method RouteOrder(order: Order, prices: Prices)
      requires Valid()
      modifies gate, exec, this`submitted
      ensures Valid() && Repr == old(Repr)
      ensures State() == Forwarded(setup, old(State()), order, prices)
    {
      var decision := AskGate(order, prices);
      match decision {
        case Approved(_) => Enqueue(order);
        case Reduced(quantity) => Enqueue(order.(quantity := quantity));
        case Refused(_) => SentNothing(State());
      }
    }

    method RouteAll(orders: seq<Order>, prices: Prices)
      requires Valid()
      modifies gate, exec, this`submitted
      ensures Valid() && Repr == old(Repr)
      ensures State() == ForwardedAll(setup, old(State()), orders, prices)
    {
      ghost var s := State();
      for i := 0 to |orders|
        invariant Valid() && Repr == old(Repr)
        invariant State() == ForwardedAll(setup, s, orders[..i], prices)
      {
        assert orders[..i + 1][..i] == orders[..i];
        RouteOrder(orders[i], prices);
      }
      assert orders[..|orders|] == orders;
    }

    method TakeIds(n: nat)
      requires Valid()
      modifies this`nextId
      ensures Valid() && Repr == old(Repr)
      ensures State() == old(State()).(nextId := old(State()).nextId + n)
    {
      nextId := nextId + n;
    }

    method PlanBatch(b: BarIn, events: seq<Signal>) returns (orders: seq<Order>)
      requires Valid()
      modifies this`nextId, guard
      ensures Valid() && Repr == old(Repr)
      ensures orders == PlanOf(setup, old(State()), b, events).1 && State() == Planned(setup, old(State()), b, events)
    {
      orders := AskForPlan(b, events);
      TakeIds(|orders|);
    }

    method ProcessSignalBatch(b: BarIn, events: seq<Signal>)
      requires Valid()
      modifies this`nextId, this`submitted, guard, gate, exec
      ensures Valid() && Repr == old(Repr)
      ensures State() == Batched(setup, old(State()), b, events)
    {
      BatchIsForwarding(setup, State(), b, events);
      if index >= setup.warmup {
        var orders := PlanBatch(b, events);
        RouteAll(orders, Closes(b.bars));
      }
    }

    // ---- The bar loop ------------------------------------------------------------------------

    method CloseBar(b: BarIn)
      requires Valid()
      modifies this`index, gate
      ensures Valid() && Repr == old(Repr)
      ensures State() == Closed(old(State()), b)
    {
      ghost var s := State();
      var equity := portfolio.TotalEquity(Closes(b.bars));
      assert State() == s;
      gate.UpdateEquity(equity);
      index := index + 1;
    }

    /** Everything between the open and the batch; the result carries the stops that fired. */
    method Guard(input: BarIn) returns (b: BarIn, events: seq<Signal>)
      requires Valid()
      modifies guard, stops.Repr()
      ensures Valid() && Repr == old(Repr)
      ensures b == input.(fired := b.fired) && IsFired(b.fired, old(State()).stops, b.bars)
      ensures State() == Guarded(old(State()), b) && events == EventsOf(old(State()), b)
    {
      StartDay(input.date, Closes(input.bars));
      var fired, exits := CheckStops(input.bars);
      b, events := input.(fired := fired), exits + input.signals;
    }

    method RunBar(input: BarIn) returns (b: BarIn)
      requires Valid()
      modifies Repr
      ensures Valid() && fresh(Repr - old(Repr))
      ensures b == input.(fired := b.fired) && BarRan(setup, old(State()), b, State())
    {
      OpenBar(input);
      var events: seq<Signal>;
      b, events := Guard(input);
      ProcessSignalBatch(b, events);
      CloseBar(b);
    }

    /** One more bar of a run that started in `start`. */
    method NextBar(ghost start: Backtest, ghost bars: seq<BarIn>, input: BarIn) returns (b: BarIn)
      requires Valid() && AllRan(setup, start, bars, State())
      modifies Repr
      ensures Valid() && fresh(Repr - old(Repr))
      ensures b == input.(fired := b.fired) && AllRan(setup, start, bars + [b], State())
    {
      b := RunBar(input);
      RunGrows(setup, start, bars, b, State());
    }

    /** The loop over the data; the results are the inputs with the stops that fired. */
    method Run(inputs: seq<BarIn>) returns (bars: seq<BarIn>)
      requires Valid()
      modifies Repr
      ensures Valid() && fresh(Repr - old(Repr))
      ensures SameInput(inputs, |inputs|, bars) && AllRan(setup, old(State()), bars, State())
    {
      ghost var s := State();
      bars := [];
      for k := 0 to |inputs|
        invariant Valid() && fresh(Repr - old(Repr))
        invariant SameInput(inputs, k, bars) && AllRan(setup, s, bars, State())
      {
        var b := NextBar(s, bars, inputs[k]);
        SameGrows(inputs, k, bars, b);
        bars := bars + [b];
      }
    }
  }

  // ---- One order at a time ---------------------------------------------------------------------

  /** Orders that passed the gate are remembered by id and wait for the next open. */
  function Sent(s: Backtest, orders: seq<Order>): Backtest {
    s.(submitted := s.submitted + ById(orders), exec := s.exec.(pending := s.exec.pending + orders))
  }

  lemma SentNothing(s: Backtest)
    ensures Sent(s, []) == s
  {
    assert s.submitted + map[] == s.submitted && s.exec.pending + [] == s.exec.pending;
  }

  lemma SentOne(s: Backtest, order: Order)
    ensures Sent(s, [order]) == s.(submitted := s.submitted[order.id := order], exec := Exec.Queued(s.exec, order))
  {
    assert [order][..0] == [];
    assert ById([order]) == map[order.id := order];
    assert s.submitted + map[order.id := order] == s.submitted[order.id := order];
  }

  /** The batch is planned: the daily guard has been asked and the order ids are handed out. */
  ghost function Planned(setup: Setup, s: Backtest, b: BarIn, events: seq<Signal>): Backtest
    requires setup.Valid()
  {
    var (day, orders) := PlanOf(setup, s, b, events);
    s.(day := day, nextId := s.nextId + |orders|)
  }

  ghost function Forwarded(setup: Setup, s: Backtest, order: Order, prices: Prices): Backtest {
    var (gate, decision) := Checked(setup.trade.limits, setup.sectors, s.gate, s.book, order, prices);
    ReducedIsPositive(setup.trade.limits, setup.sectors, s.gate, s.book, order, prices);
    Sent(s.(gate := gate), Admitted(order, decision))
  }

  ghost function ForwardedAll(setup: Setup, s: Backtest, orders: seq<Order>, prices: Prices): Backtest {
    if orders == [] then s
    else Forwarded(setup, ForwardedAll(setup, s, orders[..|orders| - 1], prices), orders[|orders| - 1], prices)
  }

  lemma SentTwice(s: Backtest, orders: seq<Order>, more: seq<Order>)
    requires |more| <= 1
    ensures Sent(Sent(s, orders), more) == Sent(s, orders + more)
  {
    if more == [] {
      SentNothing(Sent(s, orders));
      assert orders + more == orders;
    } else {
      assert (orders + more)[..|orders|] == orders && more[..0] == [];
      assert s.exec.pending + orders + more == s.exec.pending + (orders + more);
      assert s.submitted + ById(orders) + ById(more) == s.submitted + ById(orders + more);
    }
  }

  /** Routing the orders one at a time ends where checking them all and queueing those that pass does. */
  lemma {:induction false} ForwardingIsBatching(setup: Setup, s: Backtest, orders: seq<Order>, prices: Prices)
    ensures ForwardedAll(setup, s, orders, prices)
            == var (gate, passed) := Routed(setup.trade, setup.sectors, s.gate, s.book, orders, prices);
               Sent(s.(gate := gate), passed)
  {
    if orders == [] {
      SentNothing(s);
      assert s.(gate := s.gate) == s;
    } else {
      var init, o := orders[..|orders| - 1], orders[|orders| - 1];
      ForwardingIsBatching(setup, s, init, prices);
      var (before, passed) := Routed(setup.trade, setup.sectors, s.gate, s.book, init, prices);
      var (after, decision) := Checked(setup.trade.limits, setup.sectors, before, s.book, o, prices);
      ReducedIsPositive(setup.trade.limits, setup.sectors, before, s.book, o, prices);
      SentTwice(s.(gate := after), passed, Admitted(o, decision));
    }
  }

  lemma BatchIsForwarding(setup: Setup, s: Backtest, b: BarIn, events: seq<Signal>)
    requires setup.Valid()
    ensures Batched(setup, s, b, events)
            == if s.index < setup.warmup then s
               else ForwardedAll(setup, Planned(setup, s, b, events), PlanOf(setup, s, b, events).1, Closes(b.bars))
  {
    if s.index >= setup.warmup {
      var planned, orders := Planned(setup, s, b, events), PlanOf(setup, s, b, events).1;
      ForwardingIsBatching(setup, planned, orders, Closes(b.bars));
      BatchIsSending(setup, s, b, events);
      assert planned.gate == s.gate && planned.book == s.book;
    }
  }

  lemma BatchIsSending(setup: Setup, s: Backtest, b: BarIn, events: seq<Signal>)
    requires setup.Valid() && s.index >= setup.warmup
    ensures var planned, orders := Planned(setup, s, b, events), PlanOf(setup, s, b, events).1;
            var (gate, passed) := Routed(setup.trade, setup.sectors, s.gate, s.book, orders, Closes(b.bars));
            Batched(setup, s, b, events) == Sent(planned.(gate := gate), passed)
  {
  }

  // ---- Bars ------------------------------------------------------------------------------------

  /** The bar leads from one state to the other, and its stops are those that fire. */
  ghost predicate BarRan(setup: Setup, s: Backtest, b: BarIn, r: Backtest)
    requires setup.Valid()
  {
    r == BarDone(setup, s, b) && IsFired(b.fired, Executed(setup, s, b).stops, b.bars)
  }

  /** The bars are the first `k` inputs but for the stops that fired. */
  predicate SameInput(inputs: seq<BarIn>, k: nat, bars: seq<BarIn>)
    requires k <= |inputs|
  {
    |bars| == k && forall i :: 0 <= i < k ==> bars[i] == inputs[i].(fired := bars[i].fired)
  }

  lemma SameGrows(inputs: seq<BarIn>, k: nat, bars: seq<BarIn>, b: BarIn)
    requires k < |inputs| && SameInput(inputs, k, bars) && b == inputs[k].(fired := b.fired)
    ensures SameInput(inputs, k + 1, bars + [b])
  {
  }

  ghost predicate AllFired(setup: Setup, s: Backtest, bars: seq<BarIn>)
    requires setup.Valid()
  {
    bars == [] ||
    var init, b := bars[..|bars| - 1], bars[|bars| - 1];
    AllFired(setup, s, init) && IsFired(b.fired, Executed(setup, BacktestModel.Run(setup, s, init), b).stops, b.bars)
  }

  ghost predicate AllRan(setup: Setup, s: Backtest, bars: seq<BarIn>, r: Backtest)
    requires setup.Valid()
  {
    r == BacktestModel.Run(setup, s, bars) && AllFired(setup, s, bars)
  }

  lemma RunGrows(setup: Setup, s: Backtest, bars: seq<BarIn>, b: BarIn, r: Backtest)
    requires setup.Valid() && AllFired(setup, s, bars) && BarRan(setup, BacktestModel.Run(setup, s, bars), b, r)
    ensures AllRan(setup, s, bars + [b], r)
  {
    assert (bars + [b])[..|bars|] == bars;
  }
}
