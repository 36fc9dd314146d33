/** The live engine of cpat/infrastructure/execution_engine_live.py as an object that updates the broker, the order
    book, the portfolio, the stop levels and the risk state in place. Each method does what the transition system
    of LiveModel says. */
module LiveEngine {
  import opened Models
  import opened Portfolio
  import opened StopExits
  import opened StopLoss
  import opened RiskEngine
  import opened SignalBatch
  import opened OrderManager
  import opened PaperBroker
  import opened LiveModel
  import opened LiveRuns
  import opened VenueLaws
  import BatchPlanner

  class LiveExecutionEngine {
    const setup: Setup
    const paper: PaperBroker?   // null stands for an outside broker
    const oms: OrderManager
    const portfolio: PortfolioManager
    const stops: StopLossTracker
    const gate: RiskGate
    const guard: PortfolioRiskManager
    var latest: Prices
    var reconciled: bool
    var nextId: OrderId
    var lastPoll: Option<Time>
    var queued: seq<Signal>
    ghost var Repr: set<object>

    ghost function Footprint(): set<object>
      reads this, portfolio, stops
    {
      Singles() + portfolio.Repr() + stops.Repr()
    }

    ghost function Singles(): set<object>
    {
      {this, oms, gate, guard} + Own(paper)
    }

    static ghost function Own(paper: PaperBroker?): set<object> {
      if paper == null then {} else {paper}
    }

    ghost predicate Wired() {
      && setup.trade.Valid() && gate.portfolio == portfolio && gate.limits == setup.trade.limits
      && guard.limits == setup.trade.day && portfolio.sectors == setup.sectors
         && stops.defaultTrailing == setup.trailing
      && (paper != null ==> paper.terms == setup.terms)
    }

    ghost predicate Valid()
      reads this, oms, portfolio, stops
    {
      && Footprint() <= Repr
      && Wired() && oms.Valid() && portfolio.Valid() && stops.Valid()
      && portfolio.Repr() !! stops.Repr() && Singles() !! portfolio.Repr() && Singles() !! stops.Repr()
    }

    ghost function State(): Live
      reads Footprint()
    {
      Live(if paper == null then None else Some(paper.State()), oms.State(), portfolio.State(), stops.State(),
           gate.State(), guard.State(), latest, reconciled, nextId, lastPoll, queued)
    }

    constructor (setup: Setup, paper: PaperBroker?, oms: OrderManager, portfolio: PortfolioManager,
                 stops: StopLossTracker, gate: RiskGate, guard: PortfolioRiskManager, nextId: OrderId,
                 reconcileOnStartup: bool, world: World)
      requires setup.trade.Valid() && gate.portfolio == portfolio && gate.limits == setup.trade.limits
      requires guard.limits == setup.trade.day && portfolio.sectors == setup.sectors
      requires stops.defaultTrailing == setup.trailing && (paper != null ==> paper.terms == setup.terms)
      requires oms.Valid() && portfolio.Valid() && stops.Valid() && portfolio.Repr() !! stops.Repr()
      requires {oms, gate, guard} + Own(paper) !! portfolio.Repr() + stops.Repr()
      ensures Valid() && Repr == {this, oms, gate, guard} + Own(paper) + old(portfolio.Repr() + stops.Repr())
      ensures var venue := if paper == null then None else Some(old(paper.State()));
              var s := Live(venue, old(oms.State()), old(portfolio.State()), old(stops.State()), old(gate.State()),
                            old(guard.State()), map[], true, nextId, None, []);
              State() == if reconcileOnStartup
                         then s.(reconciled := Reconciles(AccountOf(s, world), s.book, map[]))
                         else s
      ensures this.setup == setup && this.paper == paper && this.portfolio == portfolio
    {
      this.setup, this.paper, this.oms, this.portfolio, this.stops := setup, paper, oms, portfolio, stops;
      this.gate, this.guard, this.nextId := gate, guard, nextId;
      latest, reconciled, lastPoll, queued := map[], true, None, [];
      Repr := {this, oms, gate, guard} + Own(paper) + portfolio.Repr() + stops.Repr();
      new;
      if reconcileOnStartup {
        ReconcileBrokerState(map[], world);
      }
    }

    // ---- Fills -------------------------------------------------------------------------------

    method SyncStopState(fill: Fill, order: Order)
      requires Valid()
      modifies this`Repr, stops
      ensures Valid() && fresh(Repr - old(Repr))
      ensures State() == old(State()).(stops := StopsSynced(setup, old(State()).stops, old(State()).book, fill, order))
    {
      ghost var b := portfolio.State();
      var h := portfolio.GetPosition(fill.symbol);
      SyncLevels(stops, h, fill, order);
      assert portfolio.State() == b && h == At(b, fill.symbol);
      Adopt();
    }

    /** The objects a component has created belong to the engine. */
    ghost method Adopt()
      requires Wired() && oms.Valid() && portfolio.Valid() && stops.Valid() && Singles() <= Repr
      requires portfolio.Repr() !! stops.Repr() && Singles() !! portfolio.Repr() && Singles() !! stops.Repr()
      modifies this`Repr
      ensures Valid() && Repr == old(Repr) + portfolio.Repr() + stops.Repr() && State() == old(State())
    {
      Repr := Repr + portfolio.Repr() + stops.Repr();
    }

    method TakeFill(fill: Fill, order: Order)
      requires Valid()
      modifies Repr
      ensures Valid() && fresh(Repr - old(Repr))
      ensures State() == FillTaken(setup, old(State()), fill, order)
    {
      BookFill(fill);
      SyncStopState(fill, order);
    }

    method BookFill(fill: Fill)
      requires Valid()
      modifies Repr
      ensures Valid() && fresh(Repr - old(Repr))
      ensures State() == old(State()).(book := Applied(old(State()).book, fill))
    {
      ghost var levels := stops.State();
      portfolio.ApplyFill(fill);
      assert stops.State() == levels;
      Adopt();
    }

    method DrainFill(fill: Fill, now: Time)
      requires Valid()
      modifies Repr
      ensures Valid() && fresh(Repr - old(Repr))
      ensures State() == DrainOne(setup, old(State()), fill, now)
    {
      if fill.orderId in oms.orders {
        var m := oms.orders[fill.orderId];
        if !(m.filled >= fill.quantity && m.status.Filled?) {
          ghost var s := State();
          var _ := oms.ApplyFill(fill.orderId, Excess(fill.quantity, m.filled), fill.fillPrice, Some(fill), now);
          assert State() == s.(oms := FillApplied(s.oms, fill.orderId, Excess(fill.quantity, m.filled),
                                                  fill.fillPrice, Some(fill), now));
          TakeFill(fill, m.order);
        }
      }
    }

    method DrainPaperFills(now: Time)
      requires Valid() && paper != null
      modifies Repr
      ensures Valid() && fresh(Repr - old(Repr))
      ensures State() == Drained(setup, old(State()), old(paper.fillLog), now)
    {
      ghost var s := State();
      var log := paper.fillLog;
      for i := 0 to |log|
        invariant Valid() && fresh(Repr - old(Repr))
        invariant State() == Drained(setup, s, log[..i], now)
      {
        assert log[..i + 1][..i] == log[..i];
        DrainFill(log[i], now);
      }
      assert log[..|log|] == log;
    }

    // ---- Polling an outside broker -----------------------------------------------------------

    method TakeReport(report: Report, now: Time) returns (updated: Option<Managed>)
      requires Valid()
      modifies oms
      ensures Valid() && Repr == old(Repr)
      ensures State() == old(State()).(oms := ReportApplied(old(State()).oms, report, None, now))
      ensures var t := Target(old(State()).oms, report); updated == if t.Some? then Some(oms.orders[t.value]) else None
    {
      updated := oms.ApplyBrokerStatus(report, None, now);
    }

    method BookReport(report: Report, before: int, now: Time)
      requires Valid()
      modifies Repr
      ensures Valid() && fresh(Repr - old(Repr))
      ensures State() == ReportTaken(setup, old(State()), report, before, now)
    {
      var updated := TakeReport(report, now);
      if updated.Some? && report.filled > before {
        TakeFill(Increment(updated.value, report, before), updated.value.order);
      }
    }

    method PollOrder(id: OrderId, now: Time, world: World)
      requires Valid()
      modifies Repr
      ensures Valid() && fresh(Repr - old(Repr))
      ensures State() == PollOne(setup, old(State()), id, now, world)
    {
      if id in oms.orders && oms.orders[id].brokerId != "" && id in world.reports {
        BookReport(world.reports[id], oms.orders[id].filled, now);
      }
    }

    method PollOrderUpdates(now: Time, world: World, force: bool)
      requires Valid()
      modifies Repr
      ensures Valid() && fresh(Repr - old(Repr))
      ensures State() == Polled(setup, old(State()), now, world, force)
    {
      if paper != null {
        DrainPaperFills(now);
        return;
      }
      if !force && lastPoll.Some? && now - lastPoll.value < setup.pollInterval {
        return;
      }
      PollPending(now, world);
    }

    method PollPending(now: Time, world: World)
      requires Valid()
      modifies Repr
      ensures Valid() && fresh(Repr - old(Repr))
      ensures State() == PollAll(setup, old(State()).(lastPoll := Some(now)),
                                 Working(old(State()).oms, old(State()).oms.ids), now, world)
    {
      NotePoll(now);
      ghost var s := State();
      var pending := oms.PendingOrders();
      assert State() == s;
      PollEach(pending, now, world);
    }

    method NotePoll(now: Time)
      requires Valid()
      modifies this`lastPoll
      ensures Valid() && Repr == old(Repr)
      ensures State() == old(State()).(lastPoll := Some(now))
    {
      lastPoll := Some(now);
    }

    method PollEach(pending: seq<OrderId>, now: Time, world: World)
      requires Valid()
      modifies Repr
      ensures Valid() && fresh(Repr - old(Repr))
      ensures State() == PollAll(setup, old(State()), pending, now, world)
    {
      ghost var s := State();
      for i := 0 to |pending|
        invariant Valid() && fresh(Repr - old(Repr))
        invariant State() == PollAll(setup, s, pending[..i], now, world)
      {
        assert pending[..i + 1][..i] == pending[..i];
        PollOrder(pending[i], now, world);
      }
      assert pending[..|pending|] == pending;
    }

    // ---- Expiry ------------------------------------------------------------------------------

    /** The cancellation request of a stale order: its answer, or no answer. */
    method AskCancel(id: OrderId, world: World) returns (cancelled: Result<bool, string>)
      requires Valid() && id in oms.orders
      modifies if paper == null then {} else {paper}
      ensures Valid() && Repr == old(Repr)
      ensures var s, asks := old(State()), oms.orders[id].brokerId != "" && !setup.dryRun;
              && State() == (if asks && cancelled == Ok(true) then CancelAt(s, id) else s)
              && cancelled == (if !asks then Ok(false)
                               else if s.venue.None? then if id in world.cancels then Ok(world.cancels[id])
                                 else Err("no answer")
                               else if !s.venue.value.connected then Err("not connected")
                               else Ok(CanCancel(s.venue.value, oms.orders[id].brokerId)))
    {
      if oms.orders[id].brokerId == "" || setup.dryRun {
        return Ok(false);
      }
      if paper == null {
        return if id in world.cancels then Ok(world.cancels[id]) else Err("no answer");
      }
      cancelled := paper.CancelOrder(oms.orders[id].brokerId);
    }

    method FinishOrder(id: OrderId, status: OrderStatus, reason: string, now: Time)
      requires Valid() && (status.Cancelled? || status.Expired?)
      modifies oms
      ensures Valid() && Repr == old(Repr)
      ensures State() == old(State()).(oms := MarkedFinished(old(State()).oms, id, status, reason, now))
    {
      var _ := oms.MarkFinished(id, status, reason, now);
    }

    method ExpireOrder(id: OrderId, now: Time, world: World)
      requires Valid()
      modifies oms, if paper == null then {} else {paper}
      ensures Valid() && Repr == old(Repr)
      ensures State() == ExpireOne(setup, old(State()), id, now, world)
    {
      if id in oms.orders && !oms.orders[id].IsTerminal() {
        var cancelled := AskCancel(id, world);
        if cancelled.Ok? {
          if cancelled.value {
            FinishOrder(id, Cancelled, "cancelled", now);
          } else {
            FinishOrder(id, Expired, "expired", now);
          }
        }
      }
    }

    method ExpireStaleOrders(now: Time, world: World)
      requires Valid()
      modifies oms, if paper == null then {} else {paper}
      ensures Valid() && Repr == old(Repr)
      ensures State() == ExpireAll(setup, old(State()), Stale(old(State()).oms, old(State()).oms.ids, setup.ttl, now),
                                   now, world)
    {
      ghost var s := State();
      var stale := oms.StaleOpenOrders(setup.ttl, now);
      assert State() == s;
      for i := 0 to |stale|
        invariant Valid() && Repr == old(Repr)
        invariant State() == ExpireAll(setup, s, stale[..i], now, world)
      {
        assert stale[..i + 1][..i] == stale[..i];
        ExpireOrder(stale[i], now, world);
      }
      assert stale[..|stale|] == stale;
    }

    // ---- Submission --------------------------------------------------------------------------

    method PlaceOrder(order: Order, attempt: nat, now: Time, world: World) returns (r: Outcome)
      requires Valid()
      modifies if paper == null then {} else {paper}
      ensures Valid() && Repr == old(Repr)
      ensures (State(), r) == PlaceAt(setup, old(State()), order, attempt, now, world)
    {
      if paper == null {
        return world.place(order.id, attempt);
      }
      r := paper.PlaceOrder(order, world.token(order.id), now);
    }

    method MarkSubmitted(id: OrderId, brokerId: string, now: Time)
      requires Valid()
      modifies oms
      ensures Valid() && Repr == old(Repr)
      ensures State() == old(State()).(oms := MarkedSubmitted(old(State()).oms, id, brokerId, now))
    {
      var _ := oms.MarkSubmitted(id, brokerId, now);
    }

    method MarkRejected(id: OrderId, reason: string, now: Time)
      requires Valid()
      modifies oms
      ensures Valid() && Repr == old(Repr)
      ensures State() == old(State()).(oms := MarkedRejected(old(State()).oms, id, reason, now))
    {
      var _ := oms.MarkRejected(id, reason, now);
    }

    method CountRetry(id: OrderId, now: Time)
      requires Valid()
      modifies oms
      ensures Valid() && Repr == old(Repr)
      ensures State() == old(State()).(oms := Retried(old(State()).oms, id, now))
    {
      var _ := oms.IncrementRetry(id, now);
    }

    /** The body of the retry loop: `done` stands for its return statements. */
    method Attempt(order: Order, attempt: nat, now: Time, world: World) returns (done: bool)
      requires Valid() && attempt <= setup.maxRetries
      modifies oms, if paper == null then {} else {paper}
      ensures Valid() && Repr == old(Repr)
      ensures Attempts(setup, old(State()), order, attempt, now, world)
              == if done then State() else Attempts(setup, State(), order, attempt + 1, now, world)
    {
      if setup.dryRun {
        MarkSubmitted(order.id, "DRY-RUN-" + world.token(order.id), now);
        return true;
      }
      var outcome := PlaceOrder(order, attempt, now, world);
      match outcome {
        case Placed(brokerId) =>
          MarkSubmitted(order.id, brokerId, now);
          return true;
        case OrderError(reason) =>
          MarkRejected(order.id, reason, now);
          return true;
        case OtherError(reason) =>
          MarkRejected(order.id, reason, now);
          return true;
        case ConnectionError(reason) =>
          NoteFailure(order.id, attempt, "connection_error: " + reason, now);
          return false;
      }
    }

    /** A failed connection counts as a retry; after the last attempt the order is rejected. */
    method NoteFailure(id: OrderId, attempt: nat, reason: string, now: Time)
      requires Valid()
      modifies oms
      ensures Valid() && Repr == old(Repr)
      ensures var s, retried := old(State()), Retried(old(State()).oms, id, now);
              State() == s.(oms := if attempt == setup.maxRetries then MarkedRejected(retried, id, reason, now)
                            else retried)
    {
      CountRetry(id, now);
      if attempt == setup.maxRetries {
        MarkRejected(id, reason, now);
      }
    }

    method SubmitOrder(order: Order, now: Time, world: World)
      requires Valid()
      modifies oms, if paper == null then {} else {paper}
      ensures Valid() && Repr == old(Repr)
      ensures State() == Sent(setup, old(State()), order, now, world)
    {
      ghost var s := State();
      var created := oms.Create(order, now);
      if created.Err? {
        assert State() == s;
        return;
      }
      assert State() == s.(oms := Created(s.oms, order, now));
      TryPlacing(order, now, world);
    }

    method TryPlacing(order: Order, now: Time, world: World)
      requires Valid()
      modifies oms, if paper == null then {} else {paper}
      ensures Valid() && Repr == old(Repr)
      ensures State() == Attempts(setup, old(State()), order, 0, now, world)
    {
      ghost var goal := Attempts(setup, State(), order, 0, now, world);
      for attempt := 0 to setup.maxRetries + 1
        invariant Valid() && Repr == old(Repr)
        invariant Attempts(setup, State(), order, attempt, now, world) == goal
      {
        var done := Attempt(order, attempt, now, world);
        if done {
          return;
        }
      }
    }

    // ---- The batch ---------------------------------------------------------------------------

    method RouteOrder(order: Order, prices: Prices, now: Time, world: World)
      requires Valid()
      modifies gate, oms, if paper == null then {} else {paper}
      ensures Valid() && Repr == old(Repr)
      ensures State() == Forwarded(setup, old(State()), order, prices, now, world)
    {
      var decision := AskGate(order, prices);
      Submit(order, decision, now, world);
    }

    method AskGate(order: Order, prices: Prices) returns (decision: Decision)
      requires Valid()
      modifies gate
      ensures Valid() && Repr == old(Repr) && (decision.Reduced? ==> decision.quantity > 0)
      ensures var s := old(State());
              var (g, d) := Checked(setup.trade.limits, setup.sectors, s.gate, s.book, order, prices);
              State() == s.(gate := g) && decision == d
    {
      ReducedIsPositive(setup.trade.limits, setup.sectors, State().gate, State().book, order, prices);
      decision := gate.Check(order, prices);
    }

    method Submit(order: Order, decision: Decision, now: Time, world: World)
      requires Valid() && (decision.Reduced? ==> decision.quantity > 0)
      modifies oms, if paper == null then {} else {paper}
      ensures Valid() && Repr == old(Repr)
      ensures State() == SubmitAll(setup, old(State()), Admitted(order, decision), now, world)
    {
      ghost var s := State();
      match decision {
        case Approved(_) =>
          SubmitOrder(order, now, world);
          OneSubmission(setup, s, order, now, world);
        case Reduced(quantity) =>
          SubmitOrder(order.(quantity := quantity), now, world);
          OneSubmission(setup, s, order.(quantity := quantity), now, world);
        case Refused(_) =>
      }
    }

    method RouteAll(orders: seq<Order>, prices: Prices, now: Time, world: World)
      requires Valid()
      modifies gate, oms, if paper == null then {} else {paper}
      ensures Valid() && Repr == old(Repr)
      ensures State() == ForwardedAll(setup, old(State()), orders, prices, now, world)
    {
      ghost var s := State();
      for i := 0 to |orders|
        invariant Valid() && Repr == old(Repr)
        invariant State() == ForwardedAll(setup, s, orders[..i], prices, now, world)
      {
        ForwardedOneMore(setup, s, orders, i, prices, now, world);
        RouteOrder(orders[i], prices, now, world);
      }
      assert orders[..|orders|] == orders;
    }

    /** `_process_signal_batch`; a crash leaves the rest of the orders unrouted. */
    method ProcessSignalBatch(t: Tick, events: seq<Signal>)
      requires Valid()
      modifies this`nextId, guard, gate, oms, if paper == null then {} else {paper}
      ensures Valid() && Repr == old(Repr)
      ensures State() == Batched(setup, old(State()), t, events)
    {
      BatchIsForwarding(setup, State(), t, events);
      var orders := PlanBatch(t, events);
      RouteAll(UpTo(orders, t.crash), Closes(t.bars), t.now, t.world);
    }

    method PlanBatch(t: Tick, events: seq<Signal>) returns (orders: seq<Order>)
      requires Valid()
      modifies this`nextId, guard
      ensures Valid() && Repr == old(Repr)
      ensures orders == BatchPlan(setup, old(State()), t, events).1
      ensures State() == Planned(setup, old(State()), t, events)
    {
      orders := AskForPlan(t, events);
      TakeIds(|orders|);
    }

    method TakeIds(n: nat)
      requires Valid()
      modifies this`nextId
      ensures Valid() && Repr == old(Repr)
      ensures State() == old(State()).(nextId := old(State()).nextId + n)
    {
      nextId := nextId + n;
    }

    method AskForPlan(t: Tick, events: seq<Signal>) returns (orders: seq<Order>)
      requires Valid()
      modifies guard
      ensures Valid() && Repr == old(Repr)
      ensures var (day, planned) := BatchPlan(setup, old(State()), t, events);
              orders == planned && State() == old(State()).(day := day)
    {
      ghost var s := State();
      ghost var d := DeskAt(s, t, events);
      var stopped := set x | x in t.fired;
      orders := BatchPlanner.Plan(setup.trade, portfolio, guard, Tape(t.bars, t.sigmas, t.atrs), stopped, events,
                                  reconciled, nextId, t.now);
      assert State() == s.(day := guard.State());
    }

    // ---- Reconciliation ----------------------------------------------------------------------

    method AskAccount(world: World) returns (account: Option<Account>)
      requires Valid()
      ensures account == AccountOf(State(), world)
    {
      if paper == null {
        return world.account;
      }
      account := paper.AccountInfo();
    }

    /** The loop over local positions. */
    method CompareLocal(account: Account) returns (ok: bool)
      requires Valid()
      ensures ok <==> forall s :: s in OpenSymbols(portfolio.State()) ==> LocalAgrees(account, portfolio.State(), s)
    {
      ghost var b := portfolio.State();
      var open := portfolio.OpenPositions();
      assert open == OpenSymbols(b);
      ok := true;
      var left := open;
      while left != {}
        invariant left <= open && portfolio.State() == b
        invariant ok <==> forall s :: s in open && s !in left ==> LocalAgrees(account, b, s)
        decreases left
      {
        var s :| s in left;
        var h := portfolio.GetPosition(s);
        assert h == At(b, s);
        var agrees := s in account.positions && AbsR((account.positions[s] - h.quantity) as real) <= 0.000001;
        assert agrees == LocalAgrees(account, b, s);
        ok := ok && agrees;
        left := left - {s};
      }
    }

    /** The loop over broker positions that the portfolio does not know. */
    method CompareForeign(account: Account, open: set<Symbol>) returns (ok: bool)
      ensures ok <==> forall s :: s in account.positions && s !in open ==>
              AbsR(account.positions[s] as real) <= 0.000001
    {
      ok := true;
      var left := account.positions.Keys;
      while left != {}
        invariant left <= account.positions.Keys
        invariant ok <==> forall s :: s in account.positions && s !in left && s !in open ==>
                  AbsR(account.positions[s] as real) <= 0.000001
        decreases left
      {
        var s :| s in left;
        if s !in open && AbsR(account.positions[s] as real) > 0.000001 {
          ok := false;
        }
        left := left - {s};
      }
    }

    method ComparePositions(account: Account) returns (ok: bool)
      requires Valid()
      ensures ok <==> PositionsAgree(account, portfolio.State())
    {
      ghost var b := portfolio.State();
      var local := CompareLocal(account);
      assert portfolio.State() == b;
      var open := portfolio.OpenPositions();
      var foreign := CompareForeign(account, open);
      return local && foreign;
    }

    method CompareEquity(account: Account, prices: Prices) returns (ok: bool)
      requires Valid()
      ensures ok <==> EquityAgrees(account, portfolio.State(), prices)
    {
      if prices == map[] {
        return true;
      }
      var equity := portfolio.TotalEquity(prices);
      return AbsR(account.value - equity) <= MaxR(10.0, Fraction(AbsR(equity), 0.001));
    }

    method Compare(prices: Prices, world: World) returns (ok: bool)
      requires Valid()
      ensures ok <==> Reconciles(AccountOf(State(), world), State().book, prices)
    {
      ghost var b := portfolio.State();
      var account := AskAccount(world);
      if account.None? {
        return false;
      }
      var positions := ComparePositions(account.value);
      assert portfolio.State() == b;
      var equity := CompareEquity(account.value, prices);
      assert portfolio.State() == b;
      return AbsR(account.value.cash - portfolio.cash) <= 1.0 && positions && equity;
    }

    method ReconcileBrokerState(prices: Prices, world: World)
      requires Valid()
      modifies this`reconciled
      ensures Valid() && Repr == old(Repr)
      ensures var s := old(State());
              State() == s.(reconciled := Reconciles(AccountOf(s, world), s.book, if prices != map[] then prices
                                                     else s.latest))
    {
      ghost var s := State();
      var ok := Compare(if prices != map[] then prices else latest, world);
      assert State() == s;
      reconciled := ok;
    }

    // ---- A tick ------------------------------------------------------------------------------

    method EnsureConnected()
      requires Valid()
      modifies if paper == null then {} else {paper}
      ensures Valid() && Repr == old(Repr)
      ensures State() == Connected(old(State()))
    {
      if paper != null && !paper.connected {
        paper.Connect();
      }
    }

    method SyncPrices(prices: Prices)
      requires Valid()
      modifies this`latest, if paper == null then {} else {paper}
      ensures Valid() && Repr == old(Repr)
      ensures State() == Priced(old(State()), prices)
    {
      NotePrices(prices);
      QuotePaper(prices);
    }

    method NotePrices(prices: Prices)
      requires Valid()
      modifies this`latest
      ensures Valid() && Repr == old(Repr)
      ensures State() == old(State()).(latest := prices)
    {
      latest := prices;
    }

    method QuotePaper(prices: Prices)
      requires Valid()
      modifies if paper == null then {} else {paper}
      ensures Valid() && Repr == old(Repr)
      ensures State() == old(State()).(venue := if paper == null then None
                                       else Some(Quoted(old(State()).venue.value, prices)))
    {
      if paper != null {
        paper.UpdatePrices(prices);
      }
    }

    method RaisePeak(prices: Prices) returns (equity: real)
      requires Valid()
      modifies gate
      ensures Valid() && Repr == old(Repr)
      ensures equity == EquityAt(old(State()).book, prices)
      ensures State() == old(State()).(gate := Raised(old(State()).gate, equity))
    {
      ghost var s := State();
      equity := portfolio.TotalEquity(prices);
      assert State() == s;
      gate.UpdateEquity(equity);
    }

    method StartDay(date: int, equity: real)
      requires Valid()
      modifies guard
      ensures Valid() && Repr == old(Repr)
      ensures State() == old(State()).(day := DayUpdated(old(State()).day, date, equity))
    {
      guard.UpdateDailyEquity(date, equity);
    }

    /** The stop check with the exit signals it raises. */
    method CheckStops(bars: Bars) returns (fired: seq<Symbol>, exits: seq<Signal>)
      requires Valid()
      modifies stops.Repr()
      ensures Valid() && Repr == old(Repr)
      ensures IsFired(fired, old(State()).stops, bars) && exits == StopSignals(fired, old(State()).stops)
      ensures State() == old(State()).(stops := LevelsAfter(old(State()).stops, bars))
    {
      ghost var b := portfolio.State();
      fired, exits := RaiseStops(stops, bars);
      assert portfolio.State() == b;
    }

    /** A tick up to the stop check: quotes, poll, expiry. */
    method Refresh(now: Time, prices: Prices, world: World)
      requires Valid()
      modifies Repr
      ensures Valid() && fresh(Repr - old(Repr))
      ensures State() == Refreshed(setup, old(State()), now, prices, world)
    {
      SyncPrices(prices);
      PollOrderUpdates(now, world, true);
      ExpireStaleOrders(now, world);
    }

    method UpdateRisk(date: int, prices: Prices)
      requires Valid()
      modifies gate, guard
      ensures Valid() && Repr == old(Repr)
      ensures var s, equity := old(State()), EquityAt(old(State()).book, prices);
              State() == s.(gate := Raised(s.gate, equity), day := DayUpdated(s.day, date, equity))
    {
      var equity := RaisePeak(prices);
      StartDay(date, equity);
    }

    /** The risk state is brought up to date, stops are checked and, unless the strategy raises, the broker is
        compared. */
    method Assess(now: Time, date: int, bars: Bars, fails: bool, world: World)
      returns (fired: seq<Symbol>, exits: seq<Signal>)
      requires Valid() && bars != map[]
      modifies Repr
      ensures Valid() && fresh(Repr - old(Repr))
      ensures IsFired(fired, old(State()).stops, bars) && exits == StopSignals(fired, old(State()).stops)
      ensures forall t: Tick :: t.bars == bars && t.date == date && t.fails == fails && t.world == world ==>
                State() == Halfway(old(State()), t)
    {
      UpdateRisk(date, Closes(bars));
      fired, exits := CheckStops(bars);
      if !fails {
        SomeClose(bars);
        ReconcileBrokerState(Closes(bars), world);
      }
    }

    /** The last poll of a tick and the final equity. */
    method Finish(t: Tick)
      requires Valid()
      modifies Repr
      ensures Valid() && fresh(Repr - old(Repr))
      ensures State() == Finished(setup, old(State()), t)
    {
      PollOrderUpdates(t.now, t.world, false);
      var _ := RaisePeak(Closes(t.bars));
    }

    /** One scheduler tick; the result is the input together with the stops that fired. */
    method RunTick(input: Tick) returns (t: Tick)
      requires Valid()
      modifies Repr
      ensures Valid() && fresh(Repr - old(Repr))
      ensures t == input.(fired := t.fired) && TickRan(setup, old(State()), t, State())
    {
      ghost var s := State();
      EnsureConnected();
      ConnectedStays(s);
      t := RunConnected(input);
      ConnectingTwice(setup, s, t, State());
    }

    /** A tick once the broker is connected; without usable bars there is nothing to do. */
    method RunConnected(input: Tick) returns (t: Tick)
      requires Valid() && Connected(State()) == State()
      modifies Repr
      ensures Valid() && fresh(Repr - old(Repr))
      ensures t == input.(fired := t.fired) && TickRan(setup, old(State()), t, State())
    {
      if input.bars == map[] {
        return input;
      }
      ghost var s := State();
      ghost var mid, events;
      t, mid, events := RunOnBars(input);
      TickInTwoParts(setup, s, t, mid, events);
    }

    /** A tick that has bars; `mid` is the state in the middle of it. */
    method RunOnBars(input: Tick) returns (t: Tick, ghost mid: Live, ghost events: seq<Signal>)
      requires Valid() && input.bars != map[]
      modifies Repr
      ensures Valid() && fresh(Repr - old(Repr))
      ensures t == input.(fired := t.fired) && Prefix(setup, old(State()), t, mid, events)
      ensures State() == Traded(setup, mid, t, events)
    {
      var pending;
      t, pending := Prepare(input);
      mid, events := State(), pending;
      Trade(t, pending);
    }

    /** The batch and, if it completes, the end of the tick; neither when the strategy raised. */
    method Trade(t: Tick, events: seq<Signal>)
      requires Valid()
      modifies Repr
      ensures Valid() && fresh(Repr - old(Repr))
      ensures State() == Traded(setup, old(State()), t, events)
    {
      if !t.fails {
        ghost var s := State();
        ProcessSignalBatch(t, events);
        assert State() == Batched(setup, s, t, events);
        CloseTick(t);
      }
    }

    /** The end of a tick whose batch was not cut short. */
    method CloseTick(t: Tick)
      requires Valid()
      modifies Repr
      ensures Valid() && fresh(Repr - old(Repr))
      ensures State() == if t.crash.None? then Finished(setup, old(State()), t) else old(State())
    {
      if t.crash.None? {
        Finish(t);
      }
    }

    /** Everything before the batch, with the events of the queue. */
    method Prepare(input: Tick) returns (t: Tick, events: seq<Signal>)
      requires Valid() && input.bars != map[]
      modifies Repr
      ensures Valid() && fresh(Repr - old(Repr))
      ensures t == input.(fired := t.fired) && Prefix(setup, old(State()), t, State(), events)
    {
      Refresh(input.now, Closes(input.bars), input.world);
      t, events := Observe(input);
    }

    /** The risk state, the stops and the strategy, with the signals of the queue. */
    method Observe(input: Tick) returns (t: Tick, events: seq<Signal>)
      requires Valid() && input.bars != map[]
      modifies Repr
      ensures Valid() && fresh(Repr - old(Repr))
      ensures t == input.(fired := t.fired) && Observed(old(State()), t, State(), events)
    {
      ghost var s := State();
      var fired, exits := Assess(input.now, input.date, input.bars, input.fails, input.world);
      t := input.(fired := fired);
      assert State() == Halfway(s, t);
      assert queued + (exits + input.signals) == queued + exits + input.signals;
      events := Collect(exits + input.signals, input.fails);
    }

    /** Signals join the queue, and are all read unless the strategy raised. */
    method Collect(signals: seq<Signal>, fails: bool) returns (events: seq<Signal>)
      requires Valid()
      modifies this`queued
      ensures Valid() && Repr == old(Repr)
      ensures events == old(State()).queued + signals
      ensures State() == old(State()).(queued := if fails then events else [])
    {
      events := queued + signals;
      queued := if fails then events else [];
    }
  }

  lemma SomeClose(bars: Bars)
    requires bars != map[]
    ensures Closes(bars) != map[]
  {
    var x :| x in bars;
    assert x in Closes(bars);
  }

  /** Where the strategy has been called, and the broker compared unless the strategy raised. */
  ghost function Halfway(s: Live, t: Tick): Live {
    Assessed(s, t).(reconciled := if t.fails then s.reconciled else Assessed(s, t).reconciled, queued := s.queued)
  }

  /** What follows the expiry of stale orders, up to the batch. */
  ghost predicate Observed(s: Live, t: Tick, r: Live, events: seq<Signal>) {
    && r == Halfway(s, t).(queued := if t.fails then events else [])
    && IsFired(t.fired, s.stops, t.bars) && events == s.queued + StopSignals(t.fired, s.stops) + t.signals
  }

  /** What the first half of a tick leads to, from a connected state. */
  ghost predicate Prefix(setup: Setup, s: Live, t: Tick, r: Live, events: seq<Signal>) {
    Observed(Refreshed(setup, s, t.now, Closes(t.bars), t.world), t, r, events)
  }

  ghost function Traded(setup: Setup, r: Live, t: Tick, events: seq<Signal>): Live
    requires setup.trade.Valid()
  {
    if t.fails then r
    else if t.crash.None? then Finished(setup, Batched(setup, r, t, events), t)
    else Batched(setup, r, t, events)
  }

  lemma PrefixIsPrepared(setup: Setup, s: Live, t: Tick, r: Live, events: seq<Signal>)
    requires Prefix(setup, s, t, r, events) && Connected(s) == s
    ensures r == if t.fails then Failed(setup, s, t) else Prepared(setup, s, t)
    ensures events == EventsOf(setup, s, t) && IsFired(t.fired, StopsBefore(setup, s, t), t.bars)
  {
    var polled := Polled(setup, Priced(s, Closes(t.bars)), t.now, t.world, true);
    ExpireKeepsRest(setup, polled, Stale(polled.oms, polled.oms.ids, setup.ttl, t.now), t.now, t.world);
    PolledKeepsFlag(setup, Priced(s, Closes(t.bars)), t.now, t.world, true);
  }

  lemma {:induction false} DrainKeepsFlag(setup: Setup, s: Live, log: seq<Fill>, now: Time)
    ensures var t := Drained(setup, s, log, now); t.reconciled == s.reconciled && t.queued == s.queued
  {
    if log != [] {
      DrainKeepsFlag(setup, s, log[..|log| - 1], now);
    }
  }

  lemma PolledKeepsFlag(setup: Setup, s: Live, now: Time, world: World, force: bool)
    ensures var t := Polled(setup, s, now, world, force); t.reconciled == s.reconciled && t.queued == s.queued
  {
    match s.venue {
      case Some(p) => DrainKeepsFlag(setup, s, p.fillLog, now);
      case None => PollKeepsRest(setup, s.(lastPoll := Some(now)), Working(s.oms, s.oms.ids), now, world);
    }
  }

  /** The tick leads from one state to the other, and its stops are those that fire. */
  ghost predicate TickRan(setup: Setup, s: Live, t: Tick, r: Live)
    requires setup.trade.Valid()
  {
    r == Ticked(setup, s, t) && (t.bars != map[] ==> IsFired(t.fired, StopsBefore(setup, s, t), t.bars))
  }

  lemma ConnectedStays(s: Live)
    ensures Connected(Connected(s)) == Connected(s)
  {
  }

  lemma ConnectingTwice(setup: Setup, s: Live, t: Tick, r: Live)
    requires setup.trade.Valid() && TickRan(setup, Connected(s), t, r)
    ensures TickRan(setup, s, t, r)
  {
    assert Connected(Connected(s)) == Connected(s);
  }

  lemma TickInTwoParts(setup: Setup, s: Live, t: Tick, r: Live, events: seq<Signal>)
    requires setup.trade.Valid() && t.bars != map[] && Prefix(setup, s, t, r, events) && Connected(s) == s
    ensures TickRan(setup, s, t, Traded(setup, r, t, events))
  {
    PrefixIsPrepared(setup, s, t, r, events);
  }

  /** Quotes, the draining poll and the expiry of stale orders. */
  function Refreshed(setup: Setup, s: Live, now: Time, prices: Prices, world: World): Live {
    var polled := Polled(setup, Priced(s, prices), now, world, true);
    ExpireAll(setup, polled, Stale(polled.oms, polled.oms.ids, setup.ttl, now), now, world)
  }

  // ---- Routing one order at a time -------------------------------------------------------------

  /** One order through the gate and, if it passes, to the broker. */
  ghost function Forwarded(setup: Setup, s: Live, order: Order, prices: Prices, now: Time, world: World): Live {
    var (gate, decision) := Checked(setup.trade.limits, setup.sectors, s.gate, s.book, order, prices);
    ReducedIsPositive(setup.trade.limits, setup.sectors, s.gate, s.book, order, prices);
    SubmitAll(setup, s.(gate := gate), Admitted(order, decision), now, world)
  }

  /** The batch is planned: the daily guard has been asked and the order ids are handed out. */
  ghost function Planned(setup: Setup, s: Live, t: Tick, events: seq<Signal>): Live
    requires setup.trade.Valid()
  {
    var (day, orders) := BatchPlan(setup, s, t, events);
    s.(day := day, nextId := s.nextId + |orders|)
  }

  ghost function ForwardedAll(setup: Setup, s: Live, orders: seq<Order>, prices: Prices, now: Time,
                              world: World): Live {
    if orders == [] then s
    else Forwarded(setup, ForwardedAll(setup, s, orders[..|orders| - 1], prices, now, world), orders[|orders| - 1],
                   prices, now, world)
  }

  lemma ForwardedOneMore(setup: Setup, s: Live, orders: seq<Order>, i: nat, prices: Prices, now: Time, world: World)
    requires i < |orders|
    ensures ForwardedAll(setup, s, orders[..i + 1], prices, now, world)
            == Forwarded(setup, ForwardedAll(setup, s, orders[..i], prices, now, world), orders[i], prices, now, world)
  {
    assert orders[..i + 1][..i] == orders[..i];
  }

  lemma OneSubmission(setup: Setup, s: Live, order: Order, now: Time, world: World)
    ensures SubmitAll(setup, s, [order], now, world) == Sent(setup, s, order, now, world)
  {
    assert [order][..0] == [];
  }

  lemma PlacingIgnoresGate(setup: Setup, s: Live, g: Gate, order: Order, attempt: nat, now: Time, world: World)
    ensures var (t, outcome) := PlaceAt(setup, s, order, attempt, now, world);
            PlaceAt(setup, s.(gate := g), order, attempt, now, world) == (t.(gate := g), outcome)
  {
  }

  /** An attempt that ends the loop. */
  lemma AnswerIgnoresGate(setup: Setup, s: Live, g: Gate, order: Order, attempt: nat, now: Time, world: World)
    requires setup.dryRun || attempt >= setup.maxRetries
             || !OutcomeAt(setup, s, order, attempt, now, world).ConnectionError?
    ensures Attempts(setup, s.(gate := g), order, attempt, now, world)
            == Attempts(setup, s, order, attempt, now, world).(gate := g)
  {
    if attempt <= setup.maxRetries && !setup.dryRun {
      PlacingIgnoresGate(setup, s, g, order, attempt, now, world);
      match OutcomeAt(setup, s, order, attempt, now, world) {
        case Placed(brokerId) =>
        case OrderError(reason) =>
        case OtherError(reason) =>
        case ConnectionError(reason) =>
          AttemptIsOneOperation(setup, s, order, attempt, now, world);
          AttemptIsOneOperation(setup, s.(gate := g), order, attempt, now, world);
      }
    }
  }

  lemma {:induction false} AttemptsIgnoreGate(setup: Setup, s: Live, g: Gate, order: Order, attempt: nat, now: Time,
                                              world: World)
    ensures Attempts(setup, s.(gate := g), order, attempt, now, world)
            == Attempts(setup, s, order, attempt, now, world).(gate := g)
    decreases setup.maxRetries + 1 - attempt
  {
    if setup.dryRun || attempt >= setup.maxRetries
      || !OutcomeAt(setup, s, order, attempt, now, world).ConnectionError? {
      AnswerIgnoresGate(setup, s, g, order, attempt, now, world);
    } else {
      var u := Retry(setup, s, order, attempt, now, world);
      PlacingIgnoresGate(setup, s, g, order, attempt, now, world);
      AttemptIsOneOperation(setup, s, order, attempt, now, world);
      AttemptIsOneOperation(setup, s.(gate := g), order, attempt, now, world);
      assert Retry(setup, s.(gate := g), order, attempt, now, world) == u.(gate := g);
      AttemptsIgnoreGate(setup, u, g, order, attempt + 1, now, world);
    }
  }

  lemma {:induction false} SubmitIgnoresGate(setup: Setup, s: Live, g: Gate, orders: seq<Order>, now: Time,
                                             world: World)
    ensures SubmitAll(setup, s.(gate := g), orders, now, world) == SubmitAll(setup, s, orders, now, world).(gate := g)
    ensures SubmitAll(setup, s, orders, now, world).book == s.book
            && SubmitAll(setup, s, orders, now, world).gate == s.gate
  {
    if orders != [] {
      var before, o := SubmitAll(setup, s, orders[..|orders| - 1], now, world), orders[|orders| - 1];
      SubmitIgnoresGate(setup, s, g, orders[..|orders| - 1], now, world);
      var created := before.(oms := Created(before.oms, o, now));
      assert before.(gate := g).(oms := created.oms) == created.(gate := g);
      AttemptsIgnoreGate(setup, created, g, o, 0, now, world);
      AttemptsKeepBook(setup, created, o, 0, now, world);
    }
  }

  lemma {:induction false} AttemptsKeepBook(setup: Setup, s: Live, order: Order, attempt: nat, now: Time, world: World)
    ensures var t := Attempts(setup, s, order, attempt, now, world); t.book == s.book && t.gate == s.gate
    decreases setup.maxRetries + 1 - attempt
  {
    if attempt < setup.maxRetries && !setup.dryRun {
      var t := PlaceAt(setup, s, order, attempt, now, world).0;
      AttemptsKeepBook(setup, t.(oms := Retried(t.oms, order.id, now)), order, attempt + 1, now, world);
    }
  }

  lemma {:induction false} SubmitConcat(setup: Setup, s: Live, a: seq<Order>, b: seq<Order>, now: Time, world: World)
    ensures SubmitAll(setup, s, a + b, now, world)
            == SubmitAll(setup, SubmitAll(setup, s, a, now, world), b, now, world)
  {
    if b == [] {
      assert a + b == a;
    } else {
      assert (a + b)[..|a + b| - 1] == a + b[..|b| - 1];
      SubmitConcat(setup, s, a, b[..|b| - 1], now, world);
    }
  }

  /** The risk checks read nothing that a submission changes, so routing the orders one at a time ends where
      checking them all and then submitting those that pass does. */
  lemma {:induction false} ForwardingIsBatching(setup: Setup, s: Live, orders: seq<Order>, prices: Prices, now: Time,
                                                world: World)
    ensures ForwardedAll(setup, s, orders, prices, now, world)
            == var (gate, passed) := Routed(setup.trade, setup.sectors, s.gate, s.book, orders, prices);
               SubmitAll(setup, s.(gate := gate), passed, now, world)
  {
    if orders == [] {
      assert s.(gate := s.gate) == s;
    } else {
      var init, o := orders[..|orders| - 1], orders[|orders| - 1];
      ForwardingIsBatching(setup, s, init, prices, now, world);
      var (before, passed) := Routed(setup.trade, setup.sectors, s.gate, s.book, init, prices);
      var (after, decision) := Checked(setup.trade.limits, setup.sectors, before, s.book, o, prices);
      ReducedIsPositive(setup.trade.limits, setup.sectors, before, s.book, o, prices);
      var x := s.(gate := before);
      SubmitIgnoresGate(setup, x, after, passed, now, world);
      assert x.(gate := after) == s.(gate := after);
      SubmitConcat(setup, s.(gate := after), passed, Admitted(o, decision), now, world);
    }
  }

  lemma BatchIsForwarding(setup: Setup, s: Live, t: Tick, events: seq<Signal>)
    requires setup.trade.Valid()
    ensures Batched(setup, s, t, events)
            == ForwardedAll(setup, Planned(setup, s, t, events), UpTo(BatchPlan(setup, s, t, events).1, t.crash),
                            Closes(t.bars), t.now, t.world)
  {
    var planned, todo := Planned(setup, s, t, events), UpTo(BatchPlan(setup, s, t, events).1, t.crash);
    ForwardingIsBatching(setup, planned, todo, Closes(t.bars), t.now, t.world);
    BatchSubmitsPassing(setup, s, t, events);
    assert planned.gate == s.gate && planned.book == s.book;
    StagedIsPlanned(setup, s, t, events);
  }

  lemma StagedIsPlanned(setup: Setup, s: Live, t: Tick, events: seq<Signal>)
    requires setup.trade.Valid()
    ensures var todo := UpTo(BatchPlan(setup, s, t, events).1, t.crash);
            var (gate, passed) := Routed(setup.trade, setup.sectors, s.gate, s.book, todo, Closes(t.bars));
            Staged(setup, s, t, events) == Planned(setup, s, t, events).(gate := gate)
                && Passing(setup, s, t, events) == passed
  {
  }
}
