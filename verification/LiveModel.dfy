/** cpat/infrastructure/execution_engine_live.py as a transition system: one tick is a function of the state,
    the market input and whatever the outside world answers. */
module LiveModel {
  import opened Models
  import opened Portfolio
  import opened StopExits
  import opened StopLoss
  import opened RiskEngine
  import opened SignalBatch
  import opened OrderManager
  import opened PaperBroker

  datatype Setup = Setup(
    trade: SignalBatch.Config, sectors: map<Symbol, string>, terms: Terms, dryRun: bool, ttl: int, pollInterval: int,
    maxRetries: nat, trailing: bool)

  /** `venue` is the paper broker; without it the broker is an outside party. `queued` are the signals that a tick has
      put on the event queue and not read. */
  datatype Live = Live(
    venue: Option<Paper>, oms: Oms, book: Book, stops: Levels, gate: Gate, day: Day,
    latest: Prices, reconciled: bool, nextId: OrderId, lastPoll: Option<Time>, queued: seq<Signal>)

  /** The answers of the outside: broker ids, and for a broker that is not the paper broker its placements,
      status reports, cancellations and account. A missing entry is an exception. */
  datatype World = World(
    token: OrderId -> string, place: (OrderId, nat) -> Outcome, reports: map<OrderId, Report>,
    cancels: map<OrderId, bool>, account: Option<Account>)

  /** One scheduler tick. `fails` is an exception of the strategy, raised once it has emitted `signals`; `crash` is one
      inside the batch, after that many orders. An exception while connecting or fetching leaves a tick without bars. */
  datatype Tick = Tick(
    now: Time, date: int, bars: Bars, sigmas: map<Symbol, real>, atrs: map<Symbol, real>,
    signals: seq<Signal>, fired: seq<Symbol>, fails: bool, crash: Option<nat>, world: World)
  {
    predicate Completes() {
      bars != map[] && !fails && crash.None?
    }
  }

  // ---- Fills reach the portfolio -------------------------------------------------------------

  function StopsSynced(setup: Setup, stops: Levels, book: Book, f: Fill, order: Order): Levels {
    StopsFor(setup.trailing, stops, At(book, f.symbol), f, order)
  }

  function FillTaken(setup: Setup, s: Live, f: Fill, order: Order): Live {
    var book := Applied(s.book, f);
    s.(book := book, stops := StopsSynced(setup, s.stops, book, f, order))
  }

  function Excess(a: int, b: int): int {
    if a > b then a - b else 0
  }

  /** The OMS status is the only guard against taking a fill twice. */
  predicate AlreadyTaken(m: Managed, f: Fill) {
    m.filled >= f.quantity && m.status.Filled?
  }

  function DrainOne(setup: Setup, s: Live, f: Fill, now: Time): Live {
    if f.orderId !in s.oms.orders || AlreadyTaken(s.oms.orders[f.orderId], f) then s
    else
      var m := s.oms.orders[f.orderId];
      var oms := FillApplied(s.oms, f.orderId, Excess(f.quantity, m.filled), f.fillPrice, Some(f), now);
      FillTaken(setup, s.(oms := oms), f, m.order)
  }

  /** The scan of the whole fill log from its start. */
  function Drained(setup: Setup, s: Live, log: seq<Fill>, now: Time): Live {
    if log == [] then s
    else DrainOne(setup, Drained(setup, s, log[..|log| - 1], now), log[|log| - 1], now)
  }

  /** The portfolio fill for what a report adds to the quantity known before it. */
  function Increment(m: Managed, r: Report, before: int): Fill
    requires r.filled > before
  {
    Fill(0, m.order.id, m.order.symbol, m.order.side, r.filled - before, r.avgPrice, 0.0, 0.0, r.timestamp)
  }

  /** A report is applied to the order book, and the portfolio gets what it adds to the `before` of the poll. */
  function ReportTaken(setup: Setup, s: Live, r: Report, before: int, now: Time): Live {
    var t, target := s.(oms := ReportApplied(s.oms, r, None, now)), Target(s.oms, r);
    if target.Some? && target.value in t.oms.orders && r.filled > before then
      var m := t.oms.orders[target.value];
      FillTaken(setup, t, Increment(m, r, before), m.order)
    else t
  }

  function PollOne(setup: Setup, s: Live, id: OrderId, now: Time, world: World): Live {
    if id !in s.oms.orders || s.oms.orders[id].brokerId == "" || id !in world.reports then s
    else ReportTaken(setup, s, world.reports[id], s.oms.orders[id].filled, now)
  }

  function PollAll(setup: Setup, s: Live, ids: seq<OrderId>, now: Time, world: World): Live {
    if ids == [] then s
    else PollOne(setup, PollAll(setup, s, ids[..|ids| - 1], now, world), ids[|ids| - 1], now, world)
  }

  function Polled(setup: Setup, s: Live, now: Time, world: World, force: bool): Live {
    match s.venue
    case Some(p) => Drained(setup, s, p.fillLog, now)
    case None =>
      if !force && s.lastPoll.Some? && now - s.lastPoll.value < setup.pollInterval then s
      else PollAll(setup, s.(lastPoll := Some(now)), Working(s.oms, s.oms.ids), now, world)
  }

  // ---- Expiry --------------------------------------------------------------------------------

  function ExpireOne(setup: Setup, s: Live, id: OrderId, now: Time, world: World): Live {
    if id !in s.oms.orders || s.oms.orders[id].IsTerminal() then s
    else
      var asks := s.oms.orders[id].brokerId != "" && !setup.dryRun;
      if asks && s.venue.None? && id !in world.cancels then s
      else if asks && s.venue.Some? && !s.venue.value.connected then s
      else
        var cancelled := asks && (if s.venue.None? then world.cancels[id]
                                  else CanCancel(s.venue.value, s.oms.orders[id].brokerId));
        if cancelled then CancelAt(s, id).(oms := MarkedFinished(s.oms, id, Cancelled, "cancelled", now))
        else s.(oms := MarkedFinished(s.oms, id, Expired, "expired", now))
  }

  function CancelAt(s: Live, id: OrderId): Live
    requires id in s.oms.orders
  {
    match s.venue
    case None => s
    case Some(p) =>
      var b := s.oms.orders[id].brokerId;
      if b in p.orders then s.(venue := Some(p.(orders := p.orders[b := p.orders[b].(status := Cancelled)]))) else s
  }

  function ExpireAll(setup: Setup, s: Live, ids: seq<OrderId>, now: Time, world: World): Live {
    if ids == [] then s
    else ExpireOne(setup, ExpireAll(setup, s, ids[..|ids| - 1], now, world), ids[|ids| - 1], now, world)
  }

  // ---- Submission ----------------------------------------------------------------------------

  function PlaceAt(setup: Setup, s: Live, order: Order, attempt: nat, now: Time, world: World): (Live, Outcome) {
    match s.venue
    case None => (s, world.place(order.id, attempt))
    case Some(p) =>
      var (q, r) := Place(setup.terms, p, order, world.token(order.id), now);
      (s.(venue := Some(q)), r)
  }

  /** The retry loop from a given attempt on. */
  function Attempts(setup: Setup, s: Live, order: Order, attempt: nat, now: Time, world: World): Live
    decreases setup.maxRetries + 1 - attempt
  {
    if attempt > setup.maxRetries then s
    else if setup.dryRun then
      s.(oms := MarkedSubmitted(s.oms, order.id, "DRY-RUN-" + world.token(order.id), now))
    else
      var (t, outcome) := PlaceAt(setup, s, order, attempt, now, world);
      match outcome
      case Placed(brokerId) => t.(oms := MarkedSubmitted(t.oms, order.id, brokerId, now))
      case OrderError(reason) => t.(oms := MarkedRejected(t.oms, order.id, reason, now))
      case OtherError(reason) => t.(oms := MarkedRejected(t.oms, order.id, reason, now))
      case ConnectionError(reason) =>
        var u := t.(oms := Retried(t.oms, order.id, now));
        if attempt < setup.maxRetries then Attempts(setup, u, order, attempt + 1, now, world)
        else u.(oms := MarkedRejected(u.oms, order.id, "connection_error: " + reason, now))
  }

  /** An id that is already registered raises before anything is placed. */
  function Sent(setup: Setup, s: Live, order: Order, now: Time, world: World): Live {
    if order.id in s.oms.orders then s
    else Attempts(setup, s.(oms := Created(s.oms, order, now)), order, 0, now, world)
  }

  function SubmitAll(setup: Setup, s: Live, orders: seq<Order>, now: Time, world: World): Live {
    if orders == [] then s
    else Sent(setup, SubmitAll(setup, s, orders[..|orders| - 1], now, world), orders[|orders| - 1], now, world)
  }

  // ---- The batch -----------------------------------------------------------------------------

  function DeskAt(s: Live, t: Tick, events: seq<Signal>): Desk {
    Desk(s.book, Tape(t.bars, t.sigmas, t.atrs), (set x | x in t.fired), events, s.reconciled)
  }

  function UpTo(orders: seq<Order>, crash: Option<nat>): seq<Order> {
    if crash.Some? && crash.value < |orders| then orders[..crash.value] else orders
  }

  ghost function BatchPlan(setup: Setup, s: Live, t: Tick, events: seq<Signal>): (Day, seq<Order>)
    requires setup.trade.Valid()
  {
    Candidates(setup.trade, DeskAt(s, t, events), s.day, s.nextId, t.now)
  }

  ghost function Batched(setup: Setup, s: Live, t: Tick, events: seq<Signal>): Live
    requires setup.trade.Valid()
  {
    var (day, candidates) := BatchPlan(setup, s, t, events);
    var (gate, passed) := Routed(setup.trade, setup.sectors, s.gate, s.book, UpTo(candidates, t.crash), Closes(t.bars));
    SubmitAll(setup, s.(day := day, gate := gate, nextId := s.nextId + |candidates|), passed, t.now, t.world)
  }

  // ---- Reconciliation ------------------------------------------------------------------------

  ghost function AccountOf(s: Live, world: World): Option<Account> {
    match s.venue
    case None => world.account
    case Some(p) => if p.connected then Some(PaperAccount(p)) else None
  }

  predicate LocalAgrees(a: Account, b: Book, s: Symbol) {
    s in a.positions && AbsR((a.positions[s] - At(b, s).quantity) as real) <= 0.000001
  }

  ghost predicate PositionsAgree(a: Account, b: Book) {
    && (forall s :: s in OpenSymbols(b) ==> LocalAgrees(a, b, s))
    && (forall s :: s in a.positions && s !in OpenSymbols(b) ==> AbsR(a.positions[s] as real) <= 0.000001)
  }

  predicate CloseTo(a: real, b: real, tolerance: real) {
    AbsR(a - b) <= tolerance
  }

  ghost predicate EquityAgrees(a: Account, b: Book, prices: Prices) {
    prices != map[] ==> CloseTo(a.value, EquityAt(b, prices), MaxR(10.0, Fraction(AbsR(EquityAt(b, prices)), 0.001)))
  }

  ghost predicate Reconciles(account: Option<Account>, b: Book, prices: Prices) {
    account.Some? && CloseTo(account.value.cash, b.cash, 1.0)
    && PositionsAgree(account.value, b) && EquityAgrees(account.value, b, prices)
  }

  // ---- A tick --------------------------------------------------------------------------------

  function Connected(s: Live): Live {
    match s.venue
    case None => s
    case Some(p) => s.(venue := Some(p.(connected := true)))
  }

  function Priced(s: Live, prices: Prices): Live {
    s.(latest := prices, venue := match s.venue case None => None case Some(p) => Some(Quoted(p, prices)))
  }

  /** Everything before the batch: fills are drained first, then stale orders expire. */
  ghost function Prepared(setup: Setup, s: Live, t: Tick): Live {
    var prices := Closes(t.bars);
    var polled := Polled(setup, Priced(Connected(s), prices), t.now, t.world, true);
    var expired := ExpireAll(setup, polled, Stale(polled.oms, polled.oms.ids, setup.ttl, t.now), t.now, t.world);
    Assessed(expired, t)
  }

  ghost function Assessed(s: Live, t: Tick): Live {
    var prices := Closes(t.bars);
    var equity := EquityAt(s.book, prices);
    s.(gate := Raised(s.gate, equity), day := DayUpdated(s.day, t.date, equity), stops := LevelsAfter(s.stops, t.bars),
       reconciled := Reconciles(AccountOf(s, t.world), s.book, prices), queued := [])
  }

  ghost function Finished(setup: Setup, s: Live, t: Tick): Live {
    var polled := Polled(setup, s, t.now, t.world, false);
    polled.(gate := Raised(polled.gate, EquityAt(polled.book, Closes(t.bars))))
  }

  ghost function BatchDone(setup: Setup, s: Live, t: Tick): Live
    requires setup.trade.Valid()
  {
    Batched(setup, Prepared(setup, s, t), t, EventsOf(setup, s, t))
  }

  /** The signals of the queue: what an earlier tick left there, the stop exits, and what the strategy emits. */
  ghost function EventsOf(setup: Setup, s: Live, t: Tick): seq<Signal> {
    s.queued + StopSignals(t.fired, StopsBefore(setup, s, t)) + t.signals
  }

  /** The strategy is called before any signal is read: when it raises, they all stay on the queue. */
  ghost function Failed(setup: Setup, s: Live, t: Tick): Live {
    Prepared(setup, s, t).(reconciled := s.reconciled, queued := EventsOf(setup, s, t))
  }

  ghost function Ticked(setup: Setup, s: Live, t: Tick): Live
    requires setup.trade.Valid()
  {
    if t.bars == map[] then Connected(s)
    else if t.fails then Failed(setup, s, t)
    else if t.crash.Some? then BatchDone(setup, s, t)
    else Finished(setup, BatchDone(setup, s, t), t)
  }

  /** The levels the stop check looks at: the draining poll may just have registered some. */
  ghost function StopsBefore(setup: Setup, s: Live, t: Tick): Levels {
    Polled(setup, Priced(Connected(s), Closes(t.bars)), t.now, t.world, true).stops
  }

  ghost function Run(setup: Setup, s: Live, ticks: seq<Tick>): Live
    requires setup.trade.Valid()
  {
    if ticks == [] then s else Ticked(setup, Run(setup, s, ticks[..|ticks| - 1]), ticks[|ticks| - 1])
  }
}
