/** cpat/execution/engine.py: orders wait for the next bar and are filled at its open, less slippage
    (`fill_ratio` 1.0: always in full). */
module ExecutionEngine {
  import opened Models

  datatype Slippage = FixedBps(bps: real) | VolumeWeighted(baseBps: real, impact: real) | SpreadBased(fraction: real)

  datatype Costs = Costs(commission: CostConfig, slippage: Slippage)

  /** Slippage for one share. */
  function SlippageFor(m: Slippage, quantity: int, bar: Bar): real {
    match m
    case FixedBps(bps) => Fraction(bar.open, bps / 10000.0)
    case VolumeWeighted(base, impact) =>
      if bar.volume <= 0.0 then Fraction(bar.open, base / 10000.0)
      else Fraction(bar.open, (base + impact * (quantity as real / bar.volume) * 10000.0) / 10000.0)
    case SpreadBased(fraction) => 0.5 * Fraction(bar.high - bar.low, fraction)
  }

  /** Against the trader: buys fill above the open, sells below. */
  function PriceFor(m: Slippage, o: Order, bar: Bar): real {
    if o.side.Buy? then bar.open + SlippageFor(m, o.quantity, bar) else bar.open - SlippageFor(m, o.quantity, bar)
  }

  function FillOf(c: Costs, o: Order, bar: Bar, fillId: nat, now: Time): Fill {
    var price := PriceFor(c.slippage, o, bar);
    Fill(fillId, o.id, o.symbol, o.side, o.quantity, price, c.commission.Commission(o.quantity, price),
         Worth(SlippageFor(c.slippage, o.quantity, bar), o.quantity), now)
  }

  type Bars = map<Symbol, Bar>

  /** What a bar does to a waiting order. */
  datatype Fate = Deferred | Refused | Executed

  function FateOf(c: Costs, o: Order, bars: Bars): Fate {
    if o.symbol !in bars then Deferred
    else if PriceFor(c.slippage, o, bars[o.symbol]) <= 0.0 then Refused
    else Executed
  }

  datatype Outcome = Outcome(fills: seq<Fill>, rejected: seq<Order>, deferred: seq<Order>)

  /** One pass over the waiting orders; fills are numbered from `firstId`. */
  function Pass(c: Costs, waiting: seq<Order>, bars: Bars, now: Time, firstId: nat): Outcome {
    if waiting == [] then Outcome([], [], [])
    else
      var r, o := Pass(c, waiting[..|waiting| - 1], bars, now, firstId), waiting[|waiting| - 1];
      match FateOf(c, o, bars)
      case Deferred => r.(deferred := r.deferred + [o])
      case Refused => r.(rejected := r.rejected + [o])
      case Executed => r.(fills := r.fills + [FillOf(c, o, bars[o.symbol], firstId + |r.fills|, now)])
  }

  datatype Exec = Exec(pending: seq<Order>, fills: seq<Fill>)

  function Queued(e: Exec, o: Order): Exec {
    e.(pending := e.pending + [o])
  }

  function Processed(c: Costs, e: Exec, bars: Bars, now: Time): (Exec, Outcome) {
    var r := Pass(c, e.pending, bars, now, |e.fills|);
    (Exec(r.deferred, e.fills + r.fills), r)
  }

  class ExecutionEngine {
    const costs: Costs
    var pending: seq<Order>
    var allFills: seq<Fill>

    ghost function State(): Exec
      reads this
    {
      Exec(pending, allFills)
    }

    constructor (costs: Costs)
      ensures State() == Exec([], []) && this.costs == costs
    {
      this.costs, pending, allFills := costs, [], [];
    }

    method Submit(order: Order)
      modifies this
      ensures State() == Queued(old(State()), order)
    {
      pending := pending + [order];
    }

    method ExecuteOrder(order: Order, bar: Bar, now: Time) returns (fill: Option<Fill>)
      ensures fill == if PriceFor(costs.slippage, order, bar) <= 0.0 then None
                      else Some(FillOf(costs, order, bar, |allFills|, now))
    {
      var slip := SlippageFor(costs.slippage, order.quantity, bar);
      var price := if order.side.Buy? then bar.open + slip else bar.open - slip;
      if price <= 0.0 {
        return None;
      }
      return Some(Fill(|allFills|, order.id, order.symbol, order.side, order.quantity, price,
                       costs.commission.Commission(order.quantity, price), Worth(slip, order.quantity), now));
    }

    method ProcessPending(bars: Bars, now: Time) returns (r: Outcome)
      modifies this
      ensures (State(), r) == Processed(costs, old(State()), bars, now)
    {
      var fills: seq<Fill>, rejected: seq<Order>, deferred: seq<Order> := [], [], [];
      var waiting := pending;
      for i := 0 to |waiting|
        invariant pending == waiting == old(pending) && allFills == old(allFills) + fills
        invariant Outcome(fills, rejected, deferred) == Pass(costs, waiting[..i], bars, now, |old(allFills)|)
      {
        assert waiting[..i + 1][..i] == waiting[..i];
        var order := waiting[i];
        if order.symbol !in bars {
          deferred := deferred + [order];
        } else {
          var fill := ExecuteOrder(order, bars[order.symbol], now);
          if fill.Some? {
            fills := fills + [fill.value];
            allFills := allFills + [fill.value];
          } else {
            rejected := rejected + [order];
          }
        }
      }
      assert waiting[..|waiting|] == waiting;
      pending := deferred;
      r := Outcome(fills, rejected, deferred);
    }
  }

  // ---- One pass ------------------------------------------------------------------------------

  /** Every parameter that would turn slippage into a gain is excluded. */
  predicate Adverse(m: Slippage) {
    match m
    case FixedBps(bps) => bps >= 0.0
    case VolumeWeighted(base, impact) => base >= 0.0 && impact >= 0.0
    case SpreadBased(fraction) => fraction >= 0.0
  }

  lemma SlippageIsNonNegative(m: Slippage, quantity: int, bar: Bar)
    requires Adverse(m) && quantity >= 0
    ensures SlippageFor(m, quantity, bar) >= 0.0
  {
    match m
    case FixedBps(bps) =>
      FractionNonNegative(bar.open, bps / 10000.0);
    case VolumeWeighted(base, impact) =>
      if bar.volume > 0.0 {
        var ratio := quantity as real / bar.volume;
        assert ratio >= 0.0;
        FractionNonNegative(impact, ratio);
        assert (base + impact * ratio * 10000.0) / 10000.0 == base / 10000.0 + Fraction(impact, ratio);
        FractionNonNegative(bar.open, base / 10000.0 + Fraction(impact, ratio));
      } else {
        FractionNonNegative(bar.open, base / 10000.0);
      }
    case SpreadBased(fraction) =>
      FractionNonNegative(bar.high - bar.low, fraction);
  }

  /** With fixed slippage an order that has a bar is refused exactly when the slippage takes the whole price. */
  lemma FixedSlippageRefuses(c: Costs, o: Order, bars: Bars)
    requires c.slippage.FixedBps?
    ensures FateOf(c, o, bars).Refused? <==>
              o.symbol in bars && if o.side.Sell? then c.slippage.bps >= 10000.0 else c.slippage.bps <= -10000.0
  {
    if o.symbol in bars {
      var open, rate := bars[o.symbol].open, c.slippage.bps / 10000.0;
      assert open - Fraction(open, rate) == Fraction(open, 1.0 - rate);
      assert open + Fraction(open, rate) == Fraction(open, 1.0 + rate);
      FractionSign(open, 1.0 - rate);
      FractionSign(open, 1.0 + rate);
    }
  }

  lemma FractionSign(a: real, b: real)
    requires a > 0.0
    ensures Fraction(a, b) > 0.0 <==> b > 0.0
  {
  }

  lemma FractionNonNegative(a: real, b: real)
    requires a >= 0.0 && b >= 0.0
    ensures Fraction(a, b) >= 0.0
  {
  }

  /** What a share loses to the market: so many basis points of the open, these and the impact of the order's share in
      the volume of the bar, or half a fraction of the bar's range. */
  function Impact(m: Slippage, quantity: int, bar: Bar): real {
    match m
    case FixedBps(bps) => bar.open * bps / 10000.0
    case VolumeWeighted(base, impact) =>
      var share := if bar.volume > 0.0 then quantity as real / bar.volume else 0.0;
      bar.open * base / 10000.0 + bar.open * impact * share
    case SpreadBased(fraction) => (bar.high - bar.low) * fraction / 2.0
  }

  lemma ImpactIsSlippage(m: Slippage, quantity: int, bar: Bar)
    ensures Impact(m, quantity, bar) == SlippageFor(m, quantity, bar)
  {
    match m
    case VolumeWeighted(base, impact) =>
      if bar.volume > 0.0 {
        var share := quantity as real / bar.volume;
        assert (base + impact * share * 10000.0) / 10000.0 == base / 10000.0 + impact * share;
        assert bar.open * (impact * share) == bar.open * impact * share;
      }
    case _ =>
  }

  /** The larger of the minimum and the rate, by the share or by the value; or nothing. */
  predicate Charged(c: CostConfig, quantity: int, price: real, fee: real) {
    if c.model.NoCommission? then fee == 0.0
    else
      var rate := if c.model.PerShare? then Worth(c.value, quantity) else Fraction(Worth(price, quantity), c.value);
      fee >= c.minimum && fee >= rate && (fee == c.minimum || fee == rate)
  }

  lemma CommissionIsCharged(c: CostConfig, quantity: int, price: real)
    ensures Charged(c, quantity, price, c.Commission(quantity, price))
  {
    assert c.value * quantity as real * price == price * quantity as real * c.value;
  }

  /** A fill is what its order asked for, on one bar, at that bar's open made worse by the slippage, and charged the
      commission of its model. */
  predicate Honours(c: Costs, f: Fill, o: Order, bars: Bars, now: Time) {
    && Fulfils(f, o) && f.timestamp == now
    && o.symbol in bars && f.fillPrice > 0.0
    && var open, lost := bars[o.symbol].open, Impact(c.slippage, o.quantity, bars[o.symbol]);
       && lost >= 0.0 && f.fillPrice == (if o.side.Buy? then open + lost else open - lost)
       && f.slippage == Worth(lost, o.quantity) && Charged(c.commission, o.quantity, f.fillPrice, f.commission)
  }

  function IdsOf(orders: seq<Order>): set<OrderId> {
    set o | o in orders :: o.id
  }

  function FilledIds(fills: seq<Fill>): set<OrderId> {
    set f | f in fills :: f.orderId
  }

  ghost predicate UniqueIds(orders: seq<Order>) {
    forall i, j :: 0 <= i < j < |orders| ==> orders[i].id != orders[j].id
  }

  /** The orders that are not `gone`, in their own order. */
  function Left(orders: seq<Order>, gone: set<OrderId>): seq<Order> {
    if orders == [] then []
    else
      var before, o := Left(orders[..|orders| - 1], gone), orders[|orders| - 1];
      if o.id in gone then before else before + [o]
  }

  lemma {:induction false} LeftMembers(orders: seq<Order>, gone: set<OrderId>)
    requires UniqueIds(orders)
    ensures UniqueIds(Left(orders, gone))
    ensures forall o :: o in Left(orders, gone) <==> o in orders && o.id !in gone
  {
    if orders != [] {
      var init, o := orders[..|orders| - 1], orders[|orders| - 1];
      assert orders == init + [o];
      LeftMembers(init, gone);
      forall x | x in init ensures x.id != o.id {
        var i :| 0 <= i < |init| && init[i] == x;
        assert orders[i].id != orders[|init|].id;
      }
    }
  }

  lemma {:induction false} LeftIgnores(orders: seq<Order>, gone: set<OrderId>, more: set<OrderId>)
    requires IdsOf(orders) !! more
    ensures Left(orders, gone + more) == Left(orders, gone)
  {
    if orders != [] {
      var init, o := orders[..|orders| - 1], orders[|orders| - 1];
      assert orders == init + [o];
      assert o in orders && forall x :: x in init ==> x in orders;
      LeftIgnores(init, gone, more);
    }
  }

  lemma {:induction false} LeftTwice(orders: seq<Order>, gone: set<OrderId>, more: set<OrderId>)
    ensures Left(Left(orders, gone), more) == Left(orders, gone + more)
  {
    if orders != [] {
      LeftTwice(orders[..|orders| - 1], gone, more);
    }
  }

  /** `waiting` splits into the filled, the rejected and the deferred; the deferred keep their order. */
  ghost predicate Splits(waiting: seq<Order>, r: Outcome) {
    && OneFillEach(r.fills) && UniqueIds(r.rejected)
    && FilledIds(r.fills) <= IdsOf(waiting) && (forall o :: o in r.rejected ==> o in waiting)
    && FilledIds(r.fills) !! IdsOf(r.rejected)
    && r.deferred == Left(waiting, FilledIds(r.fills) + IdsOf(r.rejected))
  }

  lemma {:induction false} PassSplits(c: Costs, waiting: seq<Order>, bars: Bars, now: Time, firstId: nat)
    requires UniqueIds(waiting)
    ensures Splits(waiting, Pass(c, waiting, bars, now, firstId))
  {
    if waiting != [] {
      var init, o := waiting[..|waiting| - 1], waiting[|waiting| - 1];
      assert waiting == init + [o];
      PassSplits(c, init, bars, now, firstId);
      var r := Pass(c, init, bars, now, firstId);
      var gone := FilledIds(r.fills) + IdsOf(r.rejected);
      NewId(init, o);
      match FateOf(c, o, bars) {
        case Deferred =>
        case Refused =>
          LeftIgnores(init, gone, {o.id});
          assert IdsOf(r.rejected + [o]) == IdsOf(r.rejected) + {o.id};
          assert gone + {o.id} == FilledIds(r.fills) + IdsOf(r.rejected + [o]);
        case Executed =>
          var f := FillOf(c, o, bars[o.symbol], firstId + |r.fills|, now);
          LeftIgnores(init, gone, {o.id});
          assert FilledIds(r.fills + [f]) == FilledIds(r.fills) + {o.id};
          assert gone + {o.id} == FilledIds(r.fills + [f]) + IdsOf(r.rejected);
      }
    }
  }

  lemma NewId(init: seq<Order>, o: Order)
    requires UniqueIds(init + [o])
    ensures o.id !in IdsOf(init) && IdsOf(init + [o]) == IdsOf(init) + {o.id}
  {
    forall x | x in init ensures x.id != o.id && x in init + [o] {
      var i :| 0 <= i < |init| && init[i] == x;
      assert (init + [o])[i].id != (init + [o])[|init|].id;
    }
    assert o in init + [o];
  }

  /** Every fill of a pass honours one waiting order. */
  lemma {:induction false} PassHonours(c: Costs, waiting: seq<Order>, bars: Bars, now: Time, firstId: nat, f: Fill)
    returns (o: Order)
    requires Adverse(c.slippage) && f in Pass(c, waiting, bars, now, firstId).fills
    ensures o in waiting && Honours(c, f, o, bars, now)
  {
    var init, last := waiting[..|waiting| - 1], waiting[|waiting| - 1];
    var r := Pass(c, init, bars, now, firstId);
    if f in r.fills {
      o := PassHonours(c, init, bars, now, firstId, f);
    } else {
      o := last;
      SlippageIsNonNegative(c.slippage, o.quantity, bars[o.symbol]);
      ImpactIsSlippage(c.slippage, o.quantity, bars[o.symbol]);
      CommissionIsCharged(c.commission, o.quantity, f.fillPrice);
    }
  }

  // ---- Any interleaving of submissions and bars ----------------------------------------------

  datatype Event = Submission(order: Order) | BarAt(bars: Bars, now: Time)

  datatype History = History(submitted: seq<Order>, exec: Exec, rejected: seq<Order>)

  function After(c: Costs, events: seq<Event>): History {
    if events == [] then History([], Exec([], []), [])
    else
      var h := After(c, events[..|events| - 1]);
      match events[|events| - 1]
      case Submission(o) => h.(submitted := h.submitted + [o], exec := Queued(h.exec, o))
      case BarAt(bars, now) =>
        var (e, r) := Processed(c, h.exec, bars, now);
        h.(exec := e, rejected := h.rejected + r.rejected)
  }

  ghost predicate Settled(h: History) {
    && UniqueIds(h.submitted)
    && FilledIds(h.exec.fills) <= IdsOf(h.submitted) && (forall o :: o in h.rejected ==> o in h.submitted)
    && OneFillEach(h.exec.fills) && UniqueIds(h.rejected)
    && FilledIds(h.exec.fills) !! IdsOf(h.rejected)
    && h.exec.pending == Left(h.submitted, FilledIds(h.exec.fills) + IdsOf(h.rejected))
  }

  /** Every submitted order is in exactly one of pending, filled and rejected, is executed at most once, and
      the pending orders are those left of the submitted ones, in the order of submission. */
  lemma {:induction false} EveryOrderInOnePlace(c: Costs, events: seq<Event>)
    requires UniqueIds(After(c, events).submitted)
    ensures Settled(After(c, events))
  {
    if events != [] {
      var h := After(c, events[..|events| - 1]);
      match events[|events| - 1] {
        case Submission(o) =>
          UniquePrefix(h.submitted, o);
          EveryOrderInOnePlace(c, events[..|events| - 1]);
          SubmissionSettles(h, o);
        case BarAt(bars, now) =>
          EveryOrderInOnePlace(c, events[..|events| - 1]);
          LeftMembers(h.submitted, FilledIds(h.exec.fills) + IdsOf(h.rejected));
          PassSplits(c, h.exec.pending, bars, now, |h.exec.fills|);
          PassSettles(h, Pass(c, h.exec.pending, bars, now, |h.exec.fills|));
      }
    }
  }

  lemma UniquePrefix(orders: seq<Order>, o: Order)
    requires UniqueIds(orders + [o])
    ensures UniqueIds(orders)
  {
    forall i, j | 0 <= i < j < |orders| ensures orders[i].id != orders[j].id {
      assert (orders + [o])[i].id != (orders + [o])[j].id;
    }
  }

  lemma SubmissionSettles(h: History, o: Order)
    requires Settled(h) && UniqueIds(h.submitted + [o])
    ensures Settled(h.(submitted := h.submitted + [o], exec := Queued(h.exec, o)))
  {
    NewId(h.submitted, o);
    assert (h.submitted + [o])[..|h.submitted|] == h.submitted;
  }

  lemma OneFillConcat(a: seq<Fill>, b: seq<Fill>)
    requires OneFillEach(a) && OneFillEach(b) && FilledIds(a) !! FilledIds(b)
    ensures OneFillEach(a + b) && FilledIds(a + b) == FilledIds(a) + FilledIds(b)
  {
    forall i, j | 0 <= i < j < |a + b| ensures (a + b)[i].orderId != (a + b)[j].orderId {
      if i < |a| <= j {
        assert a[i].orderId in FilledIds(a) && b[j - |a|].orderId in FilledIds(b);
      }
    }
  }

  lemma UniqueConcat(a: seq<Order>, b: seq<Order>)
    requires UniqueIds(a) && UniqueIds(b) && IdsOf(a) !! IdsOf(b)
    ensures UniqueIds(a + b) && IdsOf(a + b) == IdsOf(a) + IdsOf(b)
  {
    forall i, j | 0 <= i < j < |a + b| ensures (a + b)[i].id != (a + b)[j].id {
      if i < |a| <= j {
        assert a[i].id in IdsOf(a) && b[j - |a|].id in IdsOf(b);
      }
    }
  }

  lemma PassSettles(h: History, r: Outcome)
    requires Settled(h) && Splits(h.exec.pending, r)
    requires forall o :: o in h.exec.pending <==>
             o in h.submitted && o.id !in FilledIds(h.exec.fills) + IdsOf(h.rejected)
    ensures Settled(h.(exec := Exec(r.deferred, h.exec.fills + r.fills), rejected := h.rejected + r.rejected))
  {
    var gone, more := FilledIds(h.exec.fills) + IdsOf(h.rejected), FilledIds(r.fills) + IdsOf(r.rejected);
    var fills, rejected := h.exec.fills + r.fills, h.rejected + r.rejected;
    assert IdsOf(h.exec.pending) !! gone && IdsOf(h.exec.pending) <= IdsOf(h.submitted);
    assert IdsOf(r.rejected) <= IdsOf(h.exec.pending);
    OneFillConcat(h.exec.fills, r.fills);
    UniqueConcat(h.rejected, r.rejected);
    LeftTwice(h.submitted, gone, more);
    assert gone + more == FilledIds(fills) + IdsOf(rejected);
  }

  // ---- Fills come later, and no better than the open -----------------------------------------

  function LastBar(events: seq<Event>): Option<Time> {
    if events == [] then None
    else if events[|events| - 1].BarAt? then Some(events[|events| - 1].now)
    else LastBar(events[..|events| - 1])
  }

  /** Bars come in time order, and an order carries the time of the bar it was decided on. */
  predicate Timed(events: seq<Event>) {
    events == [] ||
    var before, last := events[..|events| - 1], LastBar(events[..|events| - 1]);
    && Timed(before)
    && match events[|events| - 1]
       case Submission(o) => last == Some(o.timestamp)
       case BarAt(_, now) => last.None? || last.value < now
  }

  /** Some bar of the history filled the order, after the bar it was decided on. */
  ghost predicate FilledLater(c: Costs, events: seq<Event>, o: Order, f: Fill) {
    f.timestamp > o.timestamp
    && exists i :: 0 <= i < |events| && events[i].BarAt? && Honours(c, f, o, events[i].bars, events[i].now)
  }

  lemma {:induction false} PendingAreCurrent(c: Costs, events: seq<Event>, o: Order)
    requires Timed(events) && o in After(c, events).exec.pending
    ensures LastBar(events).Some? && o.timestamp <= LastBar(events).value && o in After(c, events).submitted
  {
    var init, e := events[..|events| - 1], events[|events| - 1];
    var h := After(c, init);
    if e.BarAt? {
      DeferredWereWaiting(c, h.exec.pending, e.bars, e.now, |h.exec.fills|, o);
      PendingAreCurrent(c, init, o);
    } else if o in h.exec.pending {
      PendingAreCurrent(c, init, o);
    }
  }

  lemma {:induction false} DeferredWereWaiting(c: Costs, waiting: seq<Order>, bars: Bars, now: Time, firstId: nat,
                                               o: Order)
    requires o in Pass(c, waiting, bars, now, firstId).deferred
    ensures o in waiting
  {
    if o in Pass(c, waiting[..|waiting| - 1], bars, now, firstId).deferred {
      DeferredWereWaiting(c, waiting[..|waiting| - 1], bars, now, firstId, o);
    }
  }

  /** Every fill is of a submitted order, in full, strictly later than the bar it was decided on, at the open of the bar
      that filled it made worse by the slippage, and charged its commission. */
  lemma {:induction false} FillsComeLater(c: Costs, events: seq<Event>, f: Fill) returns (o: Order)
    requires Adverse(c.slippage) && Timed(events) && f in After(c, events).exec.fills
    ensures o in After(c, events).submitted && FilledLater(c, events, o, f)
  {
    var init, e := events[..|events| - 1], events[|events| - 1];
    var h := After(c, init);
    if f in h.exec.fills {
      o := FillsComeLater(c, init, f);
      var i :| 0 <= i < |init| && init[i].BarAt? && Honours(c, f, o, init[i].bars, init[i].now);
      assert events[i] == init[i];
    } else {
      o := PassHonours(c, h.exec.pending, e.bars, e.now, |h.exec.fills|, f);
      PendingAreCurrent(c, init, o);
      assert Honours(c, f, o, events[|init|].bars, events[|init|].now);
    }
  }

  /** With a bar for every waiting symbol nothing is deferred. */
  lemma {:induction false} NothingDeferred(c: Costs, waiting: seq<Order>, bars: Bars, now: Time, firstId: nat)
    requires forall o :: o in waiting ==> o.symbol in bars
    ensures Pass(c, waiting, bars, now, firstId).deferred == []
  {
    if waiting != [] {
      var init, o := waiting[..|waiting| - 1], waiting[|waiting| - 1];
      assert waiting == init + [o];
      NothingDeferred(c, init, bars, now, firstId);
    }
  }
}
