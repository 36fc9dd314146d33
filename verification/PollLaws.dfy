/** Polling a broker other than the paper broker: over every run the broker-id index leads each report to the order it
    was asked for, and the shares booked from polls add up to what each order is filled. */
module PollLaws {
  import opened Models
  import opened Totals
  import opened Portfolio
  import opened SignalBatch
  import opened BatchBounds
  import opened OrderManager
  import opened OrderLaws
  import opened LiveModel
  import opened LiveRuns
  import opened VenueLaws

  // ---- Broker ids ----------------------------------------------------------------------------

  /** The order that a broker id was handed out for: no two orders share one. */
  type Owners = string -> OrderId

  predicate Owns(owner: Owners, id: OrderId, brokerId: string) {
    brokerId == "" || owner(brokerId) == id
  }

  /** The broker id that an order is given if its placement is accepted. */
  function AcceptedAs(setup: Setup, outside: bool, world: World, id: OrderId, attempt: nat): string {
    if setup.dryRun then "DRY-RUN-" + world.token(id)
    else if !outside then world.token(id)
    else
      match world.place(id, attempt)
      case Placed(brokerId) => brokerId
      case _ => ""
  }

  /** Every broker id handed out is its order's own. */
  ghost predicate HandedOut(setup: Setup, outside: bool, world: World, owner: Owners) {
    forall id, attempt :: Owns(owner, id, AcceptedAs(setup, outside, world, id, attempt))
  }

  /** Every report is about the order it was asked for: it names that order, or it names none of the `known` orders
      and carries a broker id of that order, as a report does whose broker never learnt the internal id. */
  ghost predicate Addressed(world: World, owner: Owners, known: set<OrderId>) {
    forall id :: id in world.reports ==>
      var r := world.reports[id];
      r.orderId == id || (r.orderId !in known && Owns(owner, id, r.brokerId))
  }

  predicate Listed(oms: Oms, id: OrderId)
    requires id in oms.orders
  {
    var b := oms.orders[id].brokerId;
    b != "" ==> b in oms.index && oms.index[b] == id
  }

  /** The index leads from the broker id of every order to that order, and no id to an order it is not of. */
  ghost predicate Indexed(oms: Oms, owner: Owners) {
    && (forall b :: b in oms.index ==> Owns(owner, oms.index[b], b))
    && forall id :: id in oms.orders ==> Listed(oms, id)
  }

  /** A polled report leads to the order it was asked for or is ignored; with the broker id of that order, or with
      its own, it is found. */
  lemma PolledReportIsFound(oms: Oms, owner: Owners, known: set<OrderId>, id: OrderId, world: World)
    requires Indexed(oms, owner) && Addressed(world, owner, known) && oms.orders.Keys <= known
    requires id in oms.orders && oms.orders[id].brokerId != "" && id in world.reports
    ensures var r := world.reports[id];
            && (Target(oms, r) == Some(id) || Target(oms, r) == None)
            && (r.orderId == id || r.brokerId == oms.orders[id].brokerId ==> Target(oms, r) == Some(id))
  {
    assert Listed(oms, id);
    var r := world.reports[id];
    if r.orderId !in oms.orders && r.brokerId != "" && r.brokerId in oms.index {
      assert Owns(owner, oms.index[r.brokerId], r.brokerId);
    }
  }

  /** The broker stays of its kind. */
  predicate SameKind(s: Live, t: Live) {
    t.venue.None? == s.venue.None?
  }

  // ---- What every step does to the index -----------------------------------------------------

  /** No broker id changes; a new order has none yet. */
  ghost predicate SameBrokerIds(a: Oms, b: Oms) {
    && b.index == a.index && a.orders.Keys <= b.orders.Keys
    && forall id :: id in b.orders ==> b.orders[id].brokerId == if id in a.orders then a.orders[id].brokerId else ""
  }

  lemma SameIdsStayIndexed(a: Oms, b: Oms, owner: Owners)
    requires Indexed(a, owner) && SameBrokerIds(a, b)
    ensures Indexed(b, owner)
  {
    forall id | id in b.orders ensures Listed(b, id) {
      assert id in a.orders ==> Listed(a, id);
    }
  }

  lemma FillKeepsIds(s: Oms, id: OrderId, quantity: int, price: real, fill: Option<Fill>, now: Time)
    requires Consistent(s)
    ensures SameBrokerIds(s, FillApplied(s, id, quantity, price, fill, now))
  {
  }

  lemma FinishKeepsIds(s: Oms, id: OrderId, status: OrderStatus, reason: string, now: Time)
    requires Consistent(s)
    ensures SameBrokerIds(s, MarkedFinished(s, id, status, reason, now))
  {
  }

  lemma RejectKeepsIds(s: Oms, id: OrderId, reason: string, now: Time)
    requires Consistent(s)
    ensures SameBrokerIds(s, MarkedRejected(s, id, reason, now)) && SameBrokerIds(s, Retried(s, id, now))
  {
  }

  /** A report on an order that has a broker id leaves it, and the index, alone. */
  lemma ReportKeepsIds(s: Oms, r: Report, now: Time)
    requires Consistent(s) && (Target(s, r).Some? ==> s.orders[Target(s, r).value].brokerId != "")
    ensures SameBrokerIds(s, ReportApplied(s, r, None, now))
  {
    ReportTouchesOne(s, r, None, now);
    if Target(s, r).Some? {
      ReportKeepsId(s.orders[Target(s, r).value], r, now);
    }
  }

  lemma ReportKeepsId(m: Managed, r: Report, now: Time)
    requires m.brokerId != ""
    ensures Reported(m, r, None, now).brokerId == m.brokerId
  {
  }

  lemma SubmitIndexes(s: Oms, id: OrderId, brokerId: string, now: Time, owner: Owners)
    requires Consistent(s) && Indexed(s, owner) && Owns(owner, id, brokerId)
    ensures Indexed(MarkedSubmitted(s, id, brokerId, now), owner)
  {
    var t := MarkedSubmitted(s, id, brokerId, now);
    forall x | x in t.orders ensures Listed(t, x) {
      assert Listed(s, x);
    }
  }

  lemma {:induction false} DrainIndexed(setup: Setup, s: Live, log: seq<Fill>, now: Time, owner: Owners)
    requires Consistent(s.oms) && Indexed(s.oms, owner)
    ensures Indexed(Drained(setup, s, log, now).oms, owner)
  {
    if log != [] {
      var before, f := Drained(setup, s, log[..|log| - 1], now), log[|log| - 1];
      DrainIndexed(setup, s, log[..|log| - 1], now, owner);
      DrainEvolves(setup, s, log[..|log| - 1], now);
      DrainOneIndexed(setup, before, f, now, owner);
    }
  }

  lemma DrainOneIndexed(setup: Setup, s: Live, f: Fill, now: Time, owner: Owners)
    requires Consistent(s.oms) && Indexed(s.oms, owner)
    ensures Indexed(DrainOne(setup, s, f, now).oms, owner)
  {
    if f.orderId in s.oms.orders {
      var excess := Excess(f.quantity, s.oms.orders[f.orderId].filled);
      FillKeepsIds(s.oms, f.orderId, excess, f.fillPrice, Some(f), now);
      SameIdsStayIndexed(s.oms, FillApplied(s.oms, f.orderId, excess, f.fillPrice, Some(f), now), owner);
    }
  }

  lemma PollOneIndexed(setup: Setup, s: Live, id: OrderId, now: Time, world: World, owner: Owners, known: set<OrderId>)
    requires Consistent(s.oms) && Indexed(s.oms, owner) && Addressed(world, owner, known) && s.oms.orders.Keys <= known
    ensures Indexed(PollOne(setup, s, id, now, world).oms, owner)
  {
    if id in s.oms.orders && s.oms.orders[id].brokerId != "" && id in world.reports {
      var r := world.reports[id];
      PolledReportIsFound(s.oms, owner, known, id, world);
      ReportKeepsIds(s.oms, r, now);
      SameIdsStayIndexed(s.oms, ReportApplied(s.oms, r, None, now), owner);
    }
  }

  lemma {:induction false} PollIndexed(setup: Setup, s: Live, ids: seq<OrderId>, now: Time, world: World, owner: Owners,
                                       known: set<OrderId>)
    requires Consistent(s.oms) && Indexed(s.oms, owner) && Addressed(world, owner, known) && s.oms.orders.Keys <= known
    ensures Indexed(PollAll(setup, s, ids, now, world).oms, owner)
  {
    if ids != [] {
      var init := ids[..|ids| - 1];
      PollIndexed(setup, s, init, now, world, owner, known);
      PollEvolves(setup, s, init, now, world);
      PollOneIndexed(setup, PollAll(setup, s, init, now, world), ids[|ids| - 1], now, world, owner, known);
    }
  }

  lemma {:induction false} ExpireIndexed(setup: Setup, s: Live, ids: seq<OrderId>, now: Time, world: World,
                                         owner: Owners)
    requires Consistent(s.oms) && Indexed(s.oms, owner)
    ensures Indexed(ExpireAll(setup, s, ids, now, world).oms, owner)
  {
    if ids != [] {
      var init, id := ids[..|ids| - 1], ids[|ids| - 1];
      var before := ExpireAll(setup, s, init, now, world);
      ExpireIndexed(setup, s, init, now, world, owner);
      ExpireEvolves(setup, s, init, now, world);
      ExpireOneIndexed(setup, before, id, now, world, owner);
    }
  }

  lemma ExpireOneIndexed(setup: Setup, s: Live, id: OrderId, now: Time, world: World, owner: Owners)
    requires Consistent(s.oms) && Indexed(s.oms, owner)
    ensures Indexed(ExpireOne(setup, s, id, now, world).oms, owner)
  {
    ExpireOneIsFinish(setup, s, id, now, world);
    FinishKeepsIds(s.oms, id, Cancelled, "cancelled", now);
    FinishKeepsIds(s.oms, id, Expired, "expired", now);
    SameIdsStayIndexed(s.oms, MarkedFinished(s.oms, id, Cancelled, "cancelled", now), owner);
    SameIdsStayIndexed(s.oms, MarkedFinished(s.oms, id, Expired, "expired", now), owner);
  }

  /** An accepted order gets the broker id it was handed, any other answer leaves the broker ids alone. */
  lemma AnswerIndexed(setup: Setup, s: Live, order: Order, attempt: nat, now: Time, world: World, owner: Owners)
    requires Consistent(s.oms) && Indexed(s.oms, owner) && HandedOut(setup, s.venue.None?, world, owner)
    requires attempt <= setup.maxRetries
    requires setup.dryRun || !OutcomeAt(setup, s, order, attempt, now, world).ConnectionError?
    ensures Indexed(Attempts(setup, s, order, attempt, now, world).oms, owner)
  {
    assert Owns(owner, order.id, AcceptedAs(setup, s.venue.None?, world, order.id, attempt));
    if setup.dryRun {
      SubmitIndexes(s.oms, order.id, "DRY-RUN-" + world.token(order.id), now, owner);
    } else {
      match OutcomeAt(setup, s, order, attempt, now, world)
      case Placed(brokerId) =>
        PlacedAsAccepted(setup, s, order, attempt, now, world);
        SubmitIndexes(s.oms, order.id, brokerId, now, owner);
      case OrderError(reason) => RejectIndexed(s.oms, order.id, reason, now, owner);
      case OtherError(reason) => RejectIndexed(s.oms, order.id, reason, now, owner);
    }
  }

  lemma PlacedAsAccepted(setup: Setup, s: Live, order: Order, attempt: nat, now: Time, world: World)
    requires !setup.dryRun && OutcomeAt(setup, s, order, attempt, now, world).Placed?
    ensures OutcomeAt(setup, s, order, attempt, now, world).brokerId
            == AcceptedAs(setup, s.venue.None?, world, order.id, attempt)
  {
  }

  lemma RejectIndexed(s: Oms, id: OrderId, reason: string, now: Time, owner: Owners)
    requires Consistent(s) && Indexed(s, owner)
    ensures Indexed(MarkedRejected(s, id, reason, now), owner) && Indexed(Retried(s, id, now), owner)
  {
    RejectKeepsIds(s, id, reason, now);
    SameIdsStayIndexed(s, MarkedRejected(s, id, reason, now), owner);
    SameIdsStayIndexed(s, Retried(s, id, now), owner);
  }

  lemma {:induction false} AttemptsIndexed(setup: Setup, s: Live, order: Order, attempt: nat, now: Time, world: World,
                                           owner: Owners)
    requires Consistent(s.oms) && Indexed(s.oms, owner) && HandedOut(setup, s.venue.None?, world, owner)
    requires order.id in s.oms.orders && attempt <= setup.maxRetries
    ensures Indexed(Attempts(setup, s, order, attempt, now, world).oms, owner)
    decreases setup.maxRetries + 1 - attempt
  {
    if setup.dryRun || !OutcomeAt(setup, s, order, attempt, now, world).ConnectionError? {
      AnswerIndexed(setup, s, order, attempt, now, world, owner);
    } else {
      AttemptIsOneOperation(setup, s, order, attempt, now, world);
      RetryIndexed(setup, s, order, attempt, now, world, owner);
      var u := Retry(setup, s, order, attempt, now, world);
      if attempt < setup.maxRetries {
        AttemptsIndexed(setup, u, order, attempt + 1, now, world, owner);
      } else {
        RejectIndexed(u.oms, order.id, LastReason(setup, s, order, attempt, now, world), now, owner);
      }
    }
  }

  lemma RetryIndexed(setup: Setup, s: Live, order: Order, attempt: nat, now: Time, world: World, owner: Owners)
    requires Consistent(s.oms) && Indexed(s.oms, owner) && order.id in s.oms.orders
    ensures var u := Retry(setup, s, order, attempt, now, world);
            Consistent(u.oms) && Indexed(u.oms, owner) && order.id in u.oms.orders && SameKind(s, u)
  {
    RetryGrows(s.oms, order.id, now);
    RejectIndexed(s.oms, order.id, "", now, owner);
  }

  lemma SentIndexed(setup: Setup, s: Live, order: Order, now: Time, world: World, owner: Owners)
    requires Consistent(s.oms) && Indexed(s.oms, owner) && HandedOut(setup, s.venue.None?, world, owner)
    requires order.id !in s.oms.orders && order.kind.Market?
    ensures Indexed(Sent(setup, s, order, now, world).oms, owner)
  {
    var c := s.(oms := Created(s.oms, order, now));
    CreateEvolves(s.oms, order, now);
    SameIdsStayIndexed(s.oms, c.oms, owner);
    AttemptsIndexed(setup, c, order, 0, now, world, owner);
  }

  lemma {:induction false} SubmitAllIndexed(setup: Setup, s: Live, orders: seq<Order>, lo: OrderId, hi: OrderId,
                                            now: Time, world: World, owner: Owners)
    requires Consistent(s.oms) && Indexed(s.oms, owner) && HandedOut(setup, s.venue.None?, world, owner)
    requires Issued(orders, lo, hi, now) && forall id :: id in s.oms.orders ==> id < lo
    ensures Indexed(SubmitAll(setup, s, orders, now, world).oms, owner)
  {
    if orders != [] {
      var init, o := orders[..|orders| - 1], orders[|orders| - 1];
      var before := SubmitAll(setup, s, init, now, world);
      IssuedPrefix(orders, lo, hi, now);
      SubmitAllIndexed(setup, s, init, lo, hi, now, world, owner);
      SubmitAllEvolves(setup, s, init, lo, hi, now, world);
      SubmitAllKeepsKind(setup, s, init, now, world);
      SentIndexed(setup, before, o, now, world, owner);
    }
  }

  lemma BatchIndexed(setup: Setup, s: Live, t: Tick, events: seq<Signal>, owner: Owners)
    requires setup.trade.Valid() && Sound(s) && Indexed(s.oms, owner) && HandedOut(setup, s.venue.None?, t.world, owner)
    ensures Indexed(Batched(setup, s, t, events).oms, owner)
  {
    var n := PassingIsIssued(setup, s, t, events);
    BatchSubmitsPassing(setup, s, t, events);
    SubmitAllIndexed(setup, Staged(setup, s, t, events), Passing(setup, s, t, events), s.nextId, n, t.now, t.world,
                     owner);
  }

  lemma PassingIsIssued(setup: Setup, s: Live, t: Tick, events: seq<Signal>) returns (n: nat)
    requires setup.trade.Valid()
    ensures Issued(Passing(setup, s, t, events), s.nextId, n, t.now)
  {
    var candidates := BatchPlan(setup, s, t, events).1;
    CandidateIds(setup.trade, DeskAt(s, t, events), s.day, s.nextId, t.now);
    var todo := UpTo(candidates, t.crash);
    RoutedIds(setup.trade, setup.sectors, s.gate, s.book, todo, Closes(t.bars), s.nextId, t.now);
    n := s.nextId + |todo|;
  }

  /** What the outside answers in a tick. */
  ghost predicate Answers(setup: Setup, outside: bool, world: World, owner: Owners, known: set<OrderId>) {
    HandedOut(setup, outside, world, owner) && (outside ==> Addressed(world, owner, known))
  }

  lemma PolledIndexed(setup: Setup, s: Live, now: Time, world: World, force: bool, owner: Owners, known: set<OrderId>)
    requires Consistent(s.oms) && Indexed(s.oms, owner) && s.oms.orders.Keys <= known
    requires Answers(setup, s.venue.None?, world, owner, known)
    ensures Indexed(Polled(setup, s, now, world, force).oms, owner)
  {
    match s.venue {
      case Some(p) => DrainIndexed(setup, s, p.fillLog, now, owner);
      case None => PollIndexed(setup, s.(lastPoll := Some(now)), Working(s.oms, s.oms.ids), now, world, owner, known);
    }
  }

  lemma PolledKeepsKind(setup: Setup, s: Live, now: Time, world: World, force: bool)
    requires Consistent(s.oms)
    ensures Polled(setup, s, now, world, force).venue == s.venue
  {
    match s.venue {
      case Some(p) => DrainKeepsRest(setup, s, p.fillLog, now);
      case None => PollKeepsRest(setup, s.(lastPoll := Some(now)), Working(s.oms, s.oms.ids), now, world);
    }
  }

  lemma {:induction false} ExpireKeepsKind(setup: Setup, s: Live, ids: seq<OrderId>, now: Time, world: World)
    ensures SameKind(s, ExpireAll(setup, s, ids, now, world))
  {
    if ids != [] {
      ExpireKeepsKind(setup, s, ids[..|ids| - 1], now, world);
    }
  }

  lemma {:induction false} SubmitAllKeepsKind(setup: Setup, s: Live, orders: seq<Order>, now: Time, world: World)
    ensures SameKind(s, SubmitAll(setup, s, orders, now, world))
  {
    if orders != [] {
      var before, o := SubmitAll(setup, s, orders[..|orders| - 1], now, world), orders[|orders| - 1];
      SubmitAllKeepsKind(setup, s, orders[..|orders| - 1], now, world);
      AttemptsKeepKind(setup, before.(oms := Created(before.oms, o, now)), o, 0, now, world);
    }
  }

  lemma {:induction false} AttemptsKeepKind(setup: Setup, s: Live, order: Order, attempt: nat, now: Time, world: World)
    ensures SameKind(s, Attempts(setup, s, order, attempt, now, world))
    decreases setup.maxRetries + 1 - attempt
  {
    if attempt < setup.maxRetries {
      AttemptsKeepKind(setup, Retry(setup, s, order, attempt, now, world), order, attempt + 1, now, world);
    }
  }

  lemma BatchKeepsKind(setup: Setup, s: Live, t: Tick, events: seq<Signal>)
    requires setup.trade.Valid()
    ensures SameKind(s, Batched(setup, s, t, events))
  {
    BatchSubmitsPassing(setup, s, t, events);
    SubmitAllKeepsKind(setup, Staged(setup, s, t, events), Passing(setup, s, t, events), t.now, t.world);
  }

  lemma PreparedIndexed(setup: Setup, s: Live, t: Tick, owner: Owners, known: set<OrderId>)
    requires Sound(s) && Indexed(s.oms, owner) && s.oms.orders.Keys <= known
    requires Answers(setup, s.venue.None?, t.world, owner, known)
    ensures var r := Prepared(setup, s, t);
            Indexed(r.oms, owner) && SameKind(s, r) && r.oms.orders.Keys == s.oms.orders.Keys
  {
    var p := Priced(Connected(s), Closes(t.bars));
    var polled := Polled(setup, p, t.now, t.world, true);
    var stale := Stale(polled.oms, polled.oms.ids, setup.ttl, t.now);
    PolledIndexed(setup, p, t.now, t.world, true, owner, known);
    PolledKeepsKind(setup, p, t.now, t.world, true);
    PolledEvolves(setup, p, t.now, t.world, true);
    ExpireIndexed(setup, polled, stale, t.now, t.world, owner);
    ExpireEvolves(setup, polled, stale, t.now, t.world);
    ExpireKeepsKind(setup, polled, stale, t.now, t.world);
  }

  lemma BatchDoneIndexed(setup: Setup, s: Live, t: Tick, owner: Owners, known: set<OrderId>)
    requires setup.trade.Valid() && Sound(s) && Indexed(s.oms, owner) && s.oms.orders.Keys <= known
    requires Answers(setup, s.venue.None?, t.world, owner, known)
    ensures var r := BatchDone(setup, s, t); Indexed(r.oms, owner) && SameKind(s, r)
  {
    PreparedIndexed(setup, s, t, owner, known);
    PreparedEvolves(setup, s, t);
    BatchIndexed(setup, Prepared(setup, s, t), t, EventsOf(setup, s, t), owner);
    BatchKeepsKind(setup, Prepared(setup, s, t), t, EventsOf(setup, s, t));
  }

  lemma FinishedIndexed(setup: Setup, d: Live, t: Tick, owner: Owners, known: set<OrderId>)
    requires Consistent(d.oms) && Indexed(d.oms, owner) && Finished(setup, d, t).oms.orders.Keys <= known
    requires Answers(setup, d.venue.None?, t.world, owner, known)
    ensures var r := Finished(setup, d, t); Indexed(r.oms, owner) && SameKind(d, r)
  {
    PolledEvolves(setup, d, t.now, t.world, false);
    PolledIndexed(setup, d, t.now, t.world, false, owner, known);
    PolledKeepsKind(setup, d, t.now, t.world, false);
  }

  lemma TickIndexed(setup: Setup, s: Live, t: Tick, owner: Owners, known: set<OrderId>)
    requires setup.trade.Valid() && Sound(s) && Indexed(s.oms, owner) && Ticked(setup, s, t).oms.orders.Keys <= known
    requires Answers(setup, s.venue.None?, t.world, owner, known)
    ensures var r := Ticked(setup, s, t); Indexed(r.oms, owner) && SameKind(s, r)
  {
    TickEvolves(setup, s, t);
    if t.bars != map[] && t.fails {
      PreparedEvolves(setup, s, t);
      PreparedIndexed(setup, s, t, owner, known);
    } else if t.bars != map[] {
      var d := BatchDone(setup, s, t);
      BatchDoneIndexed(setup, s, t, owner, known);
      BatchDoneEvolves(setup, s, t);
      if t.crash.None? {
        FinishedIndexed(setup, d, t, owner, known);
      }
    }
  }

  ghost predicate AllAnswer(setup: Setup, outside: bool, ticks: seq<Tick>, owner: Owners, known: set<OrderId>) {
    forall i :: 0 <= i < |ticks| ==> Answers(setup, outside, ticks[i].world, owner, known)
  }

  lemma PrefixIsKnown(setup: Setup, s: Live, ticks: seq<Tick>, known: set<OrderId>)
    requires setup.trade.Valid() && Sound(s) && ticks != [] && Run(setup, s, ticks).oms.orders.Keys <= known
    ensures Run(setup, s, ticks[..|ticks| - 1]).oms.orders.Keys <= known
  {
    RunEvolves(setup, s, ticks[..|ticks| - 1]);
    TickEvolves(setup, Run(setup, s, ticks[..|ticks| - 1]), ticks[|ticks| - 1]);
  }

  /** As long as no broker id is handed out for two orders, the index leads to the right order after every run with
      every broker. `known` are the orders of the run. */
  lemma {:induction false} RunStaysIndexed(setup: Setup, s: Live, ticks: seq<Tick>, owner: Owners, known: set<OrderId>)
    requires setup.trade.Valid() && Sound(s) && Indexed(s.oms, owner) && Run(setup, s, ticks).oms.orders.Keys <= known
    requires AllAnswer(setup, s.venue.None?, ticks, owner, known)
    ensures var r := Run(setup, s, ticks); Indexed(r.oms, owner) && SameKind(s, r)
  {
    if ticks != [] {
      var init, t := ticks[..|ticks| - 1], ticks[|ticks| - 1];
      PrefixIsKnown(setup, s, ticks, known);
      RunStaysIndexed(setup, s, init, owner, known);
      RunEvolves(setup, s, init);
      assert Answers(setup, s.venue.None?, ticks[|ticks| - 1].world, owner, known);
      TickIndexed(setup, Run(setup, s, init), t, owner, known);
    }
  }

  // ---- The index after a restart -------------------------------------------------------------

  lemma {:induction false} RebuiltIndex(log: seq<Record>, last: map<OrderId, Record>, ids: seq<OrderId>, owner: Owners)
    requires forall id :: id in ids ==> id in last && Restorable(last[id]) && Owns(owner, id, last[id].brokerId)
    ensures var t := Rebuilt(log, last, ids).0;
            && (forall b :: b in t.index ==> Owns(owner, t.index[b], b))
            && forall id :: id in ids && last[id].brokerId != "" ==>
                 last[id].brokerId in t.index && t.index[last[id].brokerId] == id
  {
    if ids != [] {
      var init, id := ids[..|ids| - 1], ids[|ids| - 1];
      assert ids == init + [id];
      RebuiltIndex(log, last, init, owner);
      RebuiltIds(log, last, init);
    }
  }

  /** A book rebuilt from its log is indexed again. */
  lemma LoadedIsIndexed(s: Oms, owner: Owners)
    requires Faithful(s) && AllMarket(s) && Indexed(s, owner)
    ensures Indexed(Loaded(s.log).0, owner)
  {
    var last, t := LastRecords(s.log), Loaded(s.log).0;
    FirstSeenKeys(s.log);
    forall id | id in s.ids ensures Restorable(last[id]) && Owns(owner, id, last[id].brokerId) {
      RecordRestores(last[id], s.orders[id]);
      RecordKeepsId(last[id], s.orders[id]);
      assert Listed(s, id);
    }
    RebuiltIndex(s.log, last, s.ids, owner);
    RebuiltIds(s.log, last, s.ids);
    forall id | id in t.orders ensures Listed(t, id) {
      assert t.orders[id] == Restore(last[id]);
    }
  }

  lemma RecordKeepsId(r: Record, m: Managed)
    requires Matches(r, m)
    ensures r.brokerId == m.brokerId || r.brokerId == ""
  {
  }

  /** A session restarted from the log of any run finds its orders through the index as the run did. */
  lemma RestartStaysIndexed(setup: Setup, s: Live, ticks: seq<Tick>, owner: Owners, known: set<OrderId>)
    requires setup.trade.Valid() && Sound(s) && Indexed(s.oms, owner) && Run(setup, s, ticks).oms.orders.Keys <= known
    requires AllAnswer(setup, s.venue.None?, ticks, owner, known)
    requires Faithful(s.oms) && AllMarket(s.oms)
    ensures Indexed(Loaded(Run(setup, s, ticks).oms.log).0, owner)
  {
    RunStaysIndexed(setup, s, ticks, owner, known);
    RunEvolves(setup, s, ticks);
    RunStaysMarket(setup, s, ticks);
    LoadedIsIndexed(Run(setup, s, ticks).oms, owner);
  }

  // ---- Polled fills add up -------------------------------------------------------------------

  function FilledOf(oms: Oms, id: OrderId): int {
    if id in oms.orders then oms.orders[id].filled else 0
  }

  /** The shares of an order that the portfolio has been given. */
  function SharesOf(fills: seq<Fill>, id: OrderId): int {
    if fills == [] then 0
    else
      var f := fills[|fills| - 1];
      SharesOf(fills[..|fills| - 1], id) + (if f.orderId == id then f.quantity else 0)
  }

  /** What the book of orders counts as filled and the portfolio has not been given. */
  function Owed(s: Live, id: OrderId): int {
    FilledOf(s.oms, id) - SharesOf(s.book.fills, id)
  }

  /** What the orders for a symbol are filled, purchases less sales. */
  function SignedFills(oms: Oms, x: Symbol): map<OrderId, real> {
    map id | id in oms.orders && oms.orders[id].order.symbol == x ::
      (if oms.orders[id].order.side.Buy? then oms.orders[id].filled else -oms.orders[id].filled) as real
  }

  /** What the orders for a symbol are filled and the portfolio does not hold of it. */
  ghost function Unheld(s: Live, x: Symbol): real {
    Total(SignedFills(s.oms, x)) - At(s.book, x).quantity as real
  }

  /** Nothing is filled without being booked, order by order and symbol by symbol. */
  ghost predicate SameOwed(s: Live, t: Live) {
    (forall id :: Owed(t, id) == Owed(s, id)) && forall x :: Unheld(t, x) == Unheld(s, x)
  }

  lemma OwesOn(s: Live, t: Live, u: Live)
    requires SameOwed(s, t) && SameOwed(t, u)
    ensures SameOwed(s, u)
  {
  }

  lemma SameStateOwes(s: Live, t: Live)
    requires t.oms.orders == s.oms.orders && t.book == s.book
    ensures SameOwed(s, t)
  {
    forall x ensures Unheld(t, x) == Unheld(s, x) {
      assert SignedFills(t.oms, x) == SignedFills(s.oms, x);
    }
  }

  /** Orders that can still trade have shares left. */
  ghost predicate OpenAreUnfilled(oms: Oms) {
    Consistent(oms) && forall id :: id in oms.orders && !oms.orders[id].IsTerminal() ==>
        oms.orders[id].filled < oms.orders[id].order.quantity
  }

  /** An order that can trade takes exactly what a report adds. */
  lemma ReportTakesIncrement(m: Managed, r: Report, payload: Option<string>, now: Time)
    requires !m.IsTerminal() && m.filled < m.order.quantity
    ensures var n := Reported(m, r, payload, now);
            && n.filled == (if r.filled > m.filled then r.filled else m.filled)
            && (!n.IsTerminal() ==> n.filled < n.order.quantity)
  {
  }

  lemma SharesAppend(fills: seq<Fill>, f: Fill, id: OrderId)
    ensures SharesOf(fills + [f], id) == SharesOf(fills, id) + (if f.orderId == id then f.quantity else 0)
  {
    assert (fills + [f])[..|fills + [f]| - 1] == fills;
  }

  /** One order has taken `added` shares; it is open only if some are left. */
  ghost predicate Takes(a: Oms, b: Oms, id: OrderId, added: int) {
    && id in a.orders && b.orders.Keys == a.orders.Keys && OpenAreUnfilled(b)
    && b.orders[id].order == a.orders[id].order && b.orders[id].filled == a.orders[id].filled + added
    && forall x :: x in a.orders && x != id ==> b.orders[x] == a.orders[x]
  }

  lemma ReportTakes(oms: Oms, id: OrderId, r: Report, now: Time)
    requires OpenAreUnfilled(oms) && Target(oms, r) == Some(id) && !oms.orders[id].IsTerminal()
    ensures Takes(oms, ReportApplied(oms, r, None, now), id, Excess(r.filled, oms.orders[id].filled))
  {
    ReportTouchesOne(oms, r, None, now);
    ReportTakesIncrement(oms.orders[id], r, None, now);
    ReportGrows(oms, r, None, now);
  }

  /** What a poll does when the report leads to an order: the fill it books is for that order, and for what the
      report has beyond the order that was polled. */
  lemma PollBooks(setup: Setup, s: Live, id: OrderId, other: OrderId, now: Time, world: World)
    requires Consistent(s.oms) && id in s.oms.orders && s.oms.orders[id].brokerId != "" && id in world.reports
    requires Target(s.oms, world.reports[id]) == Some(other)
    ensures var r, before, t := world.reports[id], s.oms.orders[id].filled, PollOne(setup, s, id, now, world);
            && t.oms == ReportApplied(s.oms, r, None, now)
            && t.book.fills == s.book.fills
                               + (if r.filled > before then [Increment(s.oms.orders[other], r, before)] else [])
  {
    var r := world.reports[id];
    ReportTouchesOne(s.oms, r, None, now);
    ReportKeepsOrder(s.oms.orders[other], r, None, now);
    assert s.book.fills + [] == s.book.fills;
  }

  /** The books after a poll: the shares the report has beyond the order that was polled move the position of the order
      it leads to, up for a purchase and down for a sale, and cash the other way at the reported price. */
  lemma PollMovesPosition(setup: Setup, s: Live, id: OrderId, now: Time, world: World)
    requires Consistent(s.oms) && id in s.oms.orders && s.oms.orders[id].brokerId != "" && id in world.reports
    ensures var r, t, hit := world.reports[id], PollOne(setup, s, id, now, world), Target(s.oms, world.reports[id]);
            if hit.None? || r.filled <= s.oms.orders[id].filled then t.book == s.book
            else
              var o, added := s.oms.orders[hit.value].order, r.filled - s.oms.orders[id].filled;
              && (forall x :: At(t.book, x).quantity - At(s.book, x).quantity
                              == if x != o.symbol then 0 else if o.side.Buy? then added else -added)
              && t.book.cash - s.book.cash
                 == if o.side.Buy? then -Worth(r.avgPrice, added) else Worth(r.avgPrice, added)
  {
    var r, hit := world.reports[id], Target(s.oms, world.reports[id]);
    PollBook(setup, s, id, now, world);
    if hit.Some? && r.filled > s.oms.orders[id].filled {
      IncrementMovesBook(s.book, PollOne(setup, s, id, now, world).book, s.oms.orders[hit.value], r,
                         s.oms.orders[id].filled);
    }
  }

  lemma IncrementMovesBook(b: Book, t: Book, m: Managed, r: Report, before: int)
    requires r.filled > before && t == Applied(b, Increment(m, r, before))
    ensures var o, added := m.order, r.filled - before;
            && (forall x :: At(t, x).quantity - At(b, x).quantity
                            == if x != o.symbol then 0 else if o.side.Buy? then added else -added)
            && t.cash - b.cash == if o.side.Buy? then -Worth(r.avgPrice, added) else Worth(r.avgPrice, added)
  {
    FillMovesBook(b, Increment(m, r, before));
  }

  lemma PollBook(setup: Setup, s: Live, id: OrderId, now: Time, world: World)
    requires Consistent(s.oms) && id in s.oms.orders && s.oms.orders[id].brokerId != "" && id in world.reports
    ensures var r, t, hit := world.reports[id], PollOne(setup, s, id, now, world), Target(s.oms, world.reports[id]);
            t.book == if hit.None? || r.filled <= s.oms.orders[id].filled then s.book
                      else Applied(s.book, Increment(s.oms.orders[hit.value], r, s.oms.orders[id].filled))
  {
    var r := world.reports[id];
    if Target(s.oms, r).Some? {
      ReportTouchesOne(s.oms, r, None, now);
      ReportKeepsOrder(s.oms.orders[Target(s.oms, r).value], r, None, now);
    }
  }

  lemma FillMovesBook(b: Book, f: Fill)
    ensures var t := Applied(b, f);
            && (forall x :: At(t, x).quantity - At(b, x).quantity
                            == if x != f.symbol then 0
                               else if f.side.Buy? then f.quantity as int else -(f.quantity as int))
            && t.cash - b.cash == (if f.side.Buy? then -Worth(f.fillPrice, f.quantity)
                                   else Worth(f.fillPrice, f.quantity)) - f.commission
  {
  }

  /** What is filled by a report that leads to its own order is held afterwards. */
  lemma PollHolds(setup: Setup, s: Live, id: OrderId, now: Time, world: World)
    requires OpenAreUnfilled(s.oms) && IsWorking(s.oms, id) && s.oms.orders[id].brokerId != "" && id in world.reports
    requires Target(s.oms, world.reports[id]) == Some(id)
    ensures forall x :: Unheld(PollOne(setup, s, id, now, world), x) == Unheld(s, x)
  {
    var r, m, t := world.reports[id], s.oms.orders[id], PollOne(setup, s, id, now, world);
    var added := Excess(r.filled, m.filled);
    PollMovesPosition(setup, s, id, now, world);
    PollBooks(setup, s, id, id, now, world);
    ReportTakes(s.oms, id, r, now);
    forall x ensures Unheld(t, x) == Unheld(s, x) {
      TakingSigns(s.oms, t.oms, id, added, x);
    }
  }

  lemma TakingSigns(a: Oms, b: Oms, id: OrderId, added: int, x: Symbol)
    requires Takes(a, b, id, added)
    ensures var o := a.orders[id].order;
            Total(SignedFills(b, x))
            == Total(SignedFills(a, x))
               + (if o.symbol != x then 0 else if o.side.Buy? then added else -added) as real
  {
    var before, after := SignedFills(a, x), SignedFills(b, x);
    OneSignChanges(a, b, id, added, x);
    if id in after {
      TotalUpdate(before, id, after[id]);
    }
  }

  lemma OneSignChanges(a: Oms, b: Oms, id: OrderId, added: int, x: Symbol)
    requires Takes(a, b, id, added)
    ensures var before, after := SignedFills(a, x), SignedFills(b, x);
            && (id in before <==> id in after) && (id in after <==> a.orders[id].order.symbol == x)
            && after == (if id in after then before[id := after[id]] else before)
  {
    var before, after := SignedFills(a, x), SignedFills(b, x);
    forall k | k != id ensures (k in before <==> k in after) && (k in after ==> after[k] == before[k]) {
      SignStays(a, b, k, x);
    }
  }

  lemma SignStays(a: Oms, b: Oms, k: OrderId, x: Symbol)
    requires a.orders.Keys == b.orders.Keys && (k in a.orders ==> b.orders[k] == a.orders[k])
    ensures var before, after := SignedFills(a, x), SignedFills(b, x);
            (k in before <==> k in after) && (k in after ==> after[k] == before[k])
  {
  }

  lemma PollOwes(setup: Setup, s: Live, id: OrderId, other: OrderId, now: Time, world: World, x: OrderId)
    requires OpenAreUnfilled(s.oms) && id in s.oms.orders && s.oms.orders[id].brokerId != "" && id in world.reports
    requires Target(s.oms, world.reports[id]) == Some(other)
    ensures var r, m := world.reports[id], s.oms.orders[other];
            var taken := if m.IsTerminal() then 0 else Excess(r.filled, m.filled);
            Owed(PollOne(setup, s, id, now, world), x)
            == Owed(s, x) + (if x == other then taken - Excess(r.filled, s.oms.orders[id].filled) else 0)
  {
    var r, m := world.reports[id], s.oms.orders[other];
    PollBooks(setup, s, id, other, now, world);
    ReportFills(s.oms, other, r, now, x);
    if r.filled > s.oms.orders[id].filled {
      SharesAppend(s.book.fills, Increment(m, r, s.oms.orders[id].filled), x);
    }
  }

  lemma ReportFills(oms: Oms, id: OrderId, r: Report, now: Time, x: OrderId)
    requires OpenAreUnfilled(oms) && Target(oms, r) == Some(id)
    ensures var m := oms.orders[id];
            FilledOf(ReportApplied(oms, r, None, now), x)
            == FilledOf(oms, x) + (if x != id || m.IsTerminal() then 0 else Excess(r.filled, m.filled))
  {
    var m := oms.orders[id];
    ReportTouchesOne(oms, r, None, now);
    if m.IsTerminal() {
      ReportsOnlyAdd(m, r, None, now);
    } else {
      ReportTakesIncrement(m, r, None, now);
    }
  }

  /** A report that leads to the order it was asked for. */
  lemma PollOneOwesTheSame(setup: Setup, s: Live, id: OrderId, now: Time, world: World, owner: Owners,
                           known: set<OrderId>)
    requires OpenAreUnfilled(s.oms) && IsWorking(s.oms, id)
    requires Indexed(s.oms, owner) && Addressed(world, owner, known) && s.oms.orders.Keys <= known
    ensures var t := PollOne(setup, s, id, now, world);
            && OpenAreUnfilled(t.oms) && t.oms.orders.Keys == s.oms.orders.Keys
            && (forall x :: x in s.oms.orders && x != id ==> t.oms.orders[x] == s.oms.orders[x])
            && SameOwed(s, t)
  {
    if s.oms.orders[id].brokerId != "" && id in world.reports {
      var r := world.reports[id];
      PolledReportIsFound(s.oms, owner, known, id, world);
      if Target(s.oms, r) == Some(id) {
        ReportTakes(s.oms, id, r, now);
        PollBooks(setup, s, id, id, now, world);
        forall x ensures Owed(PollOne(setup, s, id, now, world), x) == Owed(s, x) {
          PollOwes(setup, s, id, id, now, world, x);
        }
        PollHolds(setup, s, id, now, world);
      }
    }
  }

  lemma {:induction false} PollAllOwesTheSame(setup: Setup, s: Live, ids: seq<OrderId>, now: Time, world: World,
                                              owner: Owners, known: set<OrderId>)
    requires OpenAreUnfilled(s.oms) && Distinct(ids) && forall id :: id in ids ==> IsWorking(s.oms, id)
    requires Indexed(s.oms, owner) && Addressed(world, owner, known) && s.oms.orders.Keys <= known
    ensures var t := PollAll(setup, s, ids, now, world);
            && OpenAreUnfilled(t.oms) && t.oms.orders.Keys == s.oms.orders.Keys
            && (forall x :: x in s.oms.orders && x !in ids ==> t.oms.orders[x] == s.oms.orders[x])
            && SameOwed(s, t)
  {
    if ids != [] {
      var init, id := ids[..|ids| - 1], ids[|ids| - 1];
      assert ids == init + [id];
      assert id !in init;
      PollAllOwesTheSame(setup, s, init, now, world, owner, known);
      PollIndexed(setup, s, init, now, world, owner, known);
      assert IsWorking(s.oms, id);
      PollOneOwesTheSame(setup, PollAll(setup, s, init, now, world), id, now, world, owner, known);
    }
  }

  lemma {:induction false} WorkingAreDistinct(oms: Oms, ids: seq<OrderId>)
    requires Distinct(ids)
    ensures Distinct(Working(oms, ids)) && forall id :: id in Working(oms, ids) <==> id in ids && IsWorking(oms, id)
  {
    if ids != [] {
      var init, id := ids[..|ids| - 1], ids[|ids| - 1];
      assert ids == init + [id];
      WorkingAreDistinct(oms, init);
      if IsWorking(oms, id) {
        DistinctAppend(Working(oms, init), id);
      }
    }
  }

  lemma PolledOwesTheSame(setup: Setup, s: Live, now: Time, world: World, force: bool, owner: Owners,
                          known: set<OrderId>)
    requires s.venue.None? && OpenAreUnfilled(s.oms)
    requires Indexed(s.oms, owner) && Addressed(world, owner, known) && s.oms.orders.Keys <= known
    ensures var t := Polled(setup, s, now, world, force);
            OpenAreUnfilled(t.oms) && SameOwed(s, t)
  {
    WorkingAreDistinct(s.oms, s.oms.ids);
    var t := s.(lastPoll := Some(now));
    PollAllOwesTheSame(setup, t, Working(s.oms, s.oms.ids), now, world, owner, known);
    SameStateOwes(s, t);
  }

  /** No fill moves. */
  ghost predicate SameFilled(a: Oms, b: Oms) {
    (OpenAreUnfilled(a) ==> OpenAreUnfilled(b)) && forall id :: FilledOf(b, id) == FilledOf(a, id)
  }

  /** New orders without fills add nothing. */
  lemma UnfilledOwesTheSame(s: Live, t: Live)
    requires SameFilled(s.oms, t.oms) && Grows(s.oms, t.oms) && t.book == s.book
    ensures SameOwed(s, t)
  {
    forall x ensures Unheld(t, x) == Unheld(s, x) {
      NewOrdersAddNothing(s.oms, t.oms, x);
    }
  }

  lemma NewOrdersAddNothing(a: Oms, b: Oms, x: Symbol)
    requires SameFilled(a, b) && Grows(a, b)
    ensures Total(SignedFills(b, x)) == Total(SignedFills(a, x))
  {
    forall id | id in a.orders ensures SignAt(b, id, x) == SignAt(a, id, x) {
      assert Kept(a.orders[id], b.orders[id]) && FilledOf(b, id) == FilledOf(a, id);
    }
    forall id | id in b.orders && id !in a.orders ensures SignAt(b, id, x).None? || SignAt(b, id, x) == Some(0.0) {
      assert FilledOf(b, id) == FilledOf(a, id);
    }
    SameSigns(a, b, x);
  }

  /** What an order adds to the signed sum of a symbol. */
  function SignAt(oms: Oms, id: OrderId, x: Symbol): Option<real> {
    if id in SignedFills(oms, x) then Some(SignedFills(oms, x)[id]) else None
  }

  lemma SameSigns(a: Oms, b: Oms, x: Symbol)
    requires a.orders.Keys <= b.orders.Keys
    requires forall id :: id in a.orders ==> SignAt(b, id, x) == SignAt(a, id, x)
    requires forall id :: id in b.orders && id !in a.orders ==> SignAt(b, id, x).None? || SignAt(b, id, x) == Some(0.0)
    ensures Total(SignedFills(b, x)) == Total(SignedFills(a, x))
  {
    var before, after := SignedFills(a, x), SignedFills(b, x);
    forall id | id in after && id !in a.orders.Keys ensures after[id] == 0.0 {
      assert SignAt(b, id, x) == Some(after[id]);
    }
    TotalIgnoresZeros(after, a.orders.Keys);
    forall id ensures (id in before <==> id in Only(after, a.orders.Keys)) {
      assert id in a.orders ==> SignAt(b, id, x) == SignAt(a, id, x);
    }
    assert Only(after, a.orders.Keys) == before;
  }

  lemma FinishFillsNothing(s: Oms, id: OrderId, status: OrderStatus, reason: string, now: Time)
    requires Consistent(s) && status.IsTerminal()
    ensures SameFilled(s, MarkedFinished(s, id, status, reason, now))
  {
    if OpenAreUnfilled(s) {
      FinishEvolves(s, id, status, reason, now);
    }
  }

  lemma {:induction false} ExpireFillsNothing(setup: Setup, s: Live, ids: seq<OrderId>, now: Time, world: World)
    requires Consistent(s.oms)
    ensures SameFilled(s.oms, ExpireAll(setup, s, ids, now, world).oms)
  {
    if ids != [] {
      var before, id := ExpireAll(setup, s, ids[..|ids| - 1], now, world), ids[|ids| - 1];
      ExpireFillsNothing(setup, s, ids[..|ids| - 1], now, world);
      ExpireEvolves(setup, s, ids[..|ids| - 1], now, world);
      FinishFillsNothing(before.oms, id, Cancelled, "cancelled", now);
      FinishFillsNothing(before.oms, id, Expired, "expired", now);
      ExpireOneIsFinish(setup, before, id, now, world);
    }
  }

  lemma NewOrderFillsNothing(a: Oms, b: Oms, order: Order)
    requires OnlyChanges(a, b, order) && order.id !in a.orders && (OpenAreUnfilled(a) ==> Consistent(b))
    ensures SameFilled(a, b)
  {
  }

  lemma SentFillsNothing(setup: Setup, s: Live, order: Order, now: Time, world: World)
    requires order.id !in s.oms.orders && order.kind.Market?
    ensures SameFilled(s.oms, Sent(setup, s, order, now, world).oms)
  {
    SubmissionEnds(setup, s, order, now, world);
    if OpenAreUnfilled(s.oms) {
      SentEvolves(setup, s, order, now, world);
    }
    NewOrderFillsNothing(s.oms, Sent(setup, s, order, now, world).oms, order);
  }

  lemma {:induction false} SubmitAllFillsNothing(setup: Setup, s: Live, orders: seq<Order>, lo: OrderId, hi: OrderId,
                                                 now: Time, world: World)
    requires Consistent(s.oms) && Issued(orders, lo, hi, now) && forall id :: id in s.oms.orders ==> id < lo
    ensures SameFilled(s.oms, SubmitAll(setup, s, orders, now, world).oms)
  {
    if orders != [] {
      var init, o := orders[..|orders| - 1], orders[|orders| - 1];
      IssuedPrefix(orders, lo, hi, now);
      SubmitAllFillsNothing(setup, s, init, lo, hi, now, world);
      SubmitAllEvolves(setup, s, init, lo, hi, now, world);
      SentFillsNothing(setup, SubmitAll(setup, s, init, now, world), o, now, world);
    }
  }

  /** Between polls nothing is filled and the portfolio gets nothing. */
  lemma BatchOwesTheSame(setup: Setup, s: Live, t: Tick, events: seq<Signal>)
    requires setup.trade.Valid() && Sound(s)
    ensures var r := Batched(setup, s, t, events); SameFilled(s.oms, r.oms) && r.book == s.book
  {
    var n := PassingIsIssued(setup, s, t, events);
    BatchSubmitsPassing(setup, s, t, events);
    var staged, passed := Staged(setup, s, t, events), Passing(setup, s, t, events);
    SubmitAllFillsNothing(setup, staged, passed, s.nextId, n, t.now, t.world);
    SubmitAllEvolves(setup, staged, passed, s.nextId, n, t.now, t.world);
  }

  /** An engine with an outside broker, between two ticks. */
  ghost predicate External(s: Live, owner: Owners) {
    s.venue.None? && Sound(s) && OpenAreUnfilled(s.oms) && Indexed(s.oms, owner)
  }

  lemma PreparedOwesTheSame(setup: Setup, s: Live, t: Tick, owner: Owners, known: set<OrderId>)
    requires External(s, owner) && Addressed(t.world, owner, known) && s.oms.orders.Keys <= known
    ensures var r := Prepared(setup, s, t); OpenAreUnfilled(r.oms) && SameOwed(s, r)
  {
    var p := Priced(Connected(s), Closes(t.bars));
    var polled := Polled(setup, p, t.now, t.world, true);
    var stale := Stale(polled.oms, polled.oms.ids, setup.ttl, t.now);
    PolledOwesTheSame(setup, p, t.now, t.world, true, owner, known);
    ExpireFillsNothing(setup, polled, stale, t.now, t.world);
    ExpireKeepsRest(setup, polled, stale, t.now, t.world);
    ExpireEvolves(setup, polled, stale, t.now, t.world);
    UnfilledOwesTheSame(polled, Prepared(setup, s, t));
    SameStateOwes(s, p);
  }

  lemma BatchDoneOwesTheSame(setup: Setup, s: Live, t: Tick, owner: Owners, known: set<OrderId>)
    requires setup.trade.Valid() && External(s, owner) && s.oms.orders.Keys <= known
             && Answers(setup, true, t.world, owner, known)
    ensures var r := BatchDone(setup, s, t); External(r, owner) && SameOwed(s, r)
  {
    var r := Prepared(setup, s, t);
    PreparedOwesTheSame(setup, s, t, owner, known);
    PreparedEvolves(setup, s, t);
    BatchOwesTheSame(setup, r, t, EventsOf(setup, s, t));
    BatchDoneEvolves(setup, s, t);
    BatchDoneIndexed(setup, s, t, owner, known);
    BatchEvolves(setup, r, t, EventsOf(setup, s, t));
    UnfilledOwesTheSame(r, BatchDone(setup, s, t));
    OwesOn(s, r, BatchDone(setup, s, t));
  }

  lemma TickOwesTheSame(setup: Setup, s: Live, t: Tick, owner: Owners, known: set<OrderId>)
    requires setup.trade.Valid() && External(s, owner) && Ticked(setup, s, t).oms.orders.Keys <= known
    requires Answers(setup, true, t.world, owner, known)
    ensures var r := Ticked(setup, s, t); External(r, owner) && SameOwed(s, r)
  {
    TickEvolves(setup, s, t);
    TickIndexed(setup, s, t, owner, known);
    if t.bars != map[] && t.fails {
      PreparedEvolves(setup, s, t);
      PreparedOwesTheSame(setup, s, t, owner, known);
      SameStateOwes(Prepared(setup, s, t), Ticked(setup, s, t));
    } else if t.bars != map[] {
      BatchDoneOwesTheSame(setup, s, t, owner, known);
      if t.crash.None? {
        FinishedOwesTheSame(setup, BatchDone(setup, s, t), t, owner, known);
      }
    }
  }

  lemma FinishedOwesTheSame(setup: Setup, d: Live, t: Tick, owner: Owners, known: set<OrderId>)
    requires External(d, owner) && Addressed(t.world, owner, known) && Finished(setup, d, t).oms.orders.Keys <= known
    ensures var r := Finished(setup, d, t); OpenAreUnfilled(r.oms) && SameOwed(d, r)
  {
    PolledEvolves(setup, d, t.now, t.world, false);
    PolledOwesTheSame(setup, d, t.now, t.world, false, owner, known);
    SameStateOwes(Polled(setup, d, t.now, t.world, false), Finished(setup, d, t));
  }

  /** With an outside broker that gives no broker id to two orders, whose reports are about the orders they were asked
      for, repeated, stale or out of order as they may be: over every run the portfolio is given exactly the shares
      that each order is filled. `known` are the orders of the run; a report may carry an internal id outside it. */
  lemma {:induction false} PolledFillsAddUp(setup: Setup, s: Live, ticks: seq<Tick>, owner: Owners,
                                            known: set<OrderId>, id: OrderId)
    requires setup.trade.Valid() && External(s, owner) && Run(setup, s, ticks).oms.orders.Keys <= known
    requires AllAnswer(setup, true, ticks, owner, known)
    ensures var r := Run(setup, s, ticks);
            && External(r, owner)
            && SharesOf(r.book.fills, id) - SharesOf(s.book.fills, id) == FilledOf(r.oms, id) - FilledOf(s.oms, id)
  {
    if ticks != [] {
      var init := ticks[..|ticks| - 1];
      PrefixIsKnown(setup, s, ticks, known);
      PolledFillsAddUp(setup, s, init, owner, known, id);
      assert Answers(setup, true, ticks[|ticks| - 1].world, owner, known);
      TickOwesTheSame(setup, Run(setup, s, init), ticks[|ticks| - 1], owner, known);
      assert Owed(Run(setup, s, ticks), id) == Owed(Run(setup, s, init), id);
    }
  }

  /** With such a broker every position is the sum of what the orders for its symbol are filled, purchases less sales:
      a run keeps the difference, and from an empty book and unfilled orders there is none. */
  lemma {:induction false} PolledPositionsAddUp(setup: Setup, s: Live, ticks: seq<Tick>, owner: Owners,
                                                known: set<OrderId>, x: Symbol)
    requires setup.trade.Valid() && External(s, owner) && Run(setup, s, ticks).oms.orders.Keys <= known
    requires AllAnswer(setup, true, ticks, owner, known)
    ensures var r := Run(setup, s, ticks);
            At(r.book, x).quantity as real - At(s.book, x).quantity as real
            == Total(SignedFills(r.oms, x)) - Total(SignedFills(s.oms, x))
    ensures s.book.positions == map[] && (forall id :: id in s.oms.orders ==> s.oms.orders[id].filled == 0) ==>
              At(Run(setup, s, ticks).book, x).quantity as real == Total(SignedFills(Run(setup, s, ticks).oms, x))
  {
    if ticks != [] {
      var init := ticks[..|ticks| - 1];
      PrefixIsKnown(setup, s, ticks, known);
      PolledPositionsAddUp(setup, s, init, owner, known, x);
      PolledFillsAddUp(setup, s, init, owner, known, 0);
      assert Answers(setup, true, ticks[|ticks| - 1].world, owner, known);
      TickOwesTheSame(setup, Run(setup, s, init), ticks[|ticks| - 1], owner, known);
      assert Unheld(Run(setup, s, ticks), x) == Unheld(Run(setup, s, init), x);
    }
    if forall id :: id in s.oms.orders ==> s.oms.orders[id].filled == 0 {
      TotalIgnoresZeros(SignedFills(s.oms, x), {});
      OnlyNone(SignedFills(s.oms, x));
    }
  }

  // ---- Reports about another order -----------------------------------------------------------

  /** A report that leads to another order is applied to that order, but what it adds is measured against the order
      that was polled. The books still add up after the poll exactly when both have been filled alike or the report
      exceeds neither; for a final order, which takes nothing, when the report does not exceed the polled one. */
  lemma MisaddressedReport(setup: Setup, s: Live, id: OrderId, other: OrderId, now: Time, world: World)
    requires OpenAreUnfilled(s.oms) && id in s.oms.orders && s.oms.orders[id].brokerId != "" && id in world.reports
    requires Target(s.oms, world.reports[id]) == Some(other)
    ensures var r, polled, hit := world.reports[id], s.oms.orders[id], s.oms.orders[other];
            (forall x :: Owed(PollOne(setup, s, id, now, world), x) == Owed(s, x)) <==>
              if hit.IsTerminal() then r.filled <= polled.filled
              else polled.filled == hit.filled || (r.filled <= polled.filled && r.filled <= hit.filled)
  {
    var t := PollOne(setup, s, id, now, world);
    PollOwes(setup, s, id, other, now, world, other);
    forall x | x != other ensures Owed(t, x) == Owed(s, x) {
      PollOwes(setup, s, id, other, now, world, x);
    }
  }

  /** The case that fails: a fill of one order, known already, is reported to the poll of another that has none, and
      is booked a second time. */
  lemma MisaddressedReportCountsTwice(setup: Setup, s: Live, id: OrderId, other: OrderId, now: Time, world: World)
    requires OpenAreUnfilled(s.oms) && id in s.oms.orders && s.oms.orders[id].brokerId != "" && id in world.reports
    requires Target(s.oms, world.reports[id]) == Some(other)
    requires s.oms.orders[id].filled == 0 && s.oms.orders[other].filled == world.reports[id].filled > 0
    ensures var t := PollOne(setup, s, id, now, world);
            && FilledOf(t.oms, other) == FilledOf(s.oms, other)
            && SharesOf(t.book.fills, other) == SharesOf(s.book.fills, other) + FilledOf(s.oms, other)
  {
    var r, m := world.reports[id], s.oms.orders[other];
    PollBooks(setup, s, id, other, now, world);
    ReportFills(s.oms, other, r, now, other);
    SharesAppend(s.book.fills, Increment(m, r, 0), other);
  }
}
