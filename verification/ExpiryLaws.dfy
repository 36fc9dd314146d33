/** What becomes of the open orders of cpat/infrastructure/execution_engine_live.py as time passes: polls take every
    report, and what is too old is cancelled or expired. */
module ExpiryLaws {
  import opened Models
  import opened OrderManager
  import opened OrderLaws
  import opened PaperBroker
  import opened SignalBatch
  import opened LiveModel
  import opened LiveRuns
  import opened VenueLaws
  import opened PollLaws

  // ---- Polls take every report ---------------------------------------------------------------

  /** A report on the order is there for the poll, and names it by one of its ids. */
  predicate Reports(world: World, id: OrderId, m: Managed) {
    m.brokerId != "" && id in world.reports
    && (world.reports[id].orderId == id || world.reports[id].brokerId == m.brokerId)
  }

  lemma PollOneTakes(setup: Setup, s: Live, id: OrderId, now: Time, world: World, owner: Owners, known: set<OrderId>)
    requires Consistent(s.oms) && id in s.oms.orders && Reports(world, id, s.oms.orders[id])
    requires Indexed(s.oms, owner) && Addressed(world, owner, known) && s.oms.orders.Keys <= known
    ensures var t := PollOne(setup, s, id, now, world).oms;
            id in t.orders && t.orders[id] == Reported(s.oms.orders[id], world.reports[id], None, now)
  {
    PolledReportIsFound(s.oms, owner, known, id, world);
    ReportTouchesOne(s.oms, world.reports[id], None, now);
  }

  ghost predicate Pollable(s: Live, world: World, owner: Owners, known: set<OrderId>) {
    OpenAreUnfilled(s.oms) && Indexed(s.oms, owner) && Addressed(world, owner, known) && s.oms.orders.Keys <= known
  }

  lemma PollLeavesRest(setup: Setup, s: Live, ids: seq<OrderId>, now: Time, world: World, owner: Owners,
                       known: set<OrderId>, id: OrderId)
    requires Pollable(s, world, owner, known) && Distinct(ids) && forall x :: x in ids ==> IsWorking(s.oms, x)
    requires id in s.oms.orders && id !in ids
    ensures var t := PollAll(setup, s, ids, now, world);
            Pollable(t, world, owner, known) && id in t.oms.orders && t.oms.orders[id] == s.oms.orders[id]
  {
    PollAllOwesTheSame(setup, s, ids, now, world, owner, known);
    PollIndexed(setup, s, ids, now, world, owner, known);
  }

  lemma {:induction false} PollAllTakes(setup: Setup, s: Live, ids: seq<OrderId>, now: Time, world: World,
                                        owner: Owners, known: set<OrderId>, id: OrderId)
    requires Pollable(s, world, owner, known) && Distinct(ids) && forall x :: x in ids ==> IsWorking(s.oms, x)
    requires id in ids && id in s.oms.orders && Reports(world, id, s.oms.orders[id])
    ensures var t := PollAll(setup, s, ids, now, world).oms;
            id in t.orders && t.orders[id] == Reported(s.oms.orders[id], world.reports[id], None, now)
  {
    var init, last := ids[..|ids| - 1], ids[|ids| - 1];
    assert ids == init + [last];
    assert last !in init;
    var before := PollAll(setup, s, init, now, world);
    assert IsWorking(s.oms, last);
    PollLeavesRest(setup, s, init, now, world, owner, known, last);
    if id == last {
      PollOneTakes(setup, before, id, now, world, owner, known);
    } else {
      PollAllTakes(setup, s, init, now, world, owner, known, id);
      PollOneOwesTheSame(setup, before, last, now, world, owner, known);
    }
  }

  predicate Due(setup: Setup, s: Live, now: Time, force: bool) {
    force || s.lastPoll.None? || now >= s.lastPoll.value + setup.pollInterval
  }

  /** The order is submitted or partly filled, and a report on it is there. */
  predicate Awaits(oms: Oms, id: OrderId, world: World) {
    && id in oms.orders && Reports(world, id, oms.orders[id])
    && (oms.orders[id].status.Submitted? || oms.orders[id].status.PartiallyFilled?)
  }

  predicate CaughtUpWith(r: Report, m: Managed, n: Managed) {
    && n.filled == (if r.filled > m.filled then r.filled else m.filled)
    && n.status == (if r.filled >= m.order.quantity then Filled
                    else if r.status.IsTerminal() || r.status.PartiallyFilled? then r.status
                    else Submitted)
  }

  /** A poll of an outside broker that is due reaches every order that is submitted or partly filled: the order catches
      up with the filled quantity of its report, and takes the reported status unless that quantity completes it. Such a
      poll starts the interval to the next one; a poll that is not due changes nothing. */
  lemma PollCatchesUp(setup: Setup, s: Live, now: Time, world: World, force: bool, owner: Owners, known: set<OrderId>,
                      id: OrderId)
    requires s.venue.None? && Pollable(s, world, owner, known)
    ensures !Due(setup, s, now, force) ==> Polled(setup, s, now, world, force) == s
    ensures Due(setup, s, now, force) ==> Polled(setup, s, now, world, force).lastPoll == Some(now)
    ensures Due(setup, s, now, force) && Awaits(s.oms, id, world) ==>
              var t := Polled(setup, s, now, world, force).oms;
              id in t.orders && CaughtUpWith(world.reports[id], s.oms.orders[id], t.orders[id])
  {
    PollKeepsRest(setup, s.(lastPoll := Some(now)), Working(s.oms, s.oms.ids), now, world);
    if Due(setup, s, now, force) && Awaits(s.oms, id, world) {
      WorkingAreDistinct(s.oms, s.oms.ids);
      PollAllTakes(setup, s.(lastPoll := Some(now)), Working(s.oms, s.oms.ids), now, world, owner, known, id);
      ReportedStatus(s.oms.orders[id], world.reports[id], None, now);
      ReportTakesIncrement(s.oms.orders[id], world.reports[id], None, now);
    }
  }

  // ---- Which orders are too old --------------------------------------------------------------

  /** Open for at least the time to live, counted from its submission, or from its creation if it never got that far. */
  predicate Overdue(m: Managed, ttl: int, now: Time) {
    var since := match m.submittedAt case Some(at) => at case None => m.createdAt;
    ttl > 0 && !m.IsTerminal() && now >= since + ttl
  }

  lemma {:induction false} StaleAreOverdue(oms: Oms, ids: seq<OrderId>, ttl: int, now: Time)
    requires Distinct(ids)
    ensures Distinct(Stale(oms, ids, ttl, now))
    ensures forall id :: id in Stale(oms, ids, ttl, now) <==>
              id in ids && id in oms.orders && Overdue(oms.orders[id], ttl, now)
  {
    if ids != [] {
      var init, id := ids[..|ids| - 1], ids[|ids| - 1];
      assert ids == init + [id];
      StaleAreOverdue(oms, init, ttl, now);
      if IsStale(oms, id, ttl, now) {
        DistinctAppend(Stale(oms, init, ttl, now), id);
      }
    }
  }

  // ---- What happens to them ------------------------------------------------------------------

  /** The status of an order after the expiry: one that is overdue is cancelled if an outside broker that knows it
      agrees, stays open if that broker does not answer, and expires otherwise. */
  function StatusAfter(setup: Setup, outside: bool, world: World, id: OrderId, m: Managed, now: Time): OrderStatus {
    if !Overdue(m, setup.ttl, now) then m.status
    else if outside && m.brokerId != "" && !setup.dryRun then
      if id !in world.cancels then m.status else if world.cancels[id] then Cancelled else Expired
    else Expired
  }

  /** A paper broker that is up and has nothing open. */
  predicate NothingOpen(s: Live) {
    match s.venue
    case None => true
    case Some(p) => p.connected && forall b :: b in p.orders ==> p.orders[b].status.IsTerminal()
  }

  /** What the expiry makes of an order. */
  predicate Passes(setup: Setup, outside: bool, world: World, id: OrderId, now: Time, m: Managed, n: Managed) {
    && n.status == StatusAfter(setup, outside, world, id, m, now)
    && n.order == m.order && n.filled == m.filled && (n.status == m.status ==> n == m)
  }

  /** Only one order of the book may differ. */
  ghost predicate OneDiffers(a: Oms, b: Oms, id: OrderId) {
    && id in a.orders && Consistent(b) && b.orders.Keys == a.orders.Keys
    && forall x :: x in a.orders && x != id ==> b.orders[x] == a.orders[x]
  }

  lemma FinishDiffers(oms: Oms, id: OrderId, status: OrderStatus, reason: string, now: Time)
    requires Consistent(oms) && id in oms.orders && !oms.orders[id].IsTerminal()
    ensures var t := MarkedFinished(oms, id, status, reason, now);
            && OneDiffers(oms, t, id) && t.orders[id].status == status
            && t.orders[id].order == oms.orders[id].order && t.orders[id].filled == oms.orders[id].filled
  {
  }

  lemma ExpireOneChooses(setup: Setup, s: Live, id: OrderId, now: Time, world: World)
    requires NothingOpen(s) && id in s.oms.orders && Overdue(s.oms.orders[id], setup.ttl, now)
    ensures var t, m := ExpireOne(setup, s, id, now, world), s.oms.orders[id];
            var status := StatusAfter(setup, s.venue.None?, world, id, m, now);
            && t == s.(oms := t.oms)
            && t.oms == if status == m.status then s.oms
                        else if status.Cancelled? then MarkedFinished(s.oms, id, Cancelled, "cancelled", now)
                        else MarkedFinished(s.oms, id, Expired, "expired", now)
  {
    match s.venue {
      case None =>
      case Some(p) => assert !CanCancel(p, s.oms.orders[id].brokerId);
    }
  }

  lemma ExpireOnePasses(setup: Setup, s: Live, id: OrderId, now: Time, world: World)
    requires Consistent(s.oms) && NothingOpen(s) && id in s.oms.orders && Overdue(s.oms.orders[id], setup.ttl, now)
    ensures var t := ExpireOne(setup, s, id, now, world);
            && t == s.(oms := t.oms) && OneDiffers(s.oms, t.oms, id)
            && Passes(setup, s.venue.None?, world, id, now, s.oms.orders[id], t.oms.orders[id])
  {
    ExpireOneChooses(setup, s, id, now, world);
    FinishDiffers(s.oms, id, Cancelled, "cancelled", now);
    FinishDiffers(s.oms, id, Expired, "expired", now);
  }

  /** The listed orders have passed the expiry, the others are as they were. */
  ghost predicate AllPass(setup: Setup, outside: bool, world: World, now: Time, a: Oms, b: Oms, ids: seq<OrderId>) {
    && Consistent(b) && b.orders.Keys == a.orders.Keys
    && (forall id :: id in ids && id in a.orders ==>
          Passes(setup, outside, world, id, now, a.orders[id], b.orders[id]))
    && forall x :: x in a.orders && x !in ids ==> b.orders[x] == a.orders[x]
  }

  lemma OneMorePasses(setup: Setup, outside: bool, world: World, now: Time, a: Oms, b: Oms, c: Oms, init: seq<OrderId>,
                      id: OrderId)
    requires AllPass(setup, outside, world, now, a, b, init) && OneDiffers(b, c, id) && id !in init
    requires Passes(setup, outside, world, id, now, b.orders[id], c.orders[id])
    ensures AllPass(setup, outside, world, now, a, c, init + [id])
  {
  }

  /** Each overdue order is dealt with once, the others are left alone. */
  lemma {:induction false} ExpireAllPasses(setup: Setup, s: Live, ids: seq<OrderId>, now: Time, world: World)
    requires Consistent(s.oms) && NothingOpen(s) && Distinct(ids)
    requires forall id :: id in ids ==> id in s.oms.orders && Overdue(s.oms.orders[id], setup.ttl, now)
    ensures var t := ExpireAll(setup, s, ids, now, world);
            t == s.(oms := t.oms) && AllPass(setup, s.venue.None?, world, now, s.oms, t.oms, ids)
  {
    if ids != [] {
      var init, id := ids[..|ids| - 1], ids[|ids| - 1];
      assert ids == init + [id];
      assert id !in init;
      ExpireAllPasses(setup, s, init, now, world);
      var before := ExpireAll(setup, s, init, now, world);
      assert before.oms.orders[id] == s.oms.orders[id];
      ExpireOnePasses(setup, before, id, now, world);
      OneMorePasses(setup, s.venue.None?, world, now, s.oms, before.oms, ExpireOne(setup, before, id, now, world).oms,
                    init, id);
    }
  }

  /** The orders of a tick after its draining poll and its expiry. */
  lemma ExpiryIsExact(setup: Setup, u: Live, now: Time, world: World)
    requires Consistent(u.oms) && NothingOpen(u)
    ensures var t := ExpireAll(setup, u, Stale(u.oms, u.oms.ids, setup.ttl, now), now, world);
            && t == u.(oms := t.oms) && t.oms.orders.Keys == u.oms.orders.Keys
            && forall id :: id in u.oms.orders ==>
                 Passes(setup, u.venue.None?, world, id, now, u.oms.orders[id], t.oms.orders[id])
  {
    StaleAreOverdue(u.oms, u.oms.ids, setup.ttl, now);
    ExpireAllPasses(setup, u, Stale(u.oms, u.oms.ids, setup.ttl, now), now, world);
  }

  /** What the poll of a tick leaves for the expiry. */
  ghost function PolledIn(setup: Setup, s: Live, t: Tick): Live {
    Polled(setup, Priced(Connected(s), Closes(t.bars)), t.now, t.world, true)
  }

  lemma OutsideIsOpen(setup: Setup, s: Live, t: Tick)
    requires Sound(s) && s.venue.None?
    ensures Consistent(PolledIn(setup, s, t).oms) && NothingOpen(PolledIn(setup, s, t))
  {
    var p := Priced(Connected(s), Closes(t.bars)).(lastPoll := Some(t.now));
    PolledEvolves(setup, Priced(Connected(s), Closes(t.bars)), t.now, t.world, true);
    PollKeepsRest(setup, p, Working(p.oms, p.oms.ids), t.now, t.world);
  }

  lemma PaperIsSettled(setup: Setup, s: Live, start: real, k: nat, t: Tick)
    requires RunOk(s, start, k)
    ensures Consistent(PolledIn(setup, s, t).oms) && NothingOpen(PolledIn(setup, s, t))
  {
    var p := Priced(Connected(s), Closes(t.bars));
    PricedKeeps(s, start, k, t.bars);
    PollDrainsAll(setup, p, start, k, t.now, t.world, true);
    DrainKeepsRest(setup, p, LogOf(p), t.now);
  }

  lemma TickKeepsKind(setup: Setup, s: Live, t: Tick)
    requires setup.trade.Valid() && Sound(s)
    ensures SameKind(s, Ticked(setup, s, t))
  {
    if t.bars != map[] {
      PreparedKeepsKind(setup, s, t);
      if !t.fails {
        BatchKeepsKind(setup, Prepared(setup, s, t), t, EventsOf(setup, s, t));
        BatchDoneEvolves(setup, s, t);
        PolledKeepsKind(setup, BatchDone(setup, s, t), t.now, t.world, false);
      }
    }
  }

  lemma PreparedKeepsKind(setup: Setup, s: Live, t: Tick)
    requires Sound(s)
    ensures SameKind(s, Prepared(setup, s, t))
  {
    var p, u := Priced(Connected(s), Closes(t.bars)), PolledIn(setup, s, t);
    PolledKeepsKind(setup, p, t.now, t.world, true);
    ExpireKeepsKind(setup, u, Stale(u.oms, u.oms.ids, setup.ttl, t.now), t.now, t.world);
  }

  lemma {:induction false} RunKeepsKind(setup: Setup, s: Live, ticks: seq<Tick>)
    requires setup.trade.Valid() && Sound(s)
    ensures SameKind(s, Run(setup, s, ticks))
  {
    if ticks != [] {
      RunEvolves(setup, s, ticks[..|ticks| - 1]);
      RunKeepsKind(setup, s, ticks[..|ticks| - 1]);
      TickKeepsKind(setup, Run(setup, s, ticks[..|ticks| - 1]), ticks[|ticks| - 1]);
    }
  }

  /** Over every run with an outside broker, and every paper session, each order that is open too long when a tick has
      polled is cancelled, expired, or left to an outside broker that does not answer, before the tick trades; no
      other order changes. */
  lemma OverdueOrdersEnd(setup: Setup, s: Live, ticks: seq<Tick>, t: Tick)
    requires setup.trade.Valid() && Sound(s)
    requires s.venue.None? || (FairTerms(setup.terms) && FreshSession(setup, s))
    ensures var u, r := PolledIn(setup, Run(setup, s, ticks), t), Prepared(setup, Run(setup, s, ticks), t);
            && r.oms.orders.Keys == u.oms.orders.Keys
            && forall id :: id in u.oms.orders ==>
                 Passes(setup, s.venue.None?, t.world, id, t.now, u.oms.orders[id], r.oms.orders[id])
  {
    var before := Run(setup, s, ticks);
    RunEvolves(setup, s, ticks);
    RunKeepsKind(setup, s, ticks);
    PolledKeepsKind(setup, Priced(Connected(before), Closes(t.bars)), t.now, t.world, true);
    if s.venue.None? {
      OutsideIsOpen(setup, before, t);
    } else {
      var k := RunKeeps(setup, s, ticks);
      PaperIsSettled(setup, before, setup.terms.initialCapital, k, t);
    }
    ExpiryIsExact(setup, PolledIn(setup, before, t), t.now, t.world);
  }
}
