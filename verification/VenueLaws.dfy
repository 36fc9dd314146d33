/** Laws of the live engine that hold with every broker, whatever it answers: how a submission ends, that terminal
    orders stay as they are, and that the audit log can restart a session. */
module VenueLaws {
  import opened Models
  import opened SignalBatch
  import opened BatchBounds
  import opened OrderManager
  import opened OrderLaws
  import opened PaperBroker
  import opened LiveModel
  import opened LiveRuns

  // ---- How a submission ends -----------------------------------------------------------------

  /** The answer to the placement with a given number of failures before it. */
  function OutcomeAt(setup: Setup, s: Live, order: Order, attempt: nat, now: Time, world: World): Outcome {
    PlaceAt(setup, s, order, attempt, now, world).1
  }

  /** How many placements in a row fail to connect, from a given attempt on. */
  function Failures(setup: Setup, s: Live, order: Order, attempt: nat, now: Time, world: World): nat
    decreases setup.maxRetries + 1 - attempt
  {
    if attempt > setup.maxRetries || setup.dryRun
      || !OutcomeAt(setup, s, order, attempt, now, world).ConnectionError? then 0
    else 1 + Failures(setup, s, order, attempt + 1, now, world)
  }

  /** The order is pending and new to the broker. */
  predicate Fresh(oms: Oms, order: Order) {
    && order.id in oms.orders
    && var m := oms.orders[order.id];
       m.order == order && m.status.Pending? && m.filled == 0 && m.avgPrice == 0.0
  }

  /** Only one order differs, and it has taken no fill. */
  predicate OnlyChanges(a: Oms, b: Oms, order: Order) {
    && b.orders.Keys == a.orders.Keys + {order.id}
    && (forall id :: id in a.orders && id != order.id ==> b.orders[id] == a.orders[id])
    && b.orders[order.id].order == order && b.orders[order.id].filled == 0 && b.orders[order.id].avgPrice == 0.0
  }

  /** How an order ends that has seen `failures` connection errors and then perhaps an answer. */
  predicate Ends(setup: Setup, s: Live, m: Managed, order: Order, failures: nat, now: Time, world: World) {
    if setup.dryRun then Accepted(m, "DRY-RUN-" + world.token(order.id), now)
    else if failures > setup.maxRetries then m.status.Rejected? && m.terminalAt == Some(now)
    else
      match OutcomeAt(setup, s, order, failures, now, world)
      case Placed(brokerId) => Accepted(m, brokerId, now)
      case OrderError(reason) => Turned(m, reason, now)
      case OtherError(reason) => Turned(m, reason, now)
      case ConnectionError(_) => false
  }

  predicate Accepted(m: Managed, brokerId: string, now: Time) {
    m.status.Submitted? && m.brokerId == brokerId && m.submittedAt == Some(now)
  }

  predicate Turned(m: Managed, reason: string, now: Time) {
    m.status.Rejected? && m.rejection == reason && m.terminalAt == Some(now)
  }

  lemma FailedPlacementChangesNothing(setup: Setup, s: Live, order: Order, attempt: nat, now: Time, world: World)
    requires !OutcomeAt(setup, s, order, attempt, now, world).Placed?
    ensures PlaceAt(setup, s, order, attempt, now, world).0 == s
  {
  }

  /** The end of the loop from a given attempt on. */
  predicate Ended(setup: Setup, s: Live, t: Oms, order: Order, attempt: nat, failures: nat, now: Time, world: World) {
    && order.id in s.oms.orders && OnlyChanges(s.oms, t, order)
    && t.orders[order.id].retries == s.oms.orders[order.id].retries + failures
    && attempt + failures <= setup.maxRetries + 1
    && Ends(setup, s, t.orders[order.id], order, attempt + failures, now, world)
  }

  lemma {:induction false} AttemptsEnd(setup: Setup, s: Live, order: Order, attempt: nat, now: Time, world: World)
    requires Fresh(s.oms, order) && attempt <= setup.maxRetries
    ensures Ended(setup, s, Attempts(setup, s, order, attempt, now, world).oms, order, attempt,
                  Failures(setup, s, order, attempt, now, world), now, world)
    decreases setup.maxRetries + 1 - attempt
  {
    if setup.dryRun || !OutcomeAt(setup, s, order, attempt, now, world).ConnectionError? {
      AnswerEnds(setup, s, order, attempt, now, world);
    } else {
      RetryContinues(setup, s, order, attempt, now, world);
      var u := s.(oms := Retried(s.oms, order.id, now));
      if attempt < setup.maxRetries {
        AttemptsEnd(setup, u, order, attempt + 1, now, world);
        SameFailures(setup, s, u, order, attempt + 1, now, world);
        OneMoreFailure(setup, s, u, Attempts(setup, u, order, attempt + 1, now, world).oms, order, attempt,
                       Failures(setup, u, order, attempt + 1, now, world), now, world);
      }
    }
  }

  lemma OneMoreFailure(setup: Setup, s: Live, u: Live, t: Oms, order: Order, attempt: nat, failures: nat, now: Time,
                       world: World)
    requires order.id in s.oms.orders && OnlyChanges(s.oms, u.oms, order) && u.venue == s.venue
    requires u.oms.orders[order.id].retries == s.oms.orders[order.id].retries + 1
    requires Ended(setup, u, t, order, attempt + 1, failures, now, world)
    ensures Ended(setup, s, t, order, attempt, failures + 1, now, world)
  {
    SameFailures(setup, s, u, order, attempt, now, world);
  }

  /** After a failed connection the loop goes on, or gives up after the last attempt. */
  lemma RetryContinues(setup: Setup, s: Live, order: Order, attempt: nat, now: Time, world: World)
    requires attempt <= setup.maxRetries && !setup.dryRun && Fresh(s.oms, order)
    requires OutcomeAt(setup, s, order, attempt, now, world).ConnectionError?
    ensures var u := s.(oms := Retried(s.oms, order.id, now));
            var t := Attempts(setup, s, order, attempt, now, world);
            && Fresh(u.oms, order) && OnlyChanges(s.oms, u.oms, order)
            && u.oms.orders[order.id].retries == s.oms.orders[order.id].retries + 1
            && (attempt < setup.maxRetries ==> t == Attempts(setup, u, order, attempt + 1, now, world))
            && (attempt == setup.maxRetries ==> Ended(setup, s, t.oms, order, attempt, 1, now, world))
  {
    FailedPlacementChangesNothing(setup, s, order, attempt, now, world);
    var reason := "connection_error: " + OutcomeAt(setup, s, order, attempt, now, world).reason;
    var u := s.(oms := Retried(s.oms, order.id, now));
    assert attempt == setup.maxRetries ==>
        Attempts(setup, s, order, attempt, now, world) == u.(oms := MarkedRejected(u.oms, order.id, reason, now));
  }

  lemma AnswerEnds(setup: Setup, s: Live, order: Order, attempt: nat, now: Time, world: World)
    requires attempt <= setup.maxRetries && Fresh(s.oms, order)
    requires setup.dryRun || !OutcomeAt(setup, s, order, attempt, now, world).ConnectionError?
    ensures Ended(setup, s, Attempts(setup, s, order, attempt, now, world).oms, order, attempt, 0, now, world)
  {
    if setup.dryRun {
      PendingChanges(s.oms, order, "DRY-RUN-" + world.token(order.id), "", now);
    } else {
      match OutcomeAt(setup, s, order, attempt, now, world)
      case Placed(brokerId) => PendingChanges(s.oms, order, brokerId, "", now);
      case OrderError(reason) => PendingChanges(s.oms, order, "", reason, now);
      case OtherError(reason) => PendingChanges(s.oms, order, "", reason, now);
    }
  }

  /** What marking a new order does. */
  lemma PendingChanges(oms: Oms, order: Order, brokerId: string, reason: string, now: Time)
    requires Fresh(oms, order)
    ensures var t := MarkedSubmitted(oms, order.id, brokerId, now);
            var m := t.orders[order.id];
            OnlyChanges(oms, t, order) && Accepted(m, brokerId, now)
                && m.retries == oms.orders[order.id].retries
    ensures var t := MarkedRejected(oms, order.id, reason, now);
            var m := t.orders[order.id];
            OnlyChanges(oms, t, order) && Turned(m, reason, now)
                && m.retries == oms.orders[order.id].retries
  {
  }

  /** Failures depend on the venue alone. */
  lemma {:induction false} SameFailures(setup: Setup, s: Live, u: Live, order: Order, attempt: nat, now: Time,
                                        world: World)
    requires u.venue == s.venue
    ensures Failures(setup, u, order, attempt, now, world) == Failures(setup, s, order, attempt, now, world)
    ensures forall a: nat :: OutcomeAt(setup, u, order, a, now, world) == OutcomeAt(setup, s, order, a, now, world)
    decreases setup.maxRetries + 1 - attempt
  {
    if attempt <= setup.maxRetries {
      SameFailures(setup, s, u, order, attempt + 1, now, world);
    }
  }

  /** Every submission returns after at most `maxRetries + 1` placements with the order SUBMITTED or REJECTED:
      submitted exactly when the first answer that is not a connection failure accepts it. The retry count is
      the number of connection failures, and no other order changes. A known id is not sent again. */
  lemma SubmissionEnds(setup: Setup, s: Live, order: Order, now: Time, world: World)
    ensures order.id in s.oms.orders ==> Sent(setup, s, order, now, world) == s
    ensures order.id !in s.oms.orders ==>
              var t := Sent(setup, s, order, now, world);
              var failures := Failures(setup, s, order, 0, now, world);
              && OnlyChanges(s.oms, t.oms, order)
              && t.oms.orders[order.id].retries == failures <= setup.maxRetries + 1
              && Ends(setup, s, t.oms.orders[order.id], order, failures, now, world)
  {
    if order.id !in s.oms.orders {
      var c := s.(oms := Created(s.oms, order, now));
      AttemptsEnd(setup, c, order, 0, now, world);
      SameFailures(setup, s, c, order, 0, now, world);
    }
  }

  // ---- What every step keeps -----------------------------------------------------------------

  /** An order keeps its identity, loses no fill, and once terminal changes neither status, quantity nor price. */
  predicate Kept(m: Managed, n: Managed) {
    && n.order == m.order && n.filled >= m.filled
    && (m.IsTerminal() ==> n.status == m.status && n.filled == m.filled && n.avgPrice == m.avgPrice)
  }

  ghost predicate Grows(a: Oms, b: Oms) {
    && Consistent(b)
    && (forall id :: id in a.orders ==> id in b.orders && Kept(a.orders[id], b.orders[id]))
    && (forall id :: id in b.orders && id !in a.orders ==> b.orders[id].order.kind.Market?)
  }

  ghost predicate Evolves(a: Oms, b: Oms) {
    Grows(a, b) && (Faithful(a) ==> Faithful(b)) && KeepsCounts(a, b)
  }

  /** What follows on one order ends with a line about it, which brings its retry count up to date. */
  ghost predicate Settles(a: Oms, b: Oms, id: OrderId) {
    && Grows(a, b) && (Faithful(a) ==> Faithful(b))
    && CountLogged(b, id) && forall x :: x != id && CountLogged(a, x) ==> CountLogged(b, x)
  }

  lemma EvolvesOn(a: Oms, b: Oms, c: Oms)
    requires Evolves(a, b) && Evolves(b, c)
    ensures Evolves(a, c)
  {
    GrowsOn(a, b, c);
  }

  lemma GrowsOn(a: Oms, b: Oms, c: Oms)
    requires Grows(a, b) && Grows(b, c)
    ensures Grows(a, c)
  {
    forall id | id in a.orders ensures id in c.orders && Kept(a.orders[id], c.orders[id]) {
      assert Kept(a.orders[id], b.orders[id]);
    }
    forall id | id in c.orders && id !in a.orders ensures c.orders[id].order.kind.Market? {
      if id in b.orders {
        assert Kept(b.orders[id], c.orders[id]);
      }
    }
  }

  lemma FillEvolves(s: Oms, id: OrderId, quantity: int, price: real, fill: Option<Fill>, now: Time)
    requires Consistent(s)
    ensures Evolves(s, FillApplied(s, id, quantity, price, fill, now))
  {
    FillGrows(s, id, quantity, price, fill, now);
    StepKeepsCounts(s, FillOp(id, quantity, price, fill), now);
    if Faithful(s) {
      FillKeeps(s, id, quantity, price, fill, now);
    }
  }

  lemma FillGrows(s: Oms, id: OrderId, quantity: int, price: real, fill: Option<Fill>, now: Time)
    requires Consistent(s)
    ensures Grows(s, FillApplied(s, id, quantity, price, fill, now))
  {
  }

  lemma FinishEvolves(s: Oms, id: OrderId, status: OrderStatus, reason: string, now: Time)
    requires Consistent(s)
    ensures var t := MarkedFinished(s, id, status, reason, now); Evolves(s, t) && t.orders.Keys == s.orders.Keys
  {
    if id in s.orders && !s.orders[id].IsTerminal() {
      PutGrows(s, MarkedFinished(s, id, status, reason, now), id);
      WrittenSettles(s, Finish(s.orders[id], status, reason, now), MarkedFinished(s, id, status, reason, now));
    }
    if Faithful(s) {
      FinishKeeps(s, id, status, reason, now);
    }
  }

  lemma ReportEvolves(s: Oms, r: Report, payload: Option<string>, now: Time)
    requires Consistent(s)
    ensures var t := ReportApplied(s, r, payload, now); Evolves(s, t) && t.orders.Keys == s.orders.Keys
  {
    ReportGrows(s, r, payload, now);
    ReportKeepsCounts(s, r, payload, now);
    if Faithful(s) {
      ReportKeeps(s, r, payload, now);
    }
  }

  lemma ReportGrows(s: Oms, r: Report, payload: Option<string>, now: Time)
    requires Consistent(s)
    ensures var t := ReportApplied(s, r, payload, now); Grows(s, t) && t.orders.Keys == s.orders.Keys
  {
    ReportTouchesOne(s, r, payload, now);
    if Target(s, r).Some? {
      ReportedIsKept(s.orders[Target(s, r).value], r, payload, now);
    }
  }

  lemma ReportedIsKept(m: Managed, r: Report, payload: Option<string>, now: Time)
    ensures Kept(m, Reported(m, r, payload, now))
  {
    ReportsOnlyAdd(m, r, payload, now);
  }

  lemma CreateEvolves(s: Oms, order: Order, now: Time)
    requires Consistent(s) && order.kind.Market?
    ensures Evolves(s, Created(s, order, now))
  {
    CreateGrows(s, order, now);
    StepKeepsCounts(s, CreateOp(order), now);
    if Faithful(s) {
      CreateKeeps(s, order, now);
    }
  }

  lemma CreateGrows(s: Oms, order: Order, now: Time)
    requires Consistent(s) && order.kind.Market?
    ensures Grows(s, Created(s, order, now))
  {
    DistinctIfNew(s, order.id);
  }

  lemma DistinctIfNew(s: Oms, id: OrderId)
    requires Consistent(s)
    ensures id !in s.orders ==> Distinct(s.ids + [id])
  {
    if id !in s.orders {
      DistinctAppend(s.ids, id);
    }
  }

  lemma WrittenSettles(s: Oms, m: Managed, t: Oms)
    requires Writes(s, m, t)
    ensures KeepsCounts(s, t) && CountLogged(t, m.order.id)
  {
    WrittenIsCounted(s, m, t, m.order.id);
    forall id | CountLogged(s, id) ensures CountLogged(t, id) {
      WrittenIsCounted(s, m, t, id);
    }
  }

  lemma SubmitSettles(s: Oms, id: OrderId, brokerId: string, now: Time)
    requires Consistent(s) && id in s.orders && s.orders[id].status.Pending?
    ensures Settles(s, MarkedSubmitted(s, id, brokerId, now), id)
  {
    PutGrows(s, MarkedSubmitted(s, id, brokerId, now), id);
    WrittenSettles(s, Submit(s.orders[id], brokerId, now), MarkedSubmitted(s, id, brokerId, now));
    if Faithful(s) {
      SubmitKeeps(s, id, brokerId, now);
    }
  }

  lemma RejectSettles(s: Oms, id: OrderId, reason: string, now: Time)
    requires Consistent(s) && id in s.orders && s.orders[id].status.Pending?
    ensures Settles(s, MarkedRejected(s, id, reason, now), id)
  {
    PutGrows(s, MarkedRejected(s, id, reason, now), id);
    WrittenSettles(s, Reject(s.orders[id], reason, now), MarkedRejected(s, id, reason, now));
    if Faithful(s) {
      RejectKeeps(s, id, reason, now);
    }
  }

  /** A retry is not written, and touches no other order. */
  lemma RetryGrows(s: Oms, id: OrderId, now: Time)
    requires Consistent(s) && id in s.orders
    ensures var t := Retried(s, id, now);
            && Grows(s, t) && (Faithful(s) ==> Faithful(t))
            && id in t.orders && t.orders[id].status == s.orders[id].status
            && forall x :: x != id && CountLogged(s, x) ==> CountLogged(t, x)
  {
    PutGrows(s, Retried(s, id, now), id);
    forall x | x != id && CountLogged(s, x) ensures CountLogged(Retried(s, id, now), x) {
      StepCounts(s, RetryOp(id), now, x);
    }
    if Faithful(s) {
      RetryKeeps(s, id, now);
    }
  }

  /** Changing one order in an admissible way. */
  lemma PutGrows(s: Oms, t: Oms, id: OrderId)
    requires Consistent(s) && id in s.orders && t.ids == s.ids && t.orders.Keys == s.orders.Keys
    requires Kept(s.orders[id], t.orders[id]) && forall x :: x in s.orders && x != id ==> t.orders[x] == s.orders[x]
    ensures Grows(s, t)
  {
  }

  // ---- The steps of a tick -------------------------------------------------------------------

  lemma {:induction false} DrainEvolves(setup: Setup, s: Live, log: seq<Fill>, now: Time)
    requires Consistent(s.oms)
    ensures Evolves(s.oms, Drained(setup, s, log, now).oms)
  {
    if log != [] {
      var before, f := Drained(setup, s, log[..|log| - 1], now), log[|log| - 1];
      DrainEvolves(setup, s, log[..|log| - 1], now);
      if f.orderId in before.oms.orders {
        var m := before.oms.orders[f.orderId];
        FillEvolves(before.oms, f.orderId, Excess(f.quantity, m.filled), f.fillPrice, Some(f), now);
      }
      EvolvesOn(s.oms, before.oms, DrainOne(setup, before, f, now).oms);
    }
  }

  lemma {:induction false} PollEvolves(setup: Setup, s: Live, ids: seq<OrderId>, now: Time, world: World)
    requires Consistent(s.oms)
    ensures var t := PollAll(setup, s, ids, now, world).oms; Evolves(s.oms, t) && t.orders.Keys == s.oms.orders.Keys
  {
    if ids != [] {
      var before, id := PollAll(setup, s, ids[..|ids| - 1], now, world), ids[|ids| - 1];
      PollEvolves(setup, s, ids[..|ids| - 1], now, world);
      PollOneEvolves(setup, before, id, now, world);
      EvolvesOn(s.oms, before.oms, PollOne(setup, before, id, now, world).oms);
    }
  }

  lemma PollOneEvolves(setup: Setup, s: Live, id: OrderId, now: Time, world: World)
    requires Consistent(s.oms)
    ensures var t := PollOne(setup, s, id, now, world).oms; Evolves(s.oms, t) && t.orders.Keys == s.oms.orders.Keys
  {
    PollOneIsReport(setup, s, id, now, world);
    if id in world.reports && PollOne(setup, s, id, now, world).oms
      == ReportApplied(s.oms, world.reports[id], None, now) {
      ReportEvolves(s.oms, world.reports[id], None, now);
    } else {
      SameEvolves(s.oms);
    }
  }

  lemma PollOneIsReport(setup: Setup, s: Live, id: OrderId, now: Time, world: World)
    ensures var t := PollOne(setup, s, id, now, world).oms;
            t == s.oms || (id in world.reports && t == ReportApplied(s.oms, world.reports[id], None, now))
  {
  }

  lemma PolledEvolves(setup: Setup, s: Live, now: Time, world: World, force: bool)
    requires Consistent(s.oms)
    ensures var t := Polled(setup, s, now, world, force);
            Evolves(s.oms, t.oms) && t.oms.orders.Keys == s.oms.orders.Keys && t.nextId == s.nextId
  {
    match s.venue {
      case Some(p) =>
        DrainEvolves(setup, s, p.fillLog, now);
        DrainKeepsRest(setup, s, p.fillLog, now);
      case None =>
        var t := s.(lastPoll := Some(now));
        PollEvolves(setup, t, Working(s.oms, s.oms.ids), now, world);
        PollKeepsRest(setup, t, Working(s.oms, s.oms.ids), now, world);
    }
  }

  lemma {:induction false} PollKeepsRest(setup: Setup, s: Live, ids: seq<OrderId>, now: Time, world: World)
    ensures var t := PollAll(setup, s, ids, now, world); t == s.(oms := t.oms, book := t.book, stops := t.stops)
  {
    if ids != [] {
      PollKeepsRest(setup, s, ids[..|ids| - 1], now, world);
    }
  }

  lemma ExpireOneEvolves(setup: Setup, s: Live, id: OrderId, now: Time, world: World)
    requires Consistent(s.oms)
    ensures var t := ExpireOne(setup, s, id, now, world).oms; Evolves(s.oms, t) && t.orders.Keys == s.oms.orders.Keys
  {
    FinishEvolves(s.oms, id, Cancelled, "cancelled", now);
    FinishEvolves(s.oms, id, Expired, "expired", now);
    ExpireOneIsFinish(setup, s, id, now, world);
  }

  lemma ExpireOneIsFinish(setup: Setup, s: Live, id: OrderId, now: Time, world: World)
    ensures var t := ExpireOne(setup, s, id, now, world);
            && t == s.(oms := t.oms, venue := t.venue)
            && (t.oms == s.oms || t.oms == MarkedFinished(s.oms, id, Cancelled, "cancelled", now)
                || t.oms == MarkedFinished(s.oms, id, Expired, "expired", now))
  {
  }

  lemma {:induction false} ExpireEvolves(setup: Setup, s: Live, ids: seq<OrderId>, now: Time, world: World)
    requires Consistent(s.oms)
    ensures var t := ExpireAll(setup, s, ids, now, world).oms; Evolves(s.oms, t) && t.orders.Keys == s.oms.orders.Keys
  {
    if ids != [] {
      var before := ExpireAll(setup, s, ids[..|ids| - 1], now, world);
      ExpireEvolves(setup, s, ids[..|ids| - 1], now, world);
      ExpireOneEvolves(setup, before, ids[|ids| - 1], now, world);
      EvolvesOn(s.oms, before.oms, ExpireOne(setup, before, ids[|ids| - 1], now, world).oms);
    }
  }

  lemma {:induction false} ExpireKeepsRest(setup: Setup, s: Live, ids: seq<OrderId>, now: Time, world: World)
    ensures var t := ExpireAll(setup, s, ids, now, world); t == s.(oms := t.oms, venue := t.venue)
  {
    if ids != [] {
      ExpireKeepsRest(setup, s, ids[..|ids| - 1], now, world);
      ExpireOneIsFinish(setup, ExpireAll(setup, s, ids[..|ids| - 1], now, world), ids[|ids| - 1], now, world);
    }
  }

  /** One attempt is one operation on the book, or a retry followed by the rest of the loop. */
  lemma AttemptIsOneOperation(setup: Setup, s: Live, order: Order, attempt: nat, now: Time, world: World)
    requires attempt <= setup.maxRetries
    ensures var t, u := Attempts(setup, s, order, attempt, now, world), Retry(setup, s, order, attempt, now, world);
            if !setup.dryRun && OutcomeAt(setup, s, order, attempt, now, world).ConnectionError? then
              if attempt < setup.maxRetries then t == Attempts(setup, u, order, attempt + 1, now, world)
              else t == u.(oms := MarkedRejected(u.oms, order.id, LastReason(setup, s, order, attempt, now, world),
                                                 now))
            else
              && t == s.(oms := t.oms, venue := t.venue)
              && ((exists brokerId :: t.oms == MarkedSubmitted(s.oms, order.id, brokerId, now))
                  || exists reason :: t.oms == MarkedRejected(s.oms, order.id, reason, now))
  {
  }

  function LastReason(setup: Setup, s: Live, order: Order, attempt: nat, now: Time, world: World): string
    requires OutcomeAt(setup, s, order, attempt, now, world).ConnectionError?
  {
    "connection_error: " + OutcomeAt(setup, s, order, attempt, now, world).reason
  }

  function Retry(setup: Setup, s: Live, order: Order, attempt: nat, now: Time, world: World): Live {
    PlaceAt(setup, s, order, attempt, now, world).0.(oms := Retried(s.oms, order.id, now))
  }

  lemma RetryKeepsRest(setup: Setup, s: Live, order: Order, attempt: nat, now: Time, world: World)
    ensures var u := Retry(setup, s, order, attempt, now, world); u == s.(oms := u.oms, venue := u.venue)
  {
  }

  lemma AnswerSettles(setup: Setup, s: Live, order: Order, attempt: nat, now: Time, world: World)
    requires Consistent(s.oms) && order.id in s.oms.orders && s.oms.orders[order.id].status.Pending?
    requires attempt <= setup.maxRetries
    requires setup.dryRun || !OutcomeAt(setup, s, order, attempt, now, world).ConnectionError?
    ensures Settles(s.oms, Attempts(setup, s, order, attempt, now, world).oms, order.id)
  {
    var t := Attempts(setup, s, order, attempt, now, world);
    AttemptIsOneOperation(setup, s, order, attempt, now, world);
    if brokerId :| t.oms == MarkedSubmitted(s.oms, order.id, brokerId, now) {
      SubmitSettles(s.oms, order.id, brokerId, now);
    } else {
      var reason :| t.oms == MarkedRejected(s.oms, order.id, reason, now);
      RejectSettles(s.oms, order.id, reason, now);
    }
  }

  /** What settles an order after a retry settles it with the retry. */
  lemma RetrySettlesOn(s: Oms, id: OrderId, now: Time, after: Oms)
    requires Consistent(s) && id in s.orders && Settles(Retried(s, id, now), after, id)
    ensures Settles(s, after, id)
  {
    RetryGrows(s, id, now);
    GrowsOn(s, Retried(s, id, now), after);
  }

  lemma LastRetrySettles(s: Oms, id: OrderId, reason: string, now: Time)
    requires Consistent(s) && id in s.orders && s.orders[id].status.Pending?
    ensures Settles(s, MarkedRejected(Retried(s, id, now), id, reason, now), id)
  {
    RetryGrows(s, id, now);
    RejectSettles(Retried(s, id, now), id, reason, now);
    RetrySettlesOn(s, id, now, MarkedRejected(Retried(s, id, now), id, reason, now));
  }

  lemma {:induction false} AttemptsSettle(setup: Setup, s: Live, order: Order, attempt: nat, now: Time, world: World)
    requires Consistent(s.oms) && order.id in s.oms.orders && s.oms.orders[order.id].status.Pending?
    requires attempt <= setup.maxRetries
    ensures Settles(s.oms, Attempts(setup, s, order, attempt, now, world).oms, order.id)
    decreases setup.maxRetries + 1 - attempt
  {
    if setup.dryRun || !OutcomeAt(setup, s, order, attempt, now, world).ConnectionError? {
      AnswerSettles(setup, s, order, attempt, now, world);
    } else if attempt < setup.maxRetries {
      AttemptIsOneOperation(setup, s, order, attempt, now, world);
      var u := Retry(setup, s, order, attempt, now, world);
      RetryGrows(s.oms, order.id, now);
      AttemptsSettle(setup, u, order, attempt + 1, now, world);
      RetrySettlesOn(s.oms, order.id, now, Attempts(setup, u, order, attempt + 1, now, world).oms);
    } else {
      AttemptIsOneOperation(setup, s, order, attempt, now, world);
      LastRetrySettles(s.oms, order.id, LastReason(setup, s, order, attempt, now, world), now);
    }
  }

  lemma {:induction false} AttemptsKeepRest(setup: Setup, s: Live, order: Order, attempt: nat, now: Time, world: World)
    ensures var t := Attempts(setup, s, order, attempt, now, world); t == s.(oms := t.oms, venue := t.venue)
    decreases setup.maxRetries + 1 - attempt
  {
    if attempt <= setup.maxRetries {
      AttemptIsOneOperation(setup, s, order, attempt, now, world);
      RetryKeepsRest(setup, s, order, attempt, now, world);
      if attempt < setup.maxRetries {
        AttemptsKeepRest(setup, Retry(setup, s, order, attempt, now, world), order, attempt + 1, now, world);
      }
    }
  }

  lemma SettlingEvolves(a: Oms, b: Oms, id: OrderId)
    requires Settles(a, b, id)
    ensures Evolves(a, b)
  {
  }

  lemma SentEvolves(setup: Setup, s: Live, order: Order, now: Time, world: World)
    requires Consistent(s.oms) && order.id !in s.oms.orders && order.kind.Market?
    ensures var t := Sent(setup, s, order, now, world);
            Evolves(s.oms, t.oms) && t == s.(oms := t.oms, venue := t.venue)
  {
    var c := s.(oms := Created(s.oms, order, now));
    CreateEvolves(s.oms, order, now);
    AttemptsSettle(setup, c, order, 0, now, world);
    AttemptsKeepRest(setup, c, order, 0, now, world);
    SettlingEvolves(c.oms, Sent(setup, s, order, now, world).oms, order.id);
    EvolvesOn(s.oms, c.oms, Sent(setup, s, order, now, world).oms);
  }

  lemma {:induction false} SubmitAllEvolves(setup: Setup, s: Live, orders: seq<Order>, lo: OrderId, hi: OrderId,
                                            now: Time, world: World)
    requires Consistent(s.oms) && Issued(orders, lo, hi, now) && forall id :: id in s.oms.orders ==> id < lo
    ensures var t := SubmitAll(setup, s, orders, now, world);
            && Evolves(s.oms, t.oms) && t == s.(oms := t.oms, venue := t.venue)
            && forall id :: id in t.oms.orders ==> id in s.oms.orders || exists o :: o in orders && o.id == id
  {
    if orders != [] {
      var init, o := orders[..|orders| - 1], orders[|orders| - 1];
      IssuedPrefix(orders, lo, hi, now);
      SubmitAllEvolves(setup, s, init, lo, hi, now, world);
      var before := SubmitAll(setup, s, init, now, world);
      SentEvolves(setup, before, o, now, world);
      SubmissionEnds(setup, before, o, now, world);
      EvolvesOn(s.oms, before.oms, Sent(setup, before, o, now, world).oms);
    }
  }

  // ---- Runs ----------------------------------------------------------------------------------

  ghost predicate Sound(s: Live) {
    Consistent(s.oms) && IdsBelow(s)
  }

  lemma BatchEvolves(setup: Setup, s: Live, t: Tick, events: seq<Signal>)
    requires setup.trade.Valid() && Sound(s)
    ensures var r := Batched(setup, s, t, events);
            Sound(r) && Evolves(s.oms, r.oms) && r.book == s.book
  {
    var d := DeskAt(s, t, events);
    var candidates := BatchPlan(setup, s, t, events).1;
    CandidateIds(setup.trade, d, s.day, s.nextId, t.now);
    var todo := UpTo(candidates, t.crash);
    RoutedIds(setup.trade, setup.sectors, s.gate, s.book, todo, Closes(t.bars), s.nextId, t.now);
    BatchSubmitsPassing(setup, s, t, events);
    var staged := Staged(setup, s, t, events);
    SubmitAllEvolves(setup, staged, Passing(setup, s, t, events), s.nextId, s.nextId + |todo|, t.now, t.world);
  }

  lemma PreparedEvolves(setup: Setup, s: Live, t: Tick)
    requires Sound(s)
    ensures var r := Prepared(setup, s, t); Sound(r) && Evolves(s.oms, r.oms)
  {
    var p := Priced(Connected(s), Closes(t.bars));
    var polled := Polled(setup, p, t.now, t.world, true);
    var stale := Stale(polled.oms, polled.oms.ids, setup.ttl, t.now);
    PolledEvolves(setup, p, t.now, t.world, true);
    ExpireEvolves(setup, polled, stale, t.now, t.world);
    ExpireKeepsRest(setup, polled, stale, t.now, t.world);
    EvolvesOn(s.oms, polled.oms, ExpireAll(setup, polled, stale, t.now, t.world).oms);
  }

  lemma BatchDoneEvolves(setup: Setup, s: Live, t: Tick)
    requires setup.trade.Valid() && Sound(s)
    ensures var r := BatchDone(setup, s, t); Sound(r) && Evolves(s.oms, r.oms)
  {
    var r := Prepared(setup, s, t);
    PreparedEvolves(setup, s, t);
    BatchEvolves(setup, r, t, EventsOf(setup, s, t));
    EvolvesOn(s.oms, r.oms, BatchDone(setup, s, t).oms);
  }

  lemma SameEvolves(s: Oms)
    requires Consistent(s)
    ensures Evolves(s, s)
  {
  }

  lemma TickEvolves(setup: Setup, s: Live, t: Tick)
    requires setup.trade.Valid() && Sound(s)
    ensures var r := Ticked(setup, s, t); Sound(r) && Evolves(s.oms, r.oms)
  {
    if t.bars == map[] {
      SameEvolves(s.oms);
    } else if t.fails {
      PreparedEvolves(setup, s, t);
    } else {
      BatchDoneEvolves(setup, s, t);
      if t.crash.None? {
        var d := BatchDone(setup, s, t);
        PolledEvolves(setup, d, t.now, t.world, false);
        EvolvesOn(s.oms, d.oms, Finished(setup, d, t).oms);
      }
    }
  }

  lemma {:induction false} RunEvolves(setup: Setup, s: Live, ticks: seq<Tick>)
    requires setup.trade.Valid() && Sound(s)
    ensures var r := Run(setup, s, ticks); Sound(r) && Evolves(s.oms, r.oms)
  {
    if ticks == [] {
      SameEvolves(s.oms);
    } else {
      var before := Run(setup, s, ticks[..|ticks| - 1]);
      RunEvolves(setup, s, ticks[..|ticks| - 1]);
      TickEvolves(setup, before, ticks[|ticks| - 1]);
      EvolvesOn(s.oms, before.oms, Run(setup, s, ticks).oms);
    }
  }

  lemma {:induction false} RunSplits(setup: Setup, s: Live, ticks: seq<Tick>, more: seq<Tick>)
    requires setup.trade.Valid()
    ensures Run(setup, s, ticks + more) == Run(setup, Run(setup, s, ticks), more)
  {
    if more == [] {
      assert ticks + more == ticks;
    } else {
      RunSplits(setup, s, ticks, more[..|more| - 1]);
      LastOfConcat(ticks, more);
      OneTickMore(setup, s, ticks, more[..|more| - 1], more[|more| - 1]);
    }
  }

  lemma LastOfConcat<T>(a: seq<T>, b: seq<T>)
    requires b != []
    ensures a + b == (a + b[..|b| - 1]) + [b[|b| - 1]] && b == b[..|b| - 1] + [b[|b| - 1]]
  {
  }

  lemma OneTickMore(setup: Setup, s: Live, ticks: seq<Tick>, init: seq<Tick>, last: Tick)
    requires setup.trade.Valid() && Run(setup, s, ticks + init) == Run(setup, Run(setup, s, ticks), init)
    ensures Run(setup, s, (ticks + init) + [last]) == Run(setup, Run(setup, s, ticks), init + [last])
  {
    RunUnfolds(setup, s, ticks + init, last);
    RunUnfolds(setup, Run(setup, s, ticks), init, last);
  }

  lemma RunUnfolds(setup: Setup, s: Live, ticks: seq<Tick>, t: Tick)
    requires setup.trade.Valid()
    ensures Run(setup, s, ticks + [t]) == Ticked(setup, Run(setup, s, ticks), t)
  {
    assert (ticks + [t])[..|ticks|] == ticks;
  }

  /** In every run with every broker, no order is ever lost and no fill taken back, and an order once terminal
      keeps its status, quantity and average price for good. */
  lemma TerminalOrdersStay(setup: Setup, s: Live, ticks: seq<Tick>, more: seq<Tick>, id: OrderId)
    requires setup.trade.Valid() && Sound(s) && id in Run(setup, s, ticks).oms.orders
    ensures id in Run(setup, s, ticks + more).oms.orders
    ensures Kept(Run(setup, s, ticks).oms.orders[id], Run(setup, s, ticks + more).oms.orders[id])
  {
    RunEvolves(setup, s, ticks);
    RunEvolves(setup, Run(setup, s, ticks), more);
    RunSplits(setup, s, ticks, more);
  }

  /** The log has all retry counts. */
  ghost predicate AllCounted(s: Oms) {
    forall id :: CountLogged(s, id)
  }

  /** What a replay gives back of a book: every order in its place, with its retry count. */
  ghost predicate Replays(a: Oms, b: Oms) {
    && b.ids == a.ids
    && forall id :: id in a.orders ==>
         id in b.orders && Restored(a.orders[id], b.orders[id]) && b.orders[id].retries == a.orders[id].retries
  }

  lemma BookReplays(s: Oms)
    requires Faithful(s) && AllMarket(s) && AllCounted(s)
    ensures Loaded(s.log).1 && Replays(s, Loaded(s.log).0)
  {
    ReplayRestores(s);
    var t := Loaded(s.log).0;
    forall id | id in s.orders ensures id in t.orders && t.orders[id].retries == s.orders[id].retries {
      assert CountLogged(s, id);
      LoadedCounts(s, id);
    }
  }

  /** After any run the audit log alone rebuilds the order book, retry counts included, because every submission
      ends with a line about its order; and a new paper session can start from the rebuilt book. */
  lemma EveryRunRestarts(setup: Setup, s: Live, ticks: seq<Tick>)
    requires setup.trade.Valid() && Sound(s) && Faithful(s.oms) && AllMarket(s.oms) && AllCounted(s.oms)
    ensures var r := Run(setup, s, ticks);
            var (oms, ok) := Loaded(r.oms.log);
            && ok && Replays(r.oms, oms)
            && Sound(r.(oms := oms)) && Faithful(oms) && AllMarket(oms) && AllCounted(oms)
  {
    RunEvolves(setup, s, ticks);
    RunStaysMarket(setup, s, ticks);
    BookReplays(Run(setup, s, ticks).oms);
    BookCanStart(Run(setup, s, ticks));
  }

  lemma BookCanStart(s: Live)
    requires Sound(s) && Faithful(s.oms) && AllMarket(s.oms) && AllCounted(s.oms)
    ensures var oms := Loaded(s.oms.log).0;
            Sound(s.(oms := oms)) && Faithful(oms) && AllMarket(oms) && AllCounted(oms)
  {
    ReplayRestores(s.oms);
    LoadKeeps(s.oms);
    AllCountsLoaded(s.oms);
  }

  lemma AllCountsLoaded(s: Oms)
    requires Faithful(s) && AllMarket(s) && AllCounted(s)
    ensures var t := Loaded(s.log).0; AllCounted(t) && forall id :: RetriesOf(t, id) == RetriesOf(s, id)
  {
    var t := Loaded(s.log).0;
    forall id ensures CountLogged(t, id) && RetriesOf(t, id) == RetriesOf(s, id) {
      assert CountLogged(s, id);
      LoadedCounts(s, id);
    }
  }

  lemma RunStaysMarket(setup: Setup, s: Live, ticks: seq<Tick>)
    requires setup.trade.Valid() && Sound(s) && AllMarket(s.oms)
    ensures AllMarket(Run(setup, s, ticks).oms)
  {
    var t := Run(setup, s, ticks).oms;
    RunEvolves(setup, s, ticks);
    forall id | id in t.orders ensures t.orders[id].order.kind.Market? {
      assert id in s.oms.orders ==> Kept(s.oms.orders[id], t.orders[id]);
    }
  }

  // ---- Why the poll comes first --------------------------------------------------------------

  /** `fills` with one more fill `n` times. */
  function Again(fills: seq<Fill>, f: Fill, n: nat): seq<Fill> {
    if n == 0 then fills else Again(fills, f, n - 1) + [f]
  }

  function DrainedTimes(setup: Setup, s: Live, f: Fill, now: Time, n: nat): Live {
    if n == 0 then s else DrainOne(setup, DrainedTimes(setup, s, f, now, n - 1), f, now)
  }

  /** Draining before expiring is what keeps fills single: were an order expired while its fill is still undrained,
      every later scan of the log would give that fill to the portfolio again. */
  lemma {:induction false} ExpiredFillRepeats(setup: Setup, s: Live, f: Fill, now: Time, n: nat)
    requires Consistent(s.oms) && f.orderId in s.oms.orders && s.oms.orders[f.orderId].status.Submitted?
    ensures var e := s.(oms := MarkedFinished(s.oms, f.orderId, Expired, "expired", now));
            var r := DrainedTimes(setup, e, f, now, n);
            r.book.fills == Again(s.book.fills, f, n) && r.oms == e.oms
  {
    if n > 0 {
      ExpiredFillRepeats(setup, s, f, now, n - 1);
    }
  }
}
