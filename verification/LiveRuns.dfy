/** What every run of the live engine with the paper broker keeps: each broker fill reaches the portfolio
    exactly once, and the two ledgers agree up to the fills not drained yet. */
module LiveRuns {
  import opened Models
  import opened Portfolio
  import opened StopLoss
  import opened SignalBatch
  import opened BatchBounds
  import opened OrderManager
  import opened OrderLaws
  import opened PaperBroker
  import opened LiveModel

  // ---- The invariant -------------------------------------------------------------------------

  /** A logged fill belongs to one order: taken in full when drained, submitted and untouched before. */
  predicate Logged(oms: Oms, f: Fill, drained: bool) {
    && f.orderId in oms.orders
    && var m := oms.orders[f.orderId];
       && m.order.quantity == f.quantity && f.quantity > 0
       && (if drained then m.status.Filled? && m.filled == f.quantity else m.status.Submitted? && m.filled == 0)
  }

  /** Between any two steps, `k` fills of the log have been drained. */
  ghost predicate Synced(s: Live, start: real, k: nat) {
    && s.venue.Some?
    && var log := s.venue.value.fillLog;
       && k <= |log| && s.book == Replayed(start, log[..k])
       && BooksMatchLog(s.venue.value, start)
       && Consistent(s.oms) && AllLogged(s.oms, log, k) && OneFillEach(log)
  }

  ghost predicate AllLogged(oms: Oms, log: seq<Fill>, k: nat) {
    forall i :: 0 <= i < |log| ==> Logged(oms, log[i], i < k)
  }

  /** The agreement only depends on broker, book and what the orders say of their fills. */
  lemma SyncedLike(s: Live, start: real, k: nat, t: Live)
    requires Synced(s, start, k) && t.venue == s.venue && t.book == s.book
    requires Consistent(t.oms) && AllLogged(t.oms, LogOf(s), k)
    ensures Synced(t, start, k)
  {
  }

  ghost predicate IdsBelow(s: Live) {
    forall id :: id in s.oms.orders ==> id < s.nextId
  }

  function LogOf(s: Live): seq<Fill> {
    match s.venue case None => [] case Some(p) => p.fillLog
  }

  // ---- Draining ------------------------------------------------------------------------------

  lemma DrainTakes(setup: Setup, s: Live, start: real, k: nat, now: Time)
    requires Synced(s, start, k) && k < |LogOf(s)|
    ensures Synced(DrainOne(setup, s, LogOf(s)[k], now), start, k + 1)
    ensures LogOf(DrainOne(setup, s, LogOf(s)[k], now)) == LogOf(s)
  {
    var log, f := LogOf(s), LogOf(s)[k];
    var t := DrainOne(setup, s, f, now);
    assert Logged(s.oms, f, false);
    ReplayedGrows(start, log, k);
    DrainFillsOrder(setup, s, f, now);
    forall i | 0 <= i < |log| ensures Logged(t.oms, log[i], i < k + 1) {
      assert Logged(s.oms, log[i], i < k);
      assert i != k ==> log[i].orderId != f.orderId;
    }
    assert AllLogged(t.oms, log, k + 1);
  }

  lemma ReplayedGrows(start: real, log: seq<Fill>, k: nat)
    requires k < |log|
    ensures Replayed(start, log[..k + 1]) == Applied(Replayed(start, log[..k]), log[k])
  {
    assert log[..k + 1][..k] == log[..k];
  }

  /** The fill of a submitted order fills it and reaches the book. */
  lemma DrainFillsOrder(setup: Setup, s: Live, f: Fill, now: Time)
    requires Consistent(s.oms) && Logged(s.oms, f, false)
    ensures var t := DrainOne(setup, s, f, now);
            && t.venue == s.venue && t.book == Applied(s.book, f) && Consistent(t.oms) && Logged(t.oms, f, true)
            && forall id :: id in s.oms.orders && id != f.orderId ==>
               id in t.oms.orders && t.oms.orders[id] == s.oms.orders[id]
  {
  }

  lemma DrainSkips(setup: Setup, s: Live, start: real, k: nat, i: nat, now: Time)
    requires Synced(s, start, k) && i < k
    ensures DrainOne(setup, s, LogOf(s)[i], now) == s
  {
    assert Logged(s.oms, LogOf(s)[i], true);
  }

  lemma DrainedUnfolds(setup: Setup, s: Live, log: seq<Fill>, i: nat, now: Time)
    requires 0 < i <= |log|
    ensures Drained(setup, s, log[..i], now) == DrainOne(setup, Drained(setup, s, log[..i - 1], now), log[i - 1], now)
  {
    assert log[..i][..i - 1] == log[..i - 1];
  }

  /** Scanning what is already drained changes nothing. */
  lemma {:induction false} DrainOldPart(setup: Setup, s: Live, start: real, k: nat, i: nat, now: Time)
    requires Synced(s, start, k) && i <= k
    ensures Drained(setup, s, LogOf(s)[..i], now) == s
  {
    if i > 0 {
      DrainOldPart(setup, s, start, k, i - 1, now);
      DrainedUnfolds(setup, s, LogOf(s), i, now);
      DrainSkips(setup, s, start, k, i - 1, now);
    }
  }

  /** Scanning on takes every further fill once. */
  lemma {:induction false} DrainNewPart(setup: Setup, s: Live, start: real, k: nat, i: nat, now: Time)
    requires Synced(s, start, k) && k <= i <= |LogOf(s)|
    ensures Synced(Drained(setup, s, LogOf(s)[..i], now), start, i)
    ensures LogOf(Drained(setup, s, LogOf(s)[..i], now)) == LogOf(s)
  {
    if i == k {
      DrainOldPart(setup, s, start, k, k, now);
      assert Drained(setup, s, LogOf(s)[..i], now) == s;
    } else {
      DrainNewPart(setup, s, start, k, i - 1, now);
      DrainOnce(setup, s, start, i, now);
    }
  }

  lemma DrainOnce(setup: Setup, s: Live, start: real, i: nat, now: Time)
    requires 0 < i <= |LogOf(s)|
    requires Synced(Drained(setup, s, LogOf(s)[..i - 1], now), start, i - 1)
    requires LogOf(Drained(setup, s, LogOf(s)[..i - 1], now)) == LogOf(s)
    ensures Synced(Drained(setup, s, LogOf(s)[..i], now), start, i)
    ensures LogOf(Drained(setup, s, LogOf(s)[..i], now)) == LogOf(s)
  {
    DrainedUnfolds(setup, s, LogOf(s), i, now);
    DrainTakes(setup, Drained(setup, s, LogOf(s)[..i - 1], now), start, i - 1, now);
  }

  /** A poll leaves nothing undrained, however often it runs. */
  lemma PollDrainsAll(setup: Setup, s: Live, start: real, k: nat, now: Time, world: World, force: bool)
    requires Synced(s, start, k)
    ensures var t := Polled(setup, s, now, world, force);
            Synced(t, start, |LogOf(s)|) && LogOf(t) == LogOf(s)
  {
    var log := LogOf(s);
    DrainNewPart(setup, s, start, k, |log|, now);
    assert log[..|log|] == log;
  }

  // ---- Expiry after a poll -------------------------------------------------------------------

  /** With everything drained, no order in the log can expire, and the paper broker cancels nothing. */
  lemma ExpireOneKeeps(setup: Setup, s: Live, start: real, id: OrderId, now: Time, world: World)
    requires Synced(s, start, |LogOf(s)|)
    ensures var t := ExpireOne(setup, s, id, now, world);
            Synced(t, start, |LogOf(s)|) && t == s.(oms := t.oms) && t.oms.orders.Keys == s.oms.orders.Keys
  {
    var log := LogOf(s);
    var t := ExpireOne(setup, s, id, now, world);
    PaperExpiry(setup, s, id, now, world);
    forall i | 0 <= i < |log| ensures Logged(t.oms, log[i], true) {
      assert Logged(s.oms, log[i], true);
    }
    SyncedLike(s, start, |log|, t);
  }

  /** When every order the broker knows is final, expiry touches the order book alone, and only open orders of it. */
  lemma PaperExpiry(setup: Setup, s: Live, id: OrderId, now: Time, world: World)
    requires s.venue.Some? && Consistent(s.oms)
    requires forall b :: b in s.venue.value.orders ==> s.venue.value.orders[b].status.Filled?
    ensures var t := ExpireOne(setup, s, id, now, world);
            && t == s.(oms := t.oms) && Consistent(t.oms) && t.oms.orders.Keys == s.oms.orders.Keys
            && forall x :: x in s.oms.orders && s.oms.orders[x].IsTerminal() ==> t.oms.orders[x] == s.oms.orders[x]
  {
    FinishTouchesOpen(s.oms, id, Expired, "expired", now);
    NothingToCancel(setup, s, id, now, world);
  }

  lemma NothingToCancel(setup: Setup, s: Live, id: OrderId, now: Time, world: World)
    requires s.venue.Some?
    requires forall b :: b in s.venue.value.orders ==> s.venue.value.orders[b].status.Filled?
    ensures var t := ExpireOne(setup, s, id, now, world);
            t == s || t == s.(oms := MarkedFinished(s.oms, id, Expired, "expired", now))
  {
    if id in s.oms.orders {
      assert !CanCancel(s.venue.value, s.oms.orders[id].brokerId);
    }
  }

  lemma FinishTouchesOpen(oms: Oms, id: OrderId, status: OrderStatus, reason: string, now: Time)
    requires Consistent(oms)
    ensures var t := MarkedFinished(oms, id, status, reason, now);
            && Consistent(t) && t.orders.Keys == oms.orders.Keys
            && forall x :: x in oms.orders && oms.orders[x].IsTerminal() ==> t.orders[x] == oms.orders[x]
  {
  }

  lemma {:induction false} ExpireAllKeeps(setup: Setup, s: Live, start: real, ids: seq<OrderId>, now: Time,
                                          world: World)
    requires Synced(s, start, |LogOf(s)|)
    ensures var t := ExpireAll(setup, s, ids, now, world);
            Synced(t, start, |LogOf(s)|) && t == s.(oms := t.oms) && t.oms.orders.Keys == s.oms.orders.Keys
  {
    if ids != [] {
      ExpireAllKeeps(setup, s, start, ids[..|ids| - 1], now, world);
      ExpireOneKeeps(setup, ExpireAll(setup, s, ids[..|ids| - 1], now, world), start, ids[|ids| - 1], now, world);
    }
  }

  // ---- Submission ----------------------------------------------------------------------------

  /** The order has just been created: no fill of it exists. */
  ghost predicate Waiting(s: Live, order: Order) {
    && order.id in s.oms.orders
    && s.oms.orders[order.id].order == order && s.oms.orders[order.id].status.Pending?
       && s.oms.orders[order.id].filled == 0
    && forall i :: 0 <= i < |LogOf(s)| ==> LogOf(s)[i].orderId != order.id
  }

  /** What a submission leaves alone, and the one fill it may add. */
  ghost predicate SubmitEffect(setup: Setup, s: Live, t: Live, order: Order, now: Time) {
    && s.venue.Some? && t.venue.Some?
    && t == s.(venue := t.venue, oms := t.oms)
    && var p, q := s.venue.value, t.venue.value;
       && q.quotes == p.quotes && q.connected == p.connected
       && (q == p || (p.connected && order.symbol in p.quotes && !CannotPay(p, FillFor(setup.terms, p, order, now))
                      && q.fillLog == p.fillLog + [FillFor(setup.terms, p, order, now)]
                      && q.cash == p.cash + CashEffect(FillFor(setup.terms, p, order, now))))
  }

  lemma PlacedKeeps(setup: Setup, s: Live, start: real, k: nat, order: Order, now: Time, brokerId: string)
    requires Synced(s, start, k) && Waiting(s, order)
    requires Place(setup.terms, s.venue.value, order, brokerId, now).1.Placed?
    ensures var q := Place(setup.terms, s.venue.value, order, brokerId, now).0;
            var t := s.(venue := Some(q), oms := MarkedSubmitted(s.oms, order.id, brokerId, now));
            Submission(setup, s, t, start, k, order, now)
  {
    var p := s.venue.value;
    PlaceSettles(setup.terms, p, order, brokerId, now);
    PlaceKeepsBooks(setup.terms, p, order, brokerId, now, start);
    var q := Place(setup.terms, p, order, brokerId, now).0;
    assert q.fillLog[..k] == p.fillLog[..k];
    PlacedIsLogged(s, k, order, FillFor(setup.terms, p, order, now), brokerId, now);
  }

  /** The log with the new fill, beside the book with the order submitted. */
  lemma PlacedIsLogged(s: Live, k: nat, order: Order, f: Fill, brokerId: string, now: Time)
    requires Consistent(s.oms) && AllLogged(s.oms, LogOf(s), k) && OneFillEach(LogOf(s)) && Waiting(s, order)
    requires k <= |LogOf(s)| && f.orderId == order.id && f.quantity == order.quantity
    ensures var t := MarkedSubmitted(s.oms, order.id, brokerId, now);
            && Consistent(t) && AllLogged(t, LogOf(s) + [f], k) && OneFillEach(LogOf(s) + [f])
            && t.orders.Keys == s.oms.orders.Keys
  {
    var log, t := LogOf(s) + [f], MarkedSubmitted(s.oms, order.id, brokerId, now);
    SubmittedIsLogged(s.oms, order, f, brokerId, now);
    forall i | 0 <= i < |log| ensures Logged(t, log[i], i < k) {
      assert i < |LogOf(s)| ==> Logged(s.oms, LogOf(s)[i], i < k);
    }
  }

  /** A new order that is marked submitted is ready for its fill; the others stay as they are. */
  lemma SubmittedIsLogged(oms: Oms, order: Order, f: Fill, brokerId: string, now: Time)
    requires Consistent(oms) && order.id in oms.orders && oms.orders[order.id].order == order
    requires oms.orders[order.id].status.Pending? && oms.orders[order.id].filled == 0
    requires f.orderId == order.id && f.quantity == order.quantity
    ensures var t := MarkedSubmitted(oms, order.id, brokerId, now);
            && Consistent(t) && t.orders.Keys == oms.orders.Keys && Logged(t, f, false)
            && forall id :: id in oms.orders && id != order.id ==> t.orders[id] == oms.orders[id]
  {
  }

  /** A change to an order without fills leaves the agreement of log and book alone. */
  lemma UnfilledChangeKeeps(s: Live, start: real, k: nat, order: Order, oms: Oms)
    requires Synced(s, start, k) && Waiting(s, order) && Consistent(oms)
    requires oms.orders.Keys == s.oms.orders.Keys
    requires forall id :: id in oms.orders && id != order.id ==> oms.orders[id] == s.oms.orders[id]
    ensures Synced(s.(oms := oms), start, k)
  {
    var log := LogOf(s);
    forall i | 0 <= i < |log| ensures Logged(oms, log[i], i < k) {
      assert Logged(s.oms, log[i], i < k);
    }
    SyncedLike(s, start, k, s.(oms := oms));
  }

  lemma RejectionKeeps(setup: Setup, s: Live, start: real, k: nat, order: Order, reason: string, now: Time)
    requires Synced(s, start, k) && Waiting(s, order)
    ensures Submission(setup, s, s.(oms := MarkedRejected(s.oms, order.id, reason, now)), start, k, order, now)
  {
    UnfilledChangeKeeps(s, start, k, order, MarkedRejected(s.oms, order.id, reason, now));
  }

  lemma RetryingKeeps(s: Live, start: real, k: nat, order: Order, now: Time)
    requires Synced(s, start, k) && Waiting(s, order)
    ensures var u := s.(oms := Retried(s.oms, order.id, now));
            Synced(u, start, k) && Waiting(u, order) && u.oms.orders.Keys == s.oms.orders.Keys
  {
    UnfilledChangeKeeps(s, start, k, order, Retried(s.oms, order.id, now));
  }

  ghost predicate Submission(setup: Setup, s: Live, t: Live, start: real, k: nat, order: Order, now: Time) {
    Synced(t, start, k) && SubmitEffect(setup, s, t, order, now) && t.oms.orders.Keys == s.oms.orders.Keys
  }

  /** One attempt with the paper broker: only a placement changes the broker. */
  lemma PaperAttempt(setup: Setup, s: Live, order: Order, attempt: nat, now: Time, world: World)
    requires s.venue.Some? && attempt <= setup.maxRetries && !setup.dryRun
    ensures var (q, outcome) := Place(setup.terms, s.venue.value, order, world.token(order.id), now);
            var u := s.(oms := Retried(s.oms, order.id, now));
            Attempts(setup, s, order, attempt, now, world) ==
            match outcome
            case Placed(brokerId) => s.(venue := Some(q), oms := MarkedSubmitted(s.oms, order.id, brokerId, now))
            case OrderError(reason) => s.(oms := MarkedRejected(s.oms, order.id, reason, now))
            case OtherError(reason) => s.(oms := MarkedRejected(s.oms, order.id, reason, now))
            case ConnectionError(reason) =>
              if attempt < setup.maxRetries then Attempts(setup, u, order, attempt + 1, now, world)
              else u.(oms := MarkedRejected(u.oms, order.id, "connection_error: " + reason, now))
  {
    assert s.(venue := Some(s.venue.value)) == s;
  }

  lemma DryRunKeeps(setup: Setup, s: Live, start: real, k: nat, order: Order, attempt: nat, now: Time, world: World)
    requires Synced(s, start, k) && Waiting(s, order) && attempt <= setup.maxRetries && setup.dryRun
    ensures Submission(setup, s, Attempts(setup, s, order, attempt, now, world), start, k, order, now)
  {
    DrySubmissionKeeps(setup, s, start, k, order, "DRY-RUN-" + world.token(order.id), now);
  }

  lemma DrySubmissionKeeps(setup: Setup, s: Live, start: real, k: nat, order: Order, brokerId: string, now: Time)
    requires Synced(s, start, k) && Waiting(s, order)
    ensures Submission(setup, s, s.(oms := MarkedSubmitted(s.oms, order.id, brokerId, now)), start, k, order, now)
  {
    UnfilledChangeKeeps(s, start, k, order, MarkedSubmitted(s.oms, order.id, brokerId, now));
  }

  /** An attempt that the paper broker answers. */
  lemma AnswerKeeps(setup: Setup, s: Live, start: real, k: nat, order: Order, attempt: nat, now: Time, world: World)
    requires Synced(s, start, k) && Waiting(s, order) && attempt <= setup.maxRetries && !setup.dryRun
    requires !Place(setup.terms, s.venue.value, order, world.token(order.id), now).1.ConnectionError?
    ensures Submission(setup, s, Attempts(setup, s, order, attempt, now, world), start, k, order, now)
  {
    PaperAttempt(setup, s, order, attempt, now, world);
    match Place(setup.terms, s.venue.value, order, world.token(order.id), now).1
    case Placed(brokerId) => PlacedKeeps(setup, s, start, k, order, now, world.token(order.id));
    case OrderError(reason) => RejectionKeeps(setup, s, start, k, order, reason, now);
    case OtherError(reason) => RejectionKeeps(setup, s, start, k, order, reason, now);
  }

  lemma {:induction false} AttemptsKeep(setup: Setup, s: Live, start: real, k: nat, order: Order, attempt: nat,
                                        now: Time, world: World)
    requires Synced(s, start, k) && Waiting(s, order)
    ensures Submission(setup, s, Attempts(setup, s, order, attempt, now, world), start, k, order, now)
    decreases setup.maxRetries + 1 - attempt
  {
    if attempt <= setup.maxRetries {
      if setup.dryRun {
        DryRunKeeps(setup, s, start, k, order, attempt, now, world);
      } else {
        var outcome := Place(setup.terms, s.venue.value, order, world.token(order.id), now).1;
        if outcome.ConnectionError? {
          PaperAttempt(setup, s, order, attempt, now, world);
          RetryKeepsSynced(setup, s, start, k, order, attempt, outcome.reason, now, world);
        } else {
          AnswerKeeps(setup, s, start, k, order, attempt, now, world);
        }
      }
    }
  }

  lemma {:induction false} RetryKeepsSynced(setup: Setup, s: Live, start: real, k: nat, order: Order, attempt: nat,
                                            reason: string, now: Time, world: World)
    requires Synced(s, start, k) && Waiting(s, order) && attempt <= setup.maxRetries
    ensures var u := s.(oms := Retried(s.oms, order.id, now));
            var t := if attempt < setup.maxRetries then Attempts(setup, u, order, attempt + 1, now, world)
                     else u.(oms := MarkedRejected(u.oms, order.id, "connection_error: " + reason, now));
            Submission(setup, s, t, start, k, order, now)
    decreases setup.maxRetries + 1 - attempt, 0
  {
    RetryingKeeps(s, start, k, order, now);
    var u := s.(oms := Retried(s.oms, order.id, now));
    if attempt < setup.maxRetries {
      AttemptsKeep(setup, u, start, k, order, attempt + 1, now, world);
    } else {
      RejectionKeeps(setup, u, start, k, order, "connection_error: " + reason, now);
    }
  }

  lemma SentKeeps(setup: Setup, s: Live, start: real, k: nat, order: Order, now: Time, world: World)
    requires Synced(s, start, k) && order.id !in s.oms.orders
    ensures var t := Sent(setup, s, order, now, world);
            && Synced(t, start, k) && SubmitEffect(setup, s, t, order, now)
            && t.oms.orders.Keys == s.oms.orders.Keys + {order.id}
  {
    var c := s.(oms := Created(s.oms, order, now));
    CreatedWaits(s, start, k, order, now);
    AttemptsKeep(setup, c, start, k, order, 0, now, world);
  }

  lemma CreatedWaits(s: Live, start: real, k: nat, order: Order, now: Time)
    requires Synced(s, start, k) && order.id !in s.oms.orders
    ensures var c := s.(oms := Created(s.oms, order, now));
            Synced(c, start, k) && Waiting(c, order) && c.oms.orders.Keys == s.oms.orders.Keys + {order.id}
  {
    var log := LogOf(s);
    var c := s.(oms := Created(s.oms, order, now));
    DistinctAppend(s.oms.ids, order.id);
    forall i | 0 <= i < |log| ensures Logged(c.oms, log[i], i < k) && log[i].orderId != order.id {
      assert Logged(s.oms, log[i], i < k);
    }
    SyncedLike(s, start, k, c);
  }

  // ---- The ledgers of a run ------------------------------------------------------------------

  /** At no point of the log has more of a symbol been sold than bought. */
  ghost predicate NeverOversold(log: seq<Fill>) {
    (forall s :: NetQuantity(log, s) >= 0) && (log == [] || NeverOversold(log[..|log| - 1]))
  }

  /** At no point of the log is cash negative. */
  ghost predicate NeverOverdrawn(start: real, log: seq<Fill>) {
    CashAfter(start, log) >= 0.0 && (log == [] || NeverOverdrawn(start, log[..|log| - 1]))
  }

  ghost predicate QuotesOk(p: Paper) {
    && (forall s :: s in p.quotes ==> p.quotes[s] > 0.0)
    && (forall i :: 0 <= i < |p.fillLog| ==> p.fillLog[i].symbol in p.quotes)
  }

  ghost predicate SolventPaper(p: Paper, start: real) {
    NeverOversold(p.fillLog) && NeverOverdrawn(start, p.fillLog) && QuotesOk(p)
  }

  ghost predicate Solvent(s: Live, start: real) {
    s.venue.Some? && SolventPaper(s.venue.value, start)
  }

  ghost predicate RunOk(s: Live, start: real, k: nat) {
    Synced(s, start, k) && IdsBelow(s) && Solvent(s, start)
  }

  lemma {:induction false} PrefixNotOversold(log: seq<Fill>, k: nat)
    requires NeverOversold(log) && k <= |log|
    ensures NeverOversold(log[..k])
  {
    if k == |log| {
      assert log[..k] == log;
    } else {
      assert log[..|log| - 1][..k] == log[..k];
      PrefixNotOversold(log[..|log| - 1], k);
    }
  }

  /** The local book holds what the fills it has seen add up to. */
  lemma {:induction false} ReplayedLedger(start: real, fills: seq<Fill>)
    ensures Replayed(start, fills).cash == CashAfter(start, fills)
    ensures Replayed(start, fills).fills == fills
    ensures forall s :: At(Replayed(start, fills), s).quantity == NetQuantity(fills, s)
  {
    if fills != [] {
      ReplayedLedger(start, fills[..|fills| - 1]);
      assert fills == fills[..|fills| - 1] + [fills[|fills| - 1]];
    }
  }

  lemma BookIsLongOnly(s: Live, start: real, k: nat)
    requires RunOk(s, start, k)
    ensures LongOnly(s.book)
  {
    PrefixNotOversold(LogOf(s), k);
    ReplayedLedger(start, LogOf(s)[..k]);
    forall x | x in s.book.positions ensures s.book.positions[x].quantity >= 0 {
      assert At(s.book, x).quantity == NetQuantity(LogOf(s)[..k], x);
    }
  }

  // ---- A batch of submissions ----------------------------------------------------------------

  /** What the orders still to be submitted rely on. */
  ghost predicate Ready(s: Live, b: Book, orders: seq<Order>) {
    && DistinctSymbols(orders) && DistinctIds(orders)
    && forall o :: o in orders ==>
         && Fits(b, o) && o.id !in s.oms.orders && o.id < s.nextId
         && NetQuantity(LogOf(s), o.symbol) == At(b, o.symbol).quantity
  }

  lemma FillKeepsSolvent(setup: Setup, s: Live, t: Live, start: real, b: Book, order: Order, now: Time)
    requires FairTerms(setup.terms) && Solvent(s, start) && BooksMatchLog(s.venue.value, start)
    requires SubmitEffect(setup, s, t, order, now)
    requires Fits(b, order) && NetQuantity(LogOf(s), order.symbol) == At(b, order.symbol).quantity
    ensures Solvent(t, start)
    ensures forall x :: x != order.symbol ==> NetQuantity(LogOf(t), x) == NetQuantity(LogOf(s), x)
  {
    if t.venue != s.venue {
      PaperStaysSolvent(setup.terms, s.venue.value, t.venue.value, start, b, order, now);
    }
  }

  /** A fill the broker could take leaves its books solvent. */
  lemma PaperStaysSolvent(terms: Terms, p: Paper, q: Paper, start: real, b: Book, order: Order, now: Time)
    requires FairTerms(terms) && SolventPaper(p, start) && BooksMatchLog(p, start) && order.symbol in p.quotes
    requires !CannotPay(p, FillFor(terms, p, order, now))
    requires q.quotes == p.quotes && q.fillLog == p.fillLog + [FillFor(terms, p, order, now)]
    requires Fits(b, order) && NetQuantity(p.fillLog, order.symbol) == At(b, order.symbol).quantity
    ensures SolventPaper(q, start)
    ensures forall x :: x != order.symbol ==> NetQuantity(q.fillLog, x) == NetQuantity(p.fillLog, x)
  {
    var f := FillFor(terms, p, order, now);
    LogAppended(start, p.fillLog, f);
    assert q.fillLog[..|q.fillLog| - 1] == p.fillLog;
    if order.side.Sell? {
      SaleAddsCash(terms, p, order, now);
    }
    assert NeverOversold(q.fillLog) by {
      QuantityStays(p, f, b, order);
    }
    assert NeverOverdrawn(start, q.fillLog);
  }

  lemma QuantityStays(p: Paper, f: Fill, b: Book, order: Order)
    requires NeverOversold(p.fillLog) && f.symbol == order.symbol && f.side == order.side
             && f.quantity == order.quantity
    requires Fits(b, order) && NetQuantity(p.fillLog, order.symbol) == At(b, order.symbol).quantity
    ensures NeverOversold(p.fillLog + [f])
  {
    LogAppended(0.0, p.fillLog, f);
    assert (p.fillLog + [f])[..|p.fillLog + [f]| - 1] == p.fillLog;
  }

  lemma RestStaysReady(setup: Setup, s: Live, t: Live, b: Book, orders: seq<Order>)
    requires orders != [] && Ready(s, b, orders) && t.nextId == s.nextId
    requires t.oms.orders.Keys == s.oms.orders.Keys + {orders[0].id}
    requires forall x :: x != orders[0].symbol ==> NetQuantity(LogOf(t), x) == NetQuantity(LogOf(s), x)
    ensures Ready(t, b, orders[1..])
  {
    forall o | o in orders[1..] ensures o in orders && o.id != orders[0].id && o.symbol != orders[0].symbol {
      var i :| 0 <= i < |orders[1..]| && orders[1..][i] == o;
      assert orders[i + 1] == o;
    }
  }

  lemma SubmitOneOfBatch(setup: Setup, s: Live, start: real, k: nat, b: Book, orders: seq<Order>, now: Time,
                         world: World)
    requires FairTerms(setup.terms) && RunOk(s, start, k) && orders != [] && Ready(s, b, orders)
    ensures var t := Sent(setup, s, orders[0], now, world);
            && RunOk(t, start, k) && Ready(t, b, orders[1..]) && SubmitEffect(setup, s, t, orders[0], now)
  {
    var order := orders[0];
    assert order in orders;
    SentKeeps(setup, s, start, k, order, now, world);
    FillKeepsSolvent(setup, s, Sent(setup, s, order, now, world), start, b, order, now);
    RestStaysReady(setup, s, Sent(setup, s, order, now, world), b, orders);
  }

  /** Submitting from the front is submitting to the end. */
  lemma {:induction false} SubmitFromFront(setup: Setup, s: Live, orders: seq<Order>, now: Time, world: World)
    requires orders != []
    ensures SubmitAll(setup, s, orders, now, world)
            == SubmitAll(setup, Sent(setup, s, orders[0], now, world), orders[1..], now, world)
  {
    if |orders| == 1 {
      assert orders[..0] == [] && orders[1..] == [];
    } else {
      var init := orders[..|orders| - 1];
      SubmitFromFront(setup, s, init, now, world);
      assert init[1..] == orders[1..][..|orders[1..]| - 1];
    }
  }

  lemma {:induction false} SubmitAllKeeps(setup: Setup, s: Live, start: real, k: nat, b: Book, orders: seq<Order>,
                                          now: Time, world: World)
    requires FairTerms(setup.terms) && RunOk(s, start, k) && Ready(s, b, orders)
    ensures var t := SubmitAll(setup, s, orders, now, world);
            RunOk(t, start, k) && t == s.(venue := t.venue, oms := t.oms)
                && t.venue.value.quotes == s.venue.value.quotes
    decreases |orders|
  {
    if orders != [] {
      SubmitOneOfBatch(setup, s, start, k, b, orders, now, world);
      SubmitFromFront(setup, s, orders, now, world);
      SubmitAllKeeps(setup, Sent(setup, s, orders[0], now, world), start, k, b, orders[1..], now, world);
    }
  }

  // ---- A tick --------------------------------------------------------------------------------

  lemma PricedKeeps(s: Live, start: real, k: nat, bars: Bars)
    requires RunOk(s, start, k)
    ensures var t := Priced(Connected(s), Closes(bars));
            && RunOk(t, start, k) && LogOf(t) == LogOf(s)
            && t.venue.value.connected && forall x :: x in bars ==>
               x in t.venue.value.quotes && t.venue.value.quotes[x] == bars[x].close
  {
    var t := Priced(Connected(s), Closes(bars));
    assert BooksMatchLog(t.venue.value, start);
    assert QuotesOk(t.venue.value);
  }

  /** After the first poll and the expiry nothing is left undrained. */
  lemma PreparedKeeps(setup: Setup, s: Live, start: real, k: nat, t: Tick)
    requires RunOk(s, start, k)
    ensures var r := Prepared(setup, s, t);
            && RunOk(r, start, |LogOf(s)|) && LogOf(r) == LogOf(s)
            && r.venue == Priced(Connected(s), Closes(t.bars)).venue
  {
    var p := Priced(Connected(s), Closes(t.bars));
    PricedKeeps(s, start, k, t.bars);
    PollDrainsAll(setup, p, start, k, t.now, t.world, true);
    var polled := Polled(setup, p, t.now, t.world, true);
    DrainKeepsRest(setup, p, LogOf(p), t.now);
    ExpireAllKeeps(setup, polled, start, Stale(polled.oms, polled.oms.ids, setup.ttl, t.now), t.now, t.world);
  }

  lemma {:induction false} DrainKeepsRest(setup: Setup, s: Live, log: seq<Fill>, now: Time)
    requires Consistent(s.oms)
    ensures var t := Drained(setup, s, log, now);
            && Consistent(t.oms) && t.oms.orders.Keys == s.oms.orders.Keys
            && t == s.(oms := t.oms, book := t.book, stops := t.stops)
  {
    if log != [] {
      DrainKeepsRest(setup, s, log[..|log| - 1], now);
      DrainOneKeepsRest(setup, Drained(setup, s, log[..|log| - 1], now), log[|log| - 1], now);
    }
  }

  lemma DrainOneKeepsRest(setup: Setup, s: Live, f: Fill, now: Time)
    requires Consistent(s.oms)
    ensures var t := DrainOne(setup, s, f, now);
            && Consistent(t.oms) && t.oms.orders.Keys == s.oms.orders.Keys
            && t == s.(oms := t.oms, book := t.book, stops := t.stops)
  {
    if f.orderId in s.oms.orders {
      var excess := Excess(f.quantity, s.oms.orders[f.orderId].filled);
      FillKeepsListing(s.oms, f.orderId, excess, f.fillPrice, Some(f), now);
      DrainOneIsFill(setup, s, f, now);
    }
  }

  lemma DrainOneIsFill(setup: Setup, s: Live, f: Fill, now: Time)
    requires f.orderId in s.oms.orders
    ensures var t := DrainOne(setup, s, f, now);
            && t == s.(oms := t.oms, book := t.book, stops := t.stops)
            && (t.oms == s.oms
                || t.oms == FillApplied(s.oms, f.orderId, Excess(f.quantity, s.oms.orders[f.orderId].filled),
                                        f.fillPrice, Some(f), now))
  {
  }

  /** The orders a tick submits. */
  ghost function Passing(setup: Setup, s: Live, t: Tick, events: seq<Signal>): seq<Order>
    requires setup.trade.Valid()
  {
    PassedOf(setup.trade, setup.sectors, s.gate, DeskAt(s, t, events), UpTo(BatchPlan(setup, s, t, events).1, t.crash))
  }

  ghost function Staged(setup: Setup, s: Live, t: Tick, events: seq<Signal>): Live
    requires setup.trade.Valid()
  {
    var (day, candidates) := BatchPlan(setup, s, t, events);
    s.(day := day, nextId := s.nextId + |candidates|,
       gate := Routed(setup.trade, setup.sectors, s.gate, s.book, UpTo(candidates, t.crash), Closes(t.bars)).0)
  }

  lemma PassingIsGood(setup: Setup, s: Live, t: Tick, events: seq<Signal>)
    requires setup.trade.Valid() && LongOnly(s.book)
    ensures var passed := Passing(setup, s, t, events);
            && GoodBatch(setup.trade, DeskAt(s, t, events), passed) && DistinctIds(passed)
            && forall o :: o in passed ==> s.nextId <= o.id < s.nextId + |BatchPlan(setup, s, t, events).1|
  {
    var d := DeskAt(s, t, events);
    var candidates := BatchPlan(setup, s, t, events).1;
    CandidatesAreGood(setup.trade, d, s.day, s.nextId, t.now);
    var todo := UpTo(candidates, t.crash);
    PrefixIsGood(setup.trade, d, candidates, |todo|);
    assert todo == candidates[..|todo|];
    NumberedAreDistinct(todo, s.nextId);
    RoutedIsGood(setup.trade, setup.sectors, s.gate, d, todo);
  }

  /** With nothing undrained, the book holds what the log adds up to. */
  lemma DrainedQuantities(s: Live, start: real)
    requires Synced(s, start, |LogOf(s)|)
    ensures forall x :: NetQuantity(LogOf(s), x) == At(s.book, x).quantity
    ensures CashAfter(start, LogOf(s)) == s.book.cash
  {
    assert LogOf(s)[..|LogOf(s)|] == LogOf(s);
    ReplayedLedger(start, LogOf(s));
  }

  lemma StagedKeeps(setup: Setup, s: Live, start: real, k: nat, t: Tick, events: seq<Signal>)
    requires setup.trade.Valid() && RunOk(s, start, k)
    ensures RunOk(Staged(setup, s, t, events), start, k)
  {
    SyncedLike(s, start, k, Staged(setup, s, t, events));
  }

  lemma BatchIsReady(setup: Setup, s: Live, start: real, t: Tick, events: seq<Signal>)
    requires setup.trade.Valid() && RunOk(s, start, |LogOf(s)|)
    ensures RunOk(Staged(setup, s, t, events), start, |LogOf(s)|)
    ensures Ready(Staged(setup, s, t, events), s.book, Passing(setup, s, t, events))
  {
    StagedKeeps(setup, s, start, |LogOf(s)|, t, events);
    BookIsLongOnly(s, start, |LogOf(s)|);
    PassingIsGood(setup, s, t, events);
    DrainedQuantities(s, start);
  }

  lemma BatchSubmitsPassing(setup: Setup, s: Live, t: Tick, events: seq<Signal>)
    requires setup.trade.Valid()
    ensures Batched(setup, s, t, events)
            == SubmitAll(setup, Staged(setup, s, t, events), Passing(setup, s, t, events), t.now, t.world)
  {
  }

  lemma BatchKeeps(setup: Setup, s: Live, start: real, t: Tick, events: seq<Signal>)
    requires setup.trade.Valid() && FairTerms(setup.terms) && RunOk(s, start, |LogOf(s)|)
    ensures RunOk(Batched(setup, s, t, events), start, |LogOf(s)|)
  {
    BatchIsReady(setup, s, start, t, events);
    BatchSubmitsPassing(setup, s, t, events);
    var staged, passed := Staged(setup, s, t, events), Passing(setup, s, t, events);
    SubmitAllKeeps(setup, staged, start, |LogOf(s)|, s.book, passed, t.now, t.world);
  }

  lemma FinishedKeeps(setup: Setup, s: Live, start: real, k: nat, t: Tick)
    requires RunOk(s, start, k)
    ensures RunOk(Finished(setup, s, t), start, |LogOf(s)|) && LogOf(Finished(setup, s, t)) == LogOf(s)
  {
    PollDrainsAll(setup, s, start, k, t.now, t.world, false);
    DrainKeepsRest(setup, s, LogOf(s), t.now);
  }

  lemma BatchDoneKeeps(setup: Setup, s: Live, start: real, k: nat, t: Tick)
    requires setup.trade.Valid() && FairTerms(setup.terms) && RunOk(s, start, k) && t.bars != map[]
    ensures RunOk(BatchDone(setup, s, t), start, |LogOf(s)|)
  {
    PreparedKeeps(setup, s, start, k, t);
    BatchKeeps(setup, Prepared(setup, s, t), start, t, EventsOf(setup, s, t));
  }

  lemma CompletedTickKeeps(setup: Setup, s: Live, start: real, k: nat, t: Tick)
    requires setup.trade.Valid() && FairTerms(setup.terms) && RunOk(s, start, k) && t.Completes()
    ensures var r := Ticked(setup, s, t); RunOk(r, start, |LogOf(r)|) && |LogOf(r)| >= |LogOf(s)|
  {
    BatchDoneKeeps(setup, s, start, k, t);
    FinishedKeeps(setup, BatchDone(setup, s, t), start, |LogOf(s)|, t);
  }

  lemma ConnectedKeeps(s: Live, start: real, k: nat)
    requires Synced(s, start, k)
    ensures Synced(Connected(s), start, k) && LogOf(Connected(s)) == LogOf(s)
  {
    ConnectKeepsBooks(s.venue.value, start);
    SyncedWith(s, start, k, Connected(s).venue.value);
  }

  lemma ConnectKeepsBooks(p: Paper, start: real)
    requires BooksMatchLog(p, start)
    ensures BooksMatchLog(p.(connected := true), start)
  {
  }

  lemma SyncedWith(s: Live, start: real, k: nat, q: Paper)
    requires Synced(s, start, k) && BooksMatchLog(q, start) && q.fillLog == LogOf(s)
    ensures Synced(s.(venue := Some(q)), start, k)
  {
  }

  lemma IdleTickKeeps(setup: Setup, s: Live, start: real, k: nat, t: Tick)
    requires setup.trade.Valid() && RunOk(s, start, k) && t.bars == map[]
    ensures RunOk(Ticked(setup, s, t), start, k)
  {
    ConnectedKeeps(s, start, k);
    ConnectedIsSolvent(s, start);
  }

  lemma ConnectedIsSolvent(s: Live, start: real)
    requires Solvent(s, start)
    ensures Solvent(Connected(s), start)
  {
  }

  lemma FailedTickKeeps(setup: Setup, s: Live, start: real, k: nat, t: Tick)
    requires setup.trade.Valid() && RunOk(s, start, k) && t.bars != map[] && t.fails
    ensures RunOk(Ticked(setup, s, t), start, |LogOf(s)|)
  {
    PreparedKeeps(setup, s, start, k, t);
    var r := Prepared(setup, s, t);
    SyncedLike(r, start, |LogOf(s)|, Failed(setup, s, t));
  }

  lemma CrashedTickKeeps(setup: Setup, s: Live, start: real, k: nat, t: Tick)
    requires setup.trade.Valid() && FairTerms(setup.terms) && RunOk(s, start, k)
    requires t.bars != map[] && !t.fails && t.crash.Some?
    ensures RunOk(Ticked(setup, s, t), start, |LogOf(s)|)
  {
    BatchDoneKeeps(setup, s, start, k, t);
  }

  /** A tick that completes leaves nothing undrained; one that is cut short leaves at most its own fills. */
  lemma TickKeeps(setup: Setup, s: Live, start: real, k: nat, t: Tick) returns (k': nat)
    requires setup.trade.Valid() && FairTerms(setup.terms) && RunOk(s, start, k)
    ensures RunOk(Ticked(setup, s, t), start, k')
    ensures t.Completes() ==> k' == |LogOf(Ticked(setup, s, t))|
    ensures t.bars != map[] ==> k' >= |LogOf(s)|
  {
    if t.bars == map[] {
      k' := k;
      IdleTickKeeps(setup, s, start, k, t);
    } else if t.Completes() {
      CompletedTickKeeps(setup, s, start, k, t);
      k' := |LogOf(Ticked(setup, s, t))|;
    } else {
      k' := |LogOf(s)|;
      if t.fails {
        FailedTickKeeps(setup, s, start, k, t);
      } else {
        CrashedTickKeeps(setup, s, start, k, t);
      }
    }
  }

  // ---- Runs ----------------------------------------------------------------------------------

  /** A fresh paper session: same starting capital on both sides, an empty fill log; the OMS may have been
      restored from an earlier session's log. */
  ghost predicate FreshSession(setup: Setup, s: Live) {
    && s.venue.Some? && s.venue.value.(connected := false) == NewPaper(setup.terms)
    && s.book == Replayed(setup.terms.initialCapital, [])
    && setup.terms.initialCapital >= 0.0
    && Consistent(s.oms) && IdsBelow(s)
  }

  lemma {:induction false} RunKeeps(setup: Setup, s: Live, ticks: seq<Tick>) returns (k: nat)
    requires setup.trade.Valid() && FairTerms(setup.terms) && FreshSession(setup, s)
    ensures RunOk(Run(setup, s, ticks), setup.terms.initialCapital, k)
    ensures ticks != [] && ticks[|ticks| - 1].Completes() ==>
              k == |LogOf(Run(setup, s, ticks))|
  {
    if ticks == [] {
      k := 0;
    } else {
      var before := RunKeeps(setup, s, ticks[..|ticks| - 1]);
      k := TickKeeps(setup, Run(setup, s, ticks[..|ticks| - 1]), setup.terms.initialCapital, before,
                     ticks[|ticks| - 1]);
    }
  }

  lemma {:induction false} CashSplits(start: real, a: seq<Fill>, b: seq<Fill>)
    ensures CashAfter(start, a + b) == CashAfter(CashAfter(start, a), b)
    ensures forall s :: NetQuantity(a + b, s) == NetQuantity(a, s) + NetQuantity(b, s)
  {
    if b == [] {
      assert a + b == a;
    } else {
      assert (a + b)[..|a + b| - 1] == a + b[..|b| - 1];
      CashSplits(start, a, b[..|b| - 1]);
    }
  }

  /** The broker's fill log is what the portfolio has taken, each fill once and in order, followed by what it has
      not taken yet; the ledgers differ by exactly that rest. */
  ghost predicate LedgersAgreeUpTo(p: Paper, b: Book, rest: seq<Fill>) {
    && p.fillLog == b.fills + rest
    && p.cash == CashAfter(b.cash, rest)
    && forall s :: Held(p, s) == At(b, s).quantity + NetQuantity(rest, s)
  }

  /** Every broker fill reaches the portfolio exactly once, over every run with the paper broker. After a tick
      that completes, cash and every position agree. */
  lemma EachFillExactlyOnce(setup: Setup, s: Live, ticks: seq<Tick>) returns (rest: seq<Fill>)
    requires setup.trade.Valid() && FairTerms(setup.terms) && FreshSession(setup, s)
    ensures var t := Run(setup, s, ticks);
            && t.venue.Some? && LedgersAgreeUpTo(t.venue.value, t.book, rest)
            && OneFillEach(LogOf(t))
    ensures ticks != [] && ticks[|ticks| - 1].Completes() ==> rest == []
  {
    var k := RunKeeps(setup, s, ticks);
    var t := Run(setup, s, ticks);
    rest := LogOf(t)[k..];
    SyncedLedgersAgree(t, setup.terms.initialCapital, k);
  }

  lemma SyncedLedgersAgree(t: Live, start: real, k: nat)
    requires Synced(t, start, k)
    ensures LedgersAgreeUpTo(t.venue.value, t.book, LogOf(t)[k..])
  {
    var log := LogOf(t);
    assert log == log[..k] + log[k..];
    ReplayedLedger(start, log[..k]);
    CashSplits(start, log[..k], log[k..]);
  }

  /** Neither ledger's cash is ever negative, and no symbol is ever held short. */
  lemma CashNeverNegative(setup: Setup, s: Live, ticks: seq<Tick>)
    requires setup.trade.Valid() && FairTerms(setup.terms) && FreshSession(setup, s)
    ensures var t := Run(setup, s, ticks);
            && t.venue.Some? && t.venue.value.cash >= 0.0 && t.book.cash >= 0.0
            && LongOnly(t.book) && forall x :: Held(t.venue.value, x) >= 0
  {
    var start := setup.terms.initialCapital;
    var k := RunKeeps(setup, s, ticks);
    var t := Run(setup, s, ticks);
    BookIsLongOnly(t, start, k);
    ReplayedLedger(start, LogOf(t)[..k]);
    PrefixNotOverdrawn(start, LogOf(t), k);
  }

  lemma {:induction false} PrefixNotOverdrawn(start: real, log: seq<Fill>, k: nat)
    requires NeverOverdrawn(start, log) && k <= |log|
    ensures CashAfter(start, log[..k]) >= 0.0
  {
    if k == |log| {
      assert log[..k] == log;
    } else {
      assert log[..|log| - 1][..k] == log[..k];
      PrefixNotOverdrawn(start, log[..|log| - 1], k);
    }
  }
}
