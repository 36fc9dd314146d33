/** Laws of the order book: its log rebuilds it, broker reports commute with repetition, terminal states. */
module OrderLaws {
  import opened Models
  import opened OrderManager

  // ---- Rounding ------------------------------------------------------------------------------

  /** The nearest multiple of a ten-thousandth; of two that are equally near, the even one. */
  lemma RoundingIsClose(x: real)
    ensures AbsR(Round4(x) - x) <= 0.00005
    ensures exists n: int :: Round4(x) == n as real / 10000.0 && (AbsR(n as real - x * 10000.0) == 0.5 ==> n % 2 == 0)
    ensures Round4(Round4(x)) == Round4(x)
  {
    var y := x * 10000.0;
    var n := HalfEven(y);
    assert n as real - 0.5 <= y <= n as real + 0.5;
    assert Round4(x) == n as real / 10000.0 && (AbsR(n as real - y) == 0.5 ==> n % 2 == 0);
    assert Round4(x) * 10000.0 == n as real;
    assert HalfEven(n as real) == n;
  }

  // ---- The log and the book ------------------------------------------------------------------

  /** A record agrees with an order in everything but the broker id, the retry count, the update time and the
      payload. While the order is live, the broker id and the payload agree as well; afterwards the record may still
      lack a broker id. */
  predicate Matches(r: Record, m: Managed) {
    && r.(brokerId := m.brokerId, retries := m.retries, updatedAt := m.updatedAt, payload := m.payload) == ToRecord(m)
    && (r.brokerId == m.brokerId || (m.IsTerminal() && r.brokerId == ""))
    && (!m.IsTerminal() ==> r.payload == m.payload)
  }

  /** The invariant: the last line of every order is its current projection. */
  ghost predicate Faithful(s: Oms) {
    && Consistent(s)
    && FirstSeen(s.log) == s.ids
    && LastRecords(s.log).Keys == s.orders.Keys
    && forall id :: id in s.orders ==> Matches(LastRecords(s.log)[id], s.orders[id])
  }

  lemma LogAppend(log: seq<Record>, r: Record)
    ensures LastRecords(log + [r]) == LastRecords(log)[r.id := r]
    ensures FirstSeen(log + [r]) == if r.id in LastRecords(log) then FirstSeen(log) else FirstSeen(log) + [r.id]
  {
    assert (log + [r])[..|log + [r]| - 1] == log;
    FirstSeenKeys(log);
  }

  lemma SelfMatch(m: Managed)
    ensures Matches(ToRecord(m), m)
  {
  }

  /** A book that lists the same orders over the same log, each matching its last record. */
  lemma FaithfulLike(s: Oms, t: Oms)
    requires Faithful(s) && t.log == s.log && t.ids == s.ids && t.orders.Keys == s.orders.Keys
    requires forall id :: id in t.orders ==>
               t.orders[id].order.id == id && Matches(LastRecords(s.log)[id], t.orders[id])
    ensures Faithful(t)
  {
  }

  /** `t` is `s` with one stored order replaced by `m`; the index does not matter. */
  predicate Replaces(s: Oms, m: Managed, t: Oms) {
    m.order.id in s.orders && t.ids == s.ids && t.orders == s.orders[m.order.id := m]
  }

  lemma AuditedListing(s: Oms, m: Managed, t: Oms)
    requires Consistent(s) && FirstSeen(s.log) == s.ids && LastRecords(s.log).Keys == s.orders.Keys
    requires Replaces(s, m, t) && t.log == s.log + [ToRecord(m)]
    ensures Consistent(t) && FirstSeen(t.log) == t.ids && LastRecords(t.log).Keys == t.orders.Keys
    ensures LastRecords(t.log) == LastRecords(s.log)[m.order.id := ToRecord(m)]
  {
    LogAppend(s.log, ToRecord(m));
  }

  /** Replacing a stored order and writing its record keeps the invariant. */
  lemma AuditedKeeps(s: Oms, m: Managed, t: Oms)
    requires Faithful(s) && Replaces(s, m, t) && t.log == s.log + [ToRecord(m)]
    ensures Faithful(t)
  {
    AuditedListing(s, m, t);
    forall id | id in t.orders ensures Matches(LastRecords(t.log)[id], t.orders[id]) {
      AuditedMatches(s, m, t, id);
    }
  }

  lemma AuditedMatches(s: Oms, m: Managed, t: Oms, id: OrderId)
    requires Faithful(s) && Replaces(s, m, t) && id in t.orders && id in LastRecords(t.log)
    requires LastRecords(t.log) == LastRecords(s.log)[m.order.id := ToRecord(m)]
    ensures Matches(LastRecords(t.log)[id], t.orders[id])
  {
    if id == m.order.id {
      SelfMatch(m);
    }
  }

  /** A change that only touches what the log may miss. */
  predicate Quiet(o: Managed, m: Managed) {
    && m.(brokerId := o.brokerId, retries := o.retries, updatedAt := o.updatedAt, payload := o.payload) == o
    && (m.brokerId == o.brokerId || (o.IsTerminal() && o.brokerId == ""))
    && (o.IsTerminal() || m.payload == o.payload)
  }

  lemma QuietMatches(r: Record, o: Managed, m: Managed)
    requires Matches(r, o) && Quiet(o, m)
    ensures Matches(r, m)
  {
  }

  lemma QuietKeeps(s: Oms, m: Managed, t: Oms)
    requires Faithful(s) && Replaces(s, m, t) && t.log == s.log && Quiet(s.orders[m.order.id], m)
    ensures Faithful(t)
  {
    QuietMatches(LastRecords(s.log)[m.order.id], s.orders[m.order.id], m);
    forall id | id in t.orders ensures t.orders[id].order.id == id && Matches(LastRecords(s.log)[id], t.orders[id]) {
      assert id in s.orders;
    }
    FaithfulLike(s, t);
  }

  lemma CreateKeeps(s: Oms, order: Order, now: Time)
    requires Faithful(s)
    ensures Faithful(Created(s, order, now))
  {
    if order.id !in s.orders {
      CreatedKeeps(s, NewManaged(order, now), Created(s, order, now));
    }
  }

  lemma CreatedKeeps(s: Oms, m: Managed, t: Oms)
    requires Faithful(s) && m.order.id !in s.orders
    requires t.ids == s.ids + [m.order.id] && t.orders == s.orders[m.order.id := m] && t.log == s.log + [ToRecord(m)]
    ensures Faithful(t)
  {
    LogAppend(s.log, ToRecord(m));
    SelfMatch(m);
    ListingGrows(s, m, t);
    forall id | id in t.orders ensures Matches(LastRecords(t.log)[id], t.orders[id]) {
      assert id != m.order.id ==> id in s.orders;
    }
  }

  lemma ListingGrows(s: Oms, m: Managed, t: Oms)
    requires Consistent(s) && m.order.id !in s.orders
    requires t.ids == s.ids + [m.order.id] && t.orders == s.orders[m.order.id := m]
    ensures Consistent(t)
  {
    DistinctAppend(s.ids, m.order.id);
  }

  lemma ReportKeeps(s: Oms, r: Report, payload: Option<string>, now: Time)
    requires Faithful(s)
    ensures Faithful(ReportApplied(s, r, payload, now))
  {
    var target := Target(s, r);
    if target.Some? {
      var o := s.orders[target.value];
      var noted := Noted(o, r, payload, now);
      var caught, n, t := CaughtUp(noted, r, now), Reported(o, r, payload, now), ReportApplied(s, r, payload, now);
      ReportReplaces(s, r, payload, now);
      ReportLogs(s, r, payload, now);
      if t.log == s.log {
        QuietKeeps(s, n, t);
      } else if t.log == s.log + [ToRecord(n)] {
        AuditedKeeps(s, n, t);
      } else {
        AuditedTwiceKeeps(s, caught, n, t);
      }
    }
  }

  /** What a report writes to the log: nothing, the order after it, or also the order after the implied fill. */
  lemma ReportLogs(s: Oms, r: Report, payload: Option<string>, now: Time)
    requires Consistent(s) && Target(s, r).Some?
    ensures var o, t := s.orders[Target(s, r).value], ReportApplied(s, r, payload, now);
            var caught, n := CaughtUp(Noted(o, r, payload, now), r, now), Reported(o, r, payload, now);
            || (t.log == s.log && Quiet(o, n))
            || t.log == s.log + [ToRecord(n)]
            || (t.log == s.log + [ToRecord(caught)] + [ToRecord(n)] && caught.order.id == n.order.id)
  {
  }

  lemma ReportReplaces(s: Oms, r: Report, payload: Option<string>, now: Time)
    requires Consistent(s) && Target(s, r).Some?
    ensures Replaces(s, Reported(s.orders[Target(s, r).value], r, payload, now), ReportApplied(s, r, payload, now))
  {
  }

  lemma AuditedTwiceKeeps(s: Oms, m: Managed, n: Managed, t: Oms)
    requires Faithful(s) && m.order.id == n.order.id && Replaces(s, n, t)
    requires t.log == s.log + [ToRecord(m)] + [ToRecord(n)]
    ensures Faithful(t)
  {
    var between := Between(s, m);
    AuditedKeeps(s, m, between);
    ReplacesTwice(s, m, between, n, t);
    AuditedKeeps(between, n, t);
  }

  function Between(s: Oms, m: Managed): (t: Oms)
    requires m.order.id in s.orders
    ensures Replaces(s, m, t) && t.log == s.log + [ToRecord(m)]
  {
    PutAudited(s, m)
  }

  lemma ReplacesTwice(s: Oms, m: Managed, between: Oms, n: Managed, t: Oms)
    requires Replaces(s, m, between) && Replaces(s, n, t) && m.order.id == n.order.id
    ensures Replaces(between, n, t)
  {
    assert s.orders[m.order.id := m][n.order.id := n] == s.orders[n.order.id := n];
  }

  lemma SubmitKeeps(s: Oms, id: OrderId, brokerId: string, now: Time)
    requires Faithful(s)
    ensures Faithful(MarkedSubmitted(s, id, brokerId, now))
  {
    if id in s.orders && !AlreadySubmitted(s.orders[id], brokerId) {
      AuditedKeeps(s, Submit(s.orders[id], brokerId, now), MarkedSubmitted(s, id, brokerId, now));
    }
  }

  lemma FillKeeps(s: Oms, id: OrderId, quantity: int, price: real, fill: Option<Fill>, now: Time)
    requires Faithful(s)
    ensures Faithful(FillApplied(s, id, quantity, price, fill, now))
  {
    if id in s.orders && TakesFill(s.orders[id], quantity) {
      var m := Execute(s.orders[id], quantity, price, fill, now);
      ExecuteKeepsOrder(s.orders[id], quantity, price, fill, now);
      AuditedKeeps(s, m, PutAudited(s, m));
    }
  }

  lemma ExecuteKeepsOrder(m: Managed, quantity: int, price: real, fill: Option<Fill>, now: Time)
    ensures Execute(m, quantity, price, fill, now).order == m.order
  {
  }

  lemma FillKeepsListing(s: Oms, id: OrderId, quantity: int, price: real, fill: Option<Fill>, now: Time)
    requires Consistent(s)
    ensures var t := FillApplied(s, id, quantity, price, fill, now); Consistent(t) && t.orders.Keys == s.orders.Keys
  {
    if id in s.orders {
      ExecuteKeepsOrder(s.orders[id], quantity, price, fill, now);
    }
  }

  lemma ForceKeeps(s: Oms, id: OrderId, now: Time)
    requires Faithful(s)
    ensures Faithful(MarkedFilled(s, id, now))
  {
    if id in s.orders && !s.orders[id].status.Filled? {
      AuditedKeeps(s, ForceFilled(s.orders[id], now), MarkedFilled(s, id, now));
    }
  }

  lemma FinishKeeps(s: Oms, id: OrderId, status: OrderStatus, reason: string, now: Time)
    requires Faithful(s)
    ensures Faithful(MarkedFinished(s, id, status, reason, now))
  {
    if id in s.orders && !s.orders[id].IsTerminal() {
      AuditedKeeps(s, Finish(s.orders[id], status, reason, now), MarkedFinished(s, id, status, reason, now));
    }
  }

  lemma RejectKeeps(s: Oms, id: OrderId, reason: string, now: Time)
    requires Faithful(s)
    ensures Faithful(MarkedRejected(s, id, reason, now))
  {
    if id in s.orders && !(s.orders[id].status.Rejected? && s.orders[id].rejection == reason) {
      AuditedKeeps(s, Reject(s.orders[id], reason, now), MarkedRejected(s, id, reason, now));
    }
  }

  lemma RetryKeeps(s: Oms, id: OrderId, now: Time)
    requires Faithful(s)
    ensures Faithful(Retried(s, id, now))
  {
    if id in s.orders {
      QuietKeeps(s, s.orders[id].(retries := s.orders[id].retries + 1, updatedAt := now), Retried(s, id, now));
    }
  }

  lemma StepKeeps(s: Oms, op: Op, now: Time)
    requires Faithful(s)
    ensures Faithful(Step(s, op, now))
  {
    match op
    case CreateOp(order) => CreateKeeps(s, order, now);
    case SubmitOp(id, brokerId) => SubmitKeeps(s, id, brokerId, now);
    case FillOp(id, quantity, price, fill) => FillKeeps(s, id, quantity, price, fill, now);
    case FilledOp(id) => ForceKeeps(s, id, now);
    case CancelOp(id) => FinishKeeps(s, id, Cancelled, "cancelled", now);
    case RejectOp(id, reason) => RejectKeeps(s, id, reason, now);
    case ExpireOp(id) => FinishKeeps(s, id, Expired, "expired", now);
    case RetryOp(id) => RetryKeeps(s, id, now);
    case ReportOp(r, payload) => ReportKeeps(s, r, payload, now);
  }

  // ---- Replay --------------------------------------------------------------------------------

  /** What a replay gives back of an order. */
  predicate Restored(m: Managed, n: Managed) {
    && n.order == m.order.(limitPrice := None, stopPrice := None, signalId := None)
    && n.status == m.status && n.filled == m.filled && n.rejection == m.rejection && n.reason == m.reason
    && n.createdAt == m.createdAt && n.submittedAt == m.submittedAt && n.terminalAt == m.terminalAt
    && n.avgPrice == Round4(m.avgPrice) && AbsR(n.avgPrice - m.avgPrice) <= 0.00005
    && (!m.IsTerminal() ==> n.brokerId == m.brokerId && n.payload == m.payload)
  }

  lemma RecordRestores(r: Record, m: Managed)
    requires Matches(r, m)
    ensures Restorable(r) <==> m.order.kind.Market?
    ensures Restorable(r) ==> Restored(m, Restore(r))
  {
    RoundingIsClose(m.avgPrice);
  }

  /** Reading the log back succeeds exactly when every order is a market order, and then it restores all of
      them in creation order. */
  lemma ReplayRestores(s: Oms)
    requires Faithful(s)
    ensures Loaded(s.log).1 <==> forall id :: id in s.orders ==> s.orders[id].order.kind.Market?
    ensures Loaded(s.log).1 ==>
              var t := Loaded(s.log).0;
              && t.ids == s.ids && t.orders.Keys == s.orders.Keys
              && forall id :: id in s.orders ==> Restored(s.orders[id], t.orders[id])
  {
    FirstSeenKeys(s.log);
    var last := LastRecords(s.log);
    RebuiltIds(s.log, last, s.ids);
    forall id | id in s.orders
      ensures Restorable(last[id]) <==> s.orders[id].order.kind.Market?
      ensures Restorable(last[id]) ==> Restored(s.orders[id], Restore(last[id]))
    {
      RecordRestores(last[id], s.orders[id]);
    }
  }

  lemma {:induction false} RebuiltKeepsLog(log: seq<Record>, last: map<OrderId, Record>, ids: seq<OrderId>)
    requires forall id :: id in ids ==> id in last
    ensures Rebuilt(log, last, ids).0.log == log
  {
    if ids != [] {
      RebuiltKeepsLog(log, last, ids[..|ids| - 1]);
    }
  }

  /** A replayed book is again faithful to the log it came from. */
  lemma LoadKeeps(s: Oms)
    requires Faithful(s) && forall id :: id in s.orders ==> s.orders[id].order.kind.Market?
    ensures Faithful(Loaded(s.log).0)
  {
    var last, t := LastRecords(s.log), Loaded(s.log).0;
    ReplayRestores(s);
    FirstSeenKeys(s.log);
    RebuiltKeepsLog(s.log, last, s.ids);
    forall id | id in t.orders ensures t.orders[id].order.id == id && Matches(last[id], t.orders[id]) {
      assert id in s.orders;
      LoadedMatches(s, id);
    }
    FaithfulLike(s, t);
  }

  lemma LoadedMatches(s: Oms, id: OrderId)
    requires Faithful(s) && Loaded(s.log).1 && id in s.orders
    ensures id in Loaded(s.log).0.orders && id in LastRecords(s.log)
    ensures var n := Loaded(s.log).0.orders[id]; n.order.id == id && Matches(LastRecords(s.log)[id], n)
  {
    FirstSeenKeys(s.log);
    RebuiltIds(s.log, LastRecords(s.log), s.ids);
    RestoreMatches(LastRecords(s.log)[id], s.orders[id]);
  }

  lemma RestoreMatches(r: Record, m: Managed)
    requires Matches(r, m) && Restorable(r)
    ensures Matches(r, Restore(r)) && Restore(r).order.id == r.id
  {
    RoundingIsClose(m.avgPrice);
  }

  datatype Event = Do(op: Op, now: Time) | Load

  function After(s: Oms, events: seq<Event>): Oms {
    if events == [] then s
    else
      var before := After(s, events[..|events| - 1]);
      match events[|events| - 1]
      case Do(op, now) => Step(before, op, now)
      case Load => Loaded(before.log).0
  }

  ghost predicate OnlyMarketOrders(events: seq<Event>) {
    forall i :: 0 <= i < |events| && events[i].Do? && events[i].op.CreateOp? ==> events[i].op.order.kind.Market?
  }

  ghost predicate AllMarket(s: Oms) {
    forall id :: id in s.orders ==> s.orders[id].order.kind.Market?
  }

  lemma StepKeepsMarket(s: Oms, op: Op, now: Time)
    requires Consistent(s) && AllMarket(s) && (op.CreateOp? ==> op.order.kind.Market?)
    ensures AllMarket(Step(s, op, now))
  {
    var t := Step(s, op, now);
    forall id | id in t.orders ensures t.orders[id].order.kind.Market? {
      if id in s.orders {
        StepKeepsOrder(s, op, now, id);
      }
    }
  }

  lemma StepKeepsOrder(s: Oms, op: Op, now: Time, id: OrderId)
    requires Consistent(s) && id in s.orders
    ensures id in Step(s, op, now).orders && Step(s, op, now).orders[id].order == s.orders[id].order
  {
    if op.ReportOp? {
      ReportTouchesOne(s, op.report, op.payload, now);
    } else if !op.CreateOp? && !op.RetryOp? && Step(s, op, now) != s {
      var m := OneWrite(s, op, now);
    }
  }

  /** Every history of operations, with restarts from the log at any points, can be replayed from its log. */
  lemma {:induction false} EveryHistoryReplays(events: seq<Event>)
    requires OnlyMarketOrders(events)
    ensures var s := After(EMPTY_OMS, events);
            && Faithful(s) && AllMarket(s) && Loaded(s.log).1
            && Loaded(s.log).0.ids == s.ids
            && forall id :: id in s.orders ==>
                 id in Loaded(s.log).0.orders && Restored(s.orders[id], Loaded(s.log).0.orders[id])
  {
    var s := After(EMPTY_OMS, events);
    if events != [] {
      var init, e := events[..|events| - 1], events[|events| - 1];
      EveryHistoryReplays(init);
      var before := After(EMPTY_OMS, init);
      match e {
        case Do(op, now) =>
          StepKeeps(before, op, now);
          StepKeepsMarket(before, op, now);
        case Load =>
          LoadKeeps(before);
          ReplayRestores(before);
      }
    }
    ReplayRestores(s);
  }

  // ---- Retry counts --------------------------------------------------------------------------

  function RetriesOf(s: Oms, id: OrderId): nat {
    if id in s.orders then s.orders[id].retries else 0
  }

  function LoggedRetries(s: Oms, id: OrderId): nat {
    if id in LastRecords(s.log) then LastRecords(s.log)[id].retries else 0
  }

  /** The last thing the log says is about this order. */
  predicate EndsWith(log: seq<Record>, before: seq<Record>, id: OrderId) {
    |log| > |before| && log[|log| - 1].id == id
  }

  /** `t` is `s` with one order replaced, and its record is the last of the lines written, all of them about it. */
  ghost predicate Writes(s: Oms, m: Managed, t: Oms) {
    && t.orders == s.orders[m.order.id := m]
    && (t.log == s.log + [ToRecord(m)]
        || exists r: Record :: r.id == m.order.id && t.log == s.log + [r] + [ToRecord(m)])
  }

  lemma WrittenIsCounted(s: Oms, m: Managed, t: Oms, id: OrderId)
    requires Writes(s, m, t)
    ensures EndsWith(t.log, s.log, id) <==> id == m.order.id
    ensures if id == m.order.id then LoggedRetries(t, id) == RetriesOf(t, id)
            else LoggedRetries(t, id) == LoggedRetries(s, id) && RetriesOf(t, id) == RetriesOf(s, id)
  {
    if t.log == s.log + [ToRecord(m)] {
      LogAppend(s.log, ToRecord(m));
    } else {
      var r: Record :| r.id == m.order.id && t.log == s.log + [r] + [ToRecord(m)];
      LogAppend(s.log, r);
      LogAppend(s.log + [r], ToRecord(m));
    }
  }

  /** What an operation does to the retry count of an order, in the book and in the log. */
  predicate CountsAfter(s: Oms, op: Op, t: Oms, id: OrderId) {
    if EndsWith(t.log, s.log, id) then LoggedRetries(t, id) == RetriesOf(t, id)
    else
      && LoggedRetries(t, id) == LoggedRetries(s, id)
      && RetriesOf(t, id) == RetriesOf(s, id) + (if op == RetryOp(id) && id in s.orders then 1 else 0)
  }

  lemma StepCounts(s: Oms, op: Op, now: Time, id: OrderId)
    requires Consistent(s)
    ensures CountsAfter(s, op, Step(s, op, now), id)
  {
    var t := Step(s, op, now);
    match op
    case CreateOp(order) =>
      if order.id !in s.orders {
        WrittenIsCounted(s, NewManaged(order, now), t, id);
      }
    case RetryOp(_) =>
    case ReportOp(r, payload) => ReportCounts(s, r, payload, now, id);
    case _ =>
      if t != s {
        var m := OneWrite(s, op, now);
        WrittenIsCounted(s, m, t, id);
      }
  }

  /** The other operations write one line about the one order they change. */
  lemma OneWrite(s: Oms, op: Op, now: Time) returns (m: Managed)
    requires Consistent(s) && Step(s, op, now) != s && !op.CreateOp? && !op.RetryOp? && !op.ReportOp?
    ensures m.order.id in s.orders && m.order == s.orders[m.order.id].order && Writes(s, m, Step(s, op, now))
  {
    match op
    case SubmitOp(id, brokerId) => m := Submit(s.orders[id], brokerId, now);
    case FillOp(id, quantity, price, fill) =>
      m := Execute(s.orders[id], quantity, price, fill, now);
      ExecuteKeepsOrder(s.orders[id], quantity, price, fill, now);
    case FilledOp(id) => m := ForceFilled(s.orders[id], now);
    case CancelOp(id) => m := Finish(s.orders[id], Cancelled, "cancelled", now);
    case ExpireOp(id) => m := Finish(s.orders[id], Expired, "expired", now);
    case RejectOp(id, reason) => m := Reject(s.orders[id], reason, now);
  }

  lemma ReportCounts(s: Oms, r: Report, payload: Option<string>, now: Time, id: OrderId)
    requires Consistent(s)
    ensures CountsAfter(s, ReportOp(r, payload), ReportApplied(s, r, payload, now), id)
  {
    var t := ReportApplied(s, r, payload, now);
    if Target(s, r).Some? {
      var m := Reported(s.orders[Target(s, r).value], r, payload, now);
      ReportReplaces(s, r, payload, now);
      ReportLogs(s, r, payload, now);
      if t.log != s.log {
        WrittenIsCounted(s, m, t, id);
      }
    }
  }

  /** The log has the retry count of this order. */
  predicate CountLogged(s: Oms, id: OrderId) {
    RetriesOf(s, id) == LoggedRetries(s, id)
  }

  ghost predicate KeepsCounts(s: Oms, t: Oms) {
    forall id :: CountLogged(s, id) ==> CountLogged(t, id)
  }

  lemma StepKeepsCounts(s: Oms, op: Op, now: Time)
    requires Consistent(s) && !op.RetryOp?
    ensures KeepsCounts(s, Step(s, op, now))
  {
    forall id | CountLogged(s, id) ensures CountLogged(Step(s, op, now), id) {
      StepCounts(s, op, now, id);
    }
  }

  lemma ReportKeepsCounts(s: Oms, r: Report, payload: Option<string>, now: Time)
    requires Consistent(s)
    ensures KeepsCounts(s, ReportApplied(s, r, payload, now))
  {
    forall id | CountLogged(s, id) ensures CountLogged(ReportApplied(s, r, payload, now), id) {
      ReportCounts(s, r, payload, now, id);
    }
  }

  /** The retries of an order since the log last had a line about it. */
  function UnloggedRetries(events: seq<Event>, id: OrderId): nat {
    if events == [] then 0
    else
      var init := events[..|events| - 1];
      var before := After(EMPTY_OMS, init);
      match events[|events| - 1]
      case Load => 0
      case Do(op, now) =>
        if EndsWith(Step(before, op, now).log, before.log, id) then 0
        else UnloggedRetries(init, id) + (if op == RetryOp(id) && id in before.orders then 1 else 0)
  }

  lemma {:induction false} RetriesBehind(events: seq<Event>, id: OrderId)
    requires OnlyMarketOrders(events)
    ensures var s := After(EMPTY_OMS, events); RetriesOf(s, id) == LoggedRetries(s, id) + UnloggedRetries(events, id)
  {
    if events != [] {
      var init, e := events[..|events| - 1], events[|events| - 1];
      var before := After(EMPTY_OMS, init);
      RetriesBehind(init, id);
      EveryHistoryReplays(init);
      match e {
        case Do(op, now) => StepCounts(before, op, now, id);
        case Load => LoadedCounts(before, id);
      }
    }
  }

  /** A replayed order has the retry count of its last line. */
  lemma LoadedCounts(s: Oms, id: OrderId)
    requires Faithful(s) && AllMarket(s)
    ensures var t := Loaded(s.log).0;
            RetriesOf(t, id) == LoggedRetries(s, id) && LoggedRetries(t, id) == LoggedRetries(s, id)
            && (id in t.orders <==> id in s.orders)
  {
    ReplayRestores(s);
    FirstSeenKeys(s.log);
    RebuiltIds(s.log, LastRecords(s.log), s.ids);
    RebuiltKeepsLog(s.log, LastRecords(s.log), s.ids);
  }

  /** The count is written with every line but the retry itself writes none: a replay restores an order's retries
      exactly when no retry has followed its last line, and otherwise loses those that have. */
  lemma RetriesAreRestored(events: seq<Event>, id: OrderId)
    requires OnlyMarketOrders(events) && id in After(EMPTY_OMS, events).orders
    ensures var s := After(EMPTY_OMS, events);
            var t := Loaded(s.log).0;
            && id in t.orders
            && s.orders[id].retries - t.orders[id].retries == UnloggedRetries(events, id)
            && (t.orders[id].retries == s.orders[id].retries <==> UnloggedRetries(events, id) == 0)
  {
    EveryHistoryReplays(events);
    RetriesBehind(events, id);
    LoadedCounts(After(EMPTY_OMS, events), id);
  }

  /** The case that fails: a retry with nothing after it. */
  lemma LastRetryIsLost(order: Order, now: Time)
    requires order.kind.Market?
    ensures var events := [Do(CreateOp(order), now), Do(RetryOp(order.id), now)];
            var s := After(EMPTY_OMS, events);
            && order.id in s.orders && s.orders[order.id].retries == 1
            && order.id in Loaded(s.log).0.orders && Loaded(s.log).0.orders[order.id].retries == 0
  {
    var events := [Do(CreateOp(order), now), Do(RetryOp(order.id), now)];
    assert events[..1] == [Do(CreateOp(order), now)] && events[..1][..0] == [];
    assert After(EMPTY_OMS, events[..1]) == Created(EMPTY_OMS, order, now);
    RetriesAreRestored(events, order.id);
  }

  // ---- Broker reports on one order -----------------------------------------------------------

  datatype Notice = Notice(report: Report, payload: Option<string>, at: Time)

  function ReportedAll(m: Managed, notices: seq<Notice>): Managed {
    if notices == [] then m
    else
      var n := notices[|notices| - 1];
      Reported(ReportedAll(m, notices[..|notices| - 1]), n.report, n.payload, n.at)
  }

  function MaxFilled(start: int, notices: seq<Notice>): int {
    if notices == [] then start
    else
      var before, f := MaxFilled(start, notices[..|notices| - 1]), notices[|notices| - 1].report.filled;
      if f > before then f else before
  }

  /** No more is filled than was ordered, and only a full order is final. */
  predicate FilledUpTo(m: Managed) {
    m.filled <= m.order.quantity && (m.IsTerminal() ==> m.status.Filled? && m.filled == m.order.quantity)
  }

  lemma ReportTakesMaximum(m: Managed, r: Report, payload: Option<string>, now: Time)
    requires FilledUpTo(m) && !r.status.IsTerminal() && r.filled <= m.order.quantity
    ensures var n := Reported(m, r, payload, now);
            n.order == m.order && FilledUpTo(n) && n.filled == (if r.filled > m.filled then r.filled else m.filled)
  {
  }

  /** Repeated, stale and reordered reports: the filled quantity is always the largest one reported. */
  lemma {:induction false} FilledIsMaximum(m: Managed, notices: seq<Notice>)
    requires !m.IsTerminal() && m.filled <= m.order.quantity
    requires forall i :: 0 <= i < |notices| ==>
               !notices[i].report.status.IsTerminal() && notices[i].report.filled <= m.order.quantity
    ensures ReportedAll(m, notices).filled == MaxFilled(m.filled, notices)
    ensures ReportedAll(m, notices).order == m.order && ReportedAll(m, notices).filled <= m.order.quantity
    ensures ReportedAll(m, notices).IsTerminal() ==>
              ReportedAll(m, notices).status.Filled? && ReportedAll(m, notices).filled == m.order.quantity
  {
    if notices != [] {
      var n := notices[|notices| - 1];
      FilledIsMaximum(m, notices[..|notices| - 1]);
      ReportTakesMaximum(ReportedAll(m, notices[..|notices| - 1]), n.report, n.payload, n.at);
    }
  }

  /** No report, whatever it says, takes a fill back or reopens a terminal order. */
  lemma ReportsOnlyAdd(m: Managed, r: Report, payload: Option<string>, now: Time)
    ensures Reported(m, r, payload, now).filled >= m.filled
    ensures m.IsTerminal() ==> Reported(m, r, payload, now) == Noted(m, r, payload, now)
  {
  }

  /** The reported quantity completes an order that still had shares left. */
  predicate Completes(m: Managed, r: Report) {
    m.filled < m.order.quantity <= r.filled
  }

  /** The status of an open order after a report: FILLED if the reported quantity completes it; otherwise the reported
      status if that is final or PARTIALLY_FILLED, and SUBMITTED for any other. The order gets a closing time exactly
      when it is final, and a rejection text only from a report that rejects it. */
  lemma ReportedStatus(m: Managed, r: Report, payload: Option<string>, now: Time)
    requires !m.IsTerminal()
    ensures var n := Reported(m, r, payload, now);
            && n.status == (if Completes(m, r) then Filled
                            else if r.status.IsTerminal() || r.status.PartiallyFilled? then r.status
                            else Submitted)
            && n.terminalAt == (if n.IsTerminal() then Some(now) else m.terminalAt)
            && n.rejection == (if n.status.Rejected? then r.rejection else m.rejection)
  {
    assert TakesFill(m, r.filled - m.filled) <==> m.filled < r.filled && m.filled < m.order.quantity;
  }

  /** Applying a report again changes nothing but the update time. */
  lemma ReportIsIdempotent(m: Managed, r: Report, payload: Option<string>, first: Time, again: Time)
    ensures var once := Reported(m, r, payload, first);
            Reported(once, r, payload, again) == once.(updatedAt := again)
  {
    var once := Reported(m, r, payload, first);
    NotingTwice(m, r, payload, first, again);
    NothingLeftToCatchUp(m, r, payload, first, again);
    if !once.IsTerminal() {
      assert once == TakeStatus(CaughtUp(Noted(m, r, payload, first), r, first), r, first);
      StatusStays(CaughtUp(Noted(m, r, payload, first), r, first), r, first, again);
    }
  }

  lemma NotingTwice(m: Managed, r: Report, payload: Option<string>, first: Time, again: Time)
    ensures var once := Reported(m, r, payload, first); Noted(once, r, payload, again) == once.(updatedAt := again)
  {
  }

  lemma NothingLeftToCatchUp(m: Managed, r: Report, payload: Option<string>, first: Time, again: Time)
    ensures var noted := Reported(m, r, payload, first).(updatedAt := again); CaughtUp(noted, r, again) == noted
  {
  }

  lemma StatusStays(m: Managed, r: Report, first: Time, again: Time)
    requires !TakeStatus(m, r, first).IsTerminal()
    ensures var n := TakeStatus(m, r, first).(updatedAt := again); TakeStatus(n, r, again) == n
  {
  }

  // ---- Average prices ------------------------------------------------------------------------

  datatype Part = Part(quantity: int, price: real, at: Time)

  function Executions(m: Managed, parts: seq<Part>): Managed {
    if parts == [] then m
    else
      var before, p := Executions(m, parts[..|parts| - 1]), parts[|parts| - 1];
      if TakesFill(before, p.quantity) then Execute(before, p.quantity, p.price, None, p.at) else before
  }

  /** What the fills that were taken cost. */
  function Spent(m: Managed, parts: seq<Part>): real {
    if parts == [] then 0.0
    else
      var init, p := parts[..|parts| - 1], parts[|parts| - 1];
      Spent(m, init) + (if TakesFill(Executions(m, init), p.quantity) then Worth(p.price, p.quantity) else 0.0)
  }

  lemma MixedTimesQuantity(avg: real, held: int, price: real, added: int)
    requires held >= 0 && added > 0
    ensures Worth(Mixed(avg, held, price, added), held + added) == Worth(avg, held) + Worth(price, added)
  {
    var total, n := Worth(avg, held) + Worth(price, added), (held + added) as real;
    assert total / n * n == total;
  }

  /** The average price of an order is always the quantity-weighted average of the fills it took. */
  lemma {:induction false} AverageIsWeighted(m: Managed, parts: seq<Part>)
    requires m.filled >= 0
    ensures var n := Executions(m, parts);
            n.filled >= 0 && Worth(n.avgPrice, n.filled) == Worth(m.avgPrice, m.filled) + Spent(m, parts)
  {
    if parts != [] {
      var init, p := parts[..|parts| - 1], parts[|parts| - 1];
      AverageIsWeighted(m, init);
      var before := Executions(m, init);
      if TakesFill(before, p.quantity) {
        MixedTimesQuantity(before.avgPrice, before.filled, p.price, p.quantity);
      }
    }
  }

  /** A report's price is the broker's cumulative average, but is taken as the price of the increment. The order ends
      up with the broker's average exactly when it had no fills before or the average has not moved. */
  lemma ReportedAverage(m: Managed, r: Report, now: Time)
    requires 0 <= m.filled < r.filled && TakesFill(m, r.filled - m.filled)
    ensures CaughtUp(m, r, now).avgPrice == r.avgPrice <==> m.filled == 0 || m.avgPrice == r.avgPrice
  {
    var n := CaughtUp(m, r, now);
    MixedTimesQuantity(m.avgPrice, m.filled, r.avgPrice, r.filled - m.filled);
    WorthAdds(r.avgPrice, m.filled, r.filled - m.filled);
    SameWorth(m.avgPrice, r.avgPrice, m.filled);
    SameWorth(n.avgPrice, r.avgPrice, r.filled);
  }

  lemma SameWorth(p: real, q: real, n: int)
    requires n >= 0
    ensures Worth(p, n) == Worth(q, n) <==> n == 0 || p == q
  {
    WorthDiffers(p, q, n);
    if p > q {
      WorthMonotone(p - q, 0, n);
    } else if p < q {
      WorthMonotone(q - p, 0, n);
      WorthDiffers(q, p, n);
    }
  }

  // ---- Terminal states -----------------------------------------------------------------------

  /** The operations that overwrite a terminal status. */
  predicate Overwrites(m: Managed, op: Op) {
    match op
    case SubmitOp(id, brokerId) => id == m.order.id && !AlreadySubmitted(m, brokerId)
    case FilledOp(id) => id == m.order.id && !m.status.Filled?
    case RejectOp(id, _) => id == m.order.id && !m.status.Rejected?
    case _ => false
  }

  /** Terminal states absorb every operation except three unguarded ones: the status survives exactly when the
      operation is not one of those, and the quantity and price always do. */
  lemma TerminalAbsorbs(s: Oms, op: Op, now: Time, id: OrderId)
    requires Consistent(s) && id in s.orders && s.orders[id].IsTerminal()
    ensures var m, n := s.orders[id], Step(s, op, now).orders[id];
            && id in Step(s, op, now).orders
            && (n.status == m.status <==> !Overwrites(m, op))
            && n.filled == m.filled && n.avgPrice == m.avgPrice
  {
    if op.ReportOp? {
      ReportAbsorbed(s, op.report, op.payload, now, id);
    } else {
      OperationAbsorbed(s, op, now, id);
    }
  }

  /** The operation leaves the quantity and the price, and keeps the status if and only if it does not overwrite it. */
  ghost predicate Absorbs(s: Oms, op: Op, t: Oms, id: OrderId)
    requires id in s.orders
  {
    && id in t.orders && (t.orders[id].status == s.orders[id].status <==> !Overwrites(s.orders[id], op))
    && t.orders[id].filled == s.orders[id].filled && t.orders[id].avgPrice == s.orders[id].avgPrice
  }

  lemma OperationAbsorbed(s: Oms, op: Op, now: Time, id: OrderId)
    requires Consistent(s) && id in s.orders && s.orders[id].IsTerminal() && !op.ReportOp?
    ensures Absorbs(s, op, Step(s, op, now), id)
  {
    match op
    case CreateOp(_) =>
    case SubmitOp(x, brokerId) => SubmitAbsorbed(s, x, brokerId, now, id);
    case FillOp(x, quantity, price, fill) => FillAbsorbed(s, x, quantity, price, fill, now, id);
    case FilledOp(_) =>
    case RejectOp(x, reason) => RejectAbsorbed(s, x, reason, now, id);
    case CancelOp(_) =>
    case ExpireOp(_) =>
    case RetryOp(_) =>
  }

  lemma SubmitAbsorbed(s: Oms, x: OrderId, brokerId: string, now: Time, id: OrderId)
    requires Consistent(s) && id in s.orders && s.orders[id].IsTerminal()
    ensures Absorbs(s, SubmitOp(x, brokerId), MarkedSubmitted(s, x, brokerId, now), id)
  {
  }

  lemma FillAbsorbed(s: Oms, x: OrderId, quantity: int, price: real, fill: Option<Fill>, now: Time, id: OrderId)
    requires Consistent(s) && id in s.orders && s.orders[id].IsTerminal()
    ensures Absorbs(s, FillOp(x, quantity, price, fill), FillApplied(s, x, quantity, price, fill, now), id)
  {
    if x in s.orders && TakesFill(s.orders[x], quantity) {
      ExecuteKeepsOrder(s.orders[x], quantity, price, fill, now);
    }
  }

  lemma RejectAbsorbed(s: Oms, x: OrderId, reason: string, now: Time, id: OrderId)
    requires Consistent(s) && id in s.orders && s.orders[id].IsTerminal()
    ensures Absorbs(s, RejectOp(x, reason), MarkedRejected(s, x, reason, now), id)
  {
  }

  lemma ReportAbsorbed(s: Oms, r: Report, payload: Option<string>, now: Time, id: OrderId)
    requires Consistent(s) && id in s.orders && s.orders[id].IsTerminal()
    ensures var m, n := s.orders[id], ReportApplied(s, r, payload, now).orders[id];
            && id in ReportApplied(s, r, payload, now).orders
            && n.status == m.status && n.filled == m.filled && n.avgPrice == m.avgPrice
  {
    ReportTouchesOne(s, r, payload, now);
    if Target(s, r) == Some(id) {
      ReportsOnlyAdd(s.orders[id], r, payload, now);
    }
  }

  lemma ReportTouchesOne(s: Oms, r: Report, payload: Option<string>, now: Time)
    requires Consistent(s)
    ensures ReportApplied(s, r, payload, now).ids == s.ids
    ensures ReportApplied(s, r, payload, now).orders ==
              match Target(s, r)
              case None => s.orders
              case Some(t) => s.orders[t := Reported(s.orders[t], r, payload, now)]
  {
    if Target(s, r).Some? {
      ReportKeepsOrder(s.orders[Target(s, r).value], r, payload, now);
    }
  }

  lemma ReportKeepsOrder(m: Managed, r: Report, payload: Option<string>, now: Time)
    ensures Reported(m, r, payload, now).order == m.order
  {
  }
}
