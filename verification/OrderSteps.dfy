/** The life of one order in cpat/infrastructure/order_manager.py: the status table of an open order, and what a final
    order carries over every history. */
module OrderSteps {
  import opened Models
  import opened OrderManager
  import opened OrderLaws

  // ---- The status table ----------------------------------------------------------------------

  /** The operation is addressed to the order. */
  predicate About(s: Oms, op: Op, id: OrderId) {
    match op
    case CreateOp(_) => false
    case ReportOp(r, _) => Target(s, r) == Some(id)
    case _ => op.id == id
  }

  /** The quantity an open order is filled after an operation on it. */
  function FilledAfter(m: Managed, op: Op): int {
    match op
    case FillOp(_, q, _, _) => if q > 0 && m.filled < m.order.quantity then m.filled + q else m.filled
    case ReportOp(r, _) =>
      if r.filled > m.filled && (m.filled < m.order.quantity || r.status.Filled?) then r.filled else m.filled
    case _ => m.filled
  }

  /** Fills decide between PARTIALLY_FILLED and FILLED, a report that does not complete the order has the last word,
      and every mark sets its own status. */
  function StatusAfter(m: Managed, op: Op): OrderStatus {
    match op
    case CreateOp(_) => m.status
    case RetryOp(_) => m.status
    case SubmitOp(_, brokerId) => if m.brokerId == brokerId && m.status.PartiallyFilled? then m.status else Submitted
    case FilledOp(_) => Filled
    case CancelOp(_) => Cancelled
    case ExpireOp(_) => Expired
    case RejectOp(_, _) => Rejected
    case FillOp(_, _, _, _) =>
      if FilledAfter(m, op) == m.filled then m.status
      else if FilledAfter(m, op) < m.order.quantity then PartiallyFilled
      else Filled
    case ReportOp(r, _) =>
      if m.filled < m.order.quantity <= r.filled then Filled
      else if r.status.IsTerminal() || r.status.PartiallyFilled? then r.status
      else Submitted
  }

  /** An open order follows the table: an operation that is not about it leaves it alone, and any other leads to the
      status and the quantity above, with a closing time exactly when the order is final, a submission time only from
      being marked submitted, a broker id from that or from the first report that has one, and one more retry only from
      a retry. */
  lemma OpenOrderMoves(s: Oms, op: Op, now: Time, id: OrderId)
    requires Consistent(s) && id in s.orders && !s.orders[id].IsTerminal()
    ensures id in Step(s, op, now).orders
    ensures var m, n := s.orders[id], Step(s, op, now).orders[id];
            if About(s, op, id) then Moves(m, op, now, n) else n == m
  {
    match op
    case ReportOp(r, payload) =>
      ReportTouchesOne(s, r, payload, now);
      if Target(s, r) == Some(id) {
        ReportMoves(s.orders[id], r, payload, now);
      }
    case FillOp(x, q, price, fill) =>
      if x == id {
        FillMoves(s.orders[id], q, price, fill, now);
      } else {
        OtherStays(s, op, now, id);
      }
    case _ =>
      if About(s, op, id) {
        MarkMoves(s, op, now, id);
      } else {
        OtherStays(s, op, now, id);
      }
  }

  predicate Moves(m: Managed, op: Op, now: Time, n: Managed) {
    var sent := op.SubmitOp? && !(m.brokerId == op.brokerId && (m.status.Submitted? || m.status.PartiallyFilled?));
    && n.order == m.order && n.createdAt == m.createdAt
    && n.status == StatusAfter(m, op) && n.filled == FilledAfter(m, op)
    && n.terminalAt == (if n.IsTerminal() then Some(now) else m.terminalAt)
    && n.submittedAt == (if sent then Some(now) else m.submittedAt)
    && n.retries == (if op.RetryOp? then m.retries + 1 else m.retries)
    && n.brokerId == (if op.SubmitOp? then op.brokerId
                      else if op.ReportOp? && m.brokerId == "" then op.report.brokerId
                      else m.brokerId)
    && (op.RejectOp? ==> n.rejection == op.reason)
    && (op.ReportOp? && n.status.Rejected? ==> n.rejection == op.report.rejection)
  }

  lemma ReportMoves(m: Managed, r: Report, payload: Option<string>, now: Time)
    requires !m.IsTerminal()
    ensures Moves(m, ReportOp(r, payload), now, Reported(m, r, payload, now))
  {
    ReportKeepsOrder(m, r, payload, now);
    ReportedStatus(m, r, payload, now);
  }

  lemma FillMoves(m: Managed, quantity: int, price: real, fill: Option<Fill>, now: Time)
    requires !m.IsTerminal()
    ensures var n := if TakesFill(m, quantity) then Execute(m, quantity, price, fill, now) else m;
            Moves(m, FillOp(m.order.id, quantity, price, fill), now, n)
  {
    ExecuteKeepsOrder(m, quantity, price, fill, now);
  }

  lemma MarkMoves(s: Oms, op: Op, now: Time, id: OrderId)
    requires Consistent(s) && id in s.orders && !s.orders[id].IsTerminal() && About(s, op, id)
    requires !op.ReportOp? && !op.FillOp?
    ensures id in Step(s, op, now).orders && Moves(s.orders[id], op, now, Step(s, op, now).orders[id])
  {
  }

  lemma OtherStays(s: Oms, op: Op, now: Time, id: OrderId)
    requires Consistent(s) && id in s.orders && !About(s, op, id) && !op.ReportOp?
    ensures id in Step(s, op, now).orders && Step(s, op, now).orders[id] == s.orders[id]
  {
    if op.FillOp? && op.id in s.orders {
      ExecuteKeepsOrder(s.orders[op.id], op.quantity, op.price, op.fill, now);
    }
  }

  /** A new order is registered last, pending, created now and otherwise blank, with a line in the log; a known id
      changes nothing. */
  lemma NewOrderIsPending(s: Oms, order: Order, now: Time)
    ensures var t := Created(s, order, now);
            if order.id in s.orders then t == s
            else
              && t.ids == s.ids + [order.id] && t.orders.Keys == s.orders.Keys + {order.id} && t.index == s.index
              && (forall id :: id in s.orders ==> t.orders[id] == s.orders[id])
              && |t.log| == |s.log| + 1 && t.log[..|s.log|] == s.log && t.log[|s.log|].id == order.id
              && var m := t.orders[order.id];
                 && m.order == order && m.status.Pending? && m.createdAt == now && m.brokerId == "" && m.retries == 0
                 && m.filled == 0 && m.fills == [] && m.submittedAt.None? && m.terminalAt.None?
  {
  }

  /** The average price of an open order after a report: a FILLED report that leaves shares open overrules it, and
      otherwise the quantity it adds is averaged in at the reported price. */
  lemma ReportedPrice(m: Managed, r: Report, payload: Option<string>, now: Time)
    requires !m.IsTerminal() && 0 <= m.filled < m.order.quantity
    ensures var n := Reported(m, r, payload, now);
            if r.status.Filled? && r.filled < m.order.quantity && r.avgPrice != 0.0 then n.avgPrice == r.avgPrice
            else if r.filled <= m.filled then n.avgPrice == m.avgPrice
            else Worth(n.avgPrice, n.filled) == Worth(m.avgPrice, m.filled) + Worth(r.avgPrice, r.filled - m.filled)
  {
    if r.filled > m.filled {
      MixedTimesQuantity(m.avgPrice, m.filled, r.avgPrice, r.filled - m.filled);
    }
  }

  /** What a fill leaves on the order that takes it: the quantity added, the weighted average price, and the fill itself
      on the list, once. */
  lemma FillIsKept(s: Oms, id: OrderId, quantity: int, price: real, fill: Fill, now: Time)
    requires Consistent(s) && id in s.orders && !s.orders[id].IsTerminal()
    requires quantity > 0 && 0 <= s.orders[id].filled < s.orders[id].order.quantity
    ensures var m, t := s.orders[id], FillApplied(s, id, quantity, price, Some(fill), now);
            && id in t.orders
            && var n := t.orders[id];
               && Worth(n.avgPrice, n.filled) == Worth(m.avgPrice, m.filled) + Worth(price, quantity)
               && (exists f :: f in n.fills && f.fillId == fill.fillId)
               && n.fills == if exists f :: f in m.fills && f.fillId == fill.fillId then m.fills else m.fills + [fill]
  {
    var m := s.orders[id];
    ExecuteKeepsOrder(m, quantity, price, Some(fill), now);
    MixedTimesQuantity(m.avgPrice, m.filled, price, quantity);
    var n := Execute(m, quantity, price, Some(fill), now);
    if !exists f :: f in m.fills && f.fillId == fill.fillId {
      assert n.fills[|m.fills|] == fill;
    }
  }

  // ---- Final orders --------------------------------------------------------------------------

  /** A final order says when and why it ended. */
  predicate Explained(m: Managed) {
    m.IsTerminal() ==> m.terminalAt.Some? && m.reason != ""
  }

  ghost predicate AllExplained(s: Oms) {
    forall id :: id in s.orders ==> Explained(s.orders[id])
  }

  lemma StepExplains(s: Oms, op: Op, now: Time)
    requires Consistent(s) && AllExplained(s)
    ensures AllExplained(Step(s, op, now))
  {
    var t := Step(s, op, now);
    if op.ReportOp? {
      ReportTouchesOne(s, op.report, op.payload, now);
      if Target(s, op.report).Some? {
        ReportExplains(s.orders[Target(s, op.report).value], op.report, op.payload, now);
      }
    } else if !op.CreateOp? && !op.RetryOp? && t != s {
      WriteExplains(s, op, now);
    }
  }

  lemma ReportExplains(m: Managed, r: Report, payload: Option<string>, now: Time)
    requires Explained(m)
    ensures Explained(Reported(m, r, payload, now))
  {
  }

  lemma WriteExplains(s: Oms, op: Op, now: Time)
    requires Consistent(s) && AllExplained(s) && Step(s, op, now) != s
    requires !op.CreateOp? && !op.RetryOp? && !op.ReportOp?
    ensures AllExplained(Step(s, op, now))
  {
    var t := Step(s, op, now);
    var m := OneWrite(s, op, now);
    if op.FillOp? {
      ExecuteKeepsOrder(s.orders[op.id], op.quantity, op.price, op.fill, now);
    }
    assert Explained(t.orders[m.order.id]);
  }

  /** Over every history of operations and restarts, every final order says when and why it ended. */
  lemma {:induction false} FinalOrdersAreExplained(events: seq<Event>)
    requires OnlyMarketOrders(events)
    ensures AllExplained(After(EMPTY_OMS, events))
  {
    if events != [] {
      var init, e := events[..|events| - 1], events[|events| - 1];
      var before := After(EMPTY_OMS, init);
      FinalOrdersAreExplained(init);
      EveryHistoryReplays(init);
      match e {
        case Do(op, now) => StepExplains(before, op, now);
        case Load => LoadExplains(before);
      }
    }
  }

  lemma LoadExplains(s: Oms)
    requires Faithful(s) && AllMarket(s) && AllExplained(s)
    ensures AllExplained(Loaded(s.log).0)
  {
    ReplayRestores(s);
    var t := Loaded(s.log).0;
    forall id | id in t.orders ensures Explained(t.orders[id]) {
      assert Restored(s.orders[id], t.orders[id]) && Explained(s.orders[id]);
    }
  }
}
