/** cpat/infrastructure/order_manager.py: the book of live orders with its append-only audit log. */
module OrderManager {
  import opened Models

  // ---- One order -----------------------------------------------------------------------------

  datatype Managed = Managed(
    order: Order, status: OrderStatus, brokerId: string, filled: int, avgPrice: real, fills: seq<Fill>,
    rejection: string, createdAt: Time, submittedAt: Option<Time>, terminalAt: Option<Time>,
    retries: nat, updatedAt: Time, reason: string, payload: Option<string>)
  {
    predicate IsTerminal() {
      status.IsTerminal()
    }

    /** Whole shares still open, as the log and the fill tolerance see them. */
    function Remaining(): int {
      if order.quantity > filled then order.quantity - filled else 0
    }
  }

  function NewManaged(order: Order, now: Time): Managed {
    Managed(order, Pending, "", 0, 0.0, [], "", now, None, None, 0, now, "", None)
  }

  function Or(a: string, b: string): string {
    if a == "" then b else a
  }

  predicate AlreadySubmitted(m: Managed, brokerId: string) {
    m.brokerId == brokerId && (m.status.Submitted? || m.status.PartiallyFilled? || m.status.Filled?)
  }

  function Submit(m: Managed, brokerId: string, now: Time): Managed {
    m.(status := Submitted, brokerId := brokerId, submittedAt := Some(now), updatedAt := now)
  }

  function Mixed(avg: real, held: int, price: real, added: int): real {
    if held + added > 0 then (Worth(avg, held) + Worth(price, added)) / (held + added) as real else 0.0
  }

  /** A fill is ignored on a terminal order, when it is empty, or when the order is already full. */
  predicate TakesFill(m: Managed, quantity: int) {
    !m.IsTerminal() && quantity > 0 && m.filled as real + 0.000000001 < m.order.quantity as real
  }

  function Execute(m: Managed, quantity: int, price: real, fill: Option<Fill>, now: Time): Managed {
    var n := m.(
      filled := m.filled + quantity, avgPrice := Mixed(m.avgPrice, m.filled, price, quantity), updatedAt := now,
      fills := if fill.None? || (exists f :: f in m.fills && f.fillId == fill.value.fillId) then m.fills
               else m.fills + [fill.value]);
    if n.Remaining() as real <= 0.01
      then n.(status := Filled, terminalAt := Some(now), reason := Or(n.reason, "filled"))
    else n.(status := PartiallyFilled)
  }

  function ForceFilled(m: Managed, now: Time): Managed {
    m.(status := Filled, terminalAt := Some(now), updatedAt := now, reason := Or(m.reason, "filled"))
  }

  function Finish(m: Managed, status: OrderStatus, reason: string, now: Time): Managed {
    m.(status := status, terminalAt := Some(now), updatedAt := now, reason := reason)
  }

  function Reject(m: Managed, reason: string, now: Time): Managed {
    m.(status := Rejected, rejection := reason, terminalAt := Some(now), updatedAt := now,
       reason := Or(reason, "rejected"))
  }

  datatype Report = Report(
    brokerId: string, orderId: OrderId, status: OrderStatus, filled: int, avgPrice: real, rejection: string,
    timestamp: Time)

  /** The order as a report leaves it before the status is looked at. */
  function Noted(m: Managed, r: Report, payload: Option<string>, now: Time): Managed {
    m.(brokerId := if r.brokerId != "" && m.brokerId == "" then r.brokerId else m.brokerId,
       payload := payload, updatedAt := now)
  }

  /** The fill that a report implies: the reported quantity beyond the one known, at the reported average. */
  function CaughtUp(m: Managed, r: Report, now: Time): Managed {
    if r.filled > m.filled && TakesFill(m, r.filled - m.filled)
      then Execute(m, r.filled - m.filled, r.avgPrice, None, now)
    else m
  }

  function TakeStatus(m: Managed, r: Report, now: Time): Managed {
    match r.status
    case Rejected => m.(status := Rejected, rejection := r.rejection, reason := Or(r.rejection, "rejected"),
                        terminalAt := Some(now))
    case Cancelled => m.(status := Cancelled, reason := "cancelled", terminalAt := Some(now))
    case Expired => m.(status := Expired, reason := "expired", terminalAt := Some(now))
    case Filled => m.(status := Filled, filled := if r.filled > m.filled then r.filled else m.filled,
                      avgPrice := if r.avgPrice != 0.0 then r.avgPrice else m.avgPrice,
                      reason := Or(m.reason, "filled"), terminalAt := Some(now))
    case PartiallyFilled => m.(status := PartiallyFilled)
    case _ => m.(status := Submitted)
  }

  /** A whole report on one order. */
  function Reported(m: Managed, r: Report, payload: Option<string>, now: Time): Managed {
    var n := CaughtUp(Noted(m, r, payload, now), r, now);
    if n.IsTerminal() then n else TakeStatus(n, r, now)
  }

  // ---- The audit record ----------------------------------------------------------------------

  datatype Record = Record(
    id: OrderId, brokerId: string, symbol: Symbol, side: Side, kind: OrderType, quantity: int, status: OrderStatus,
    filled: int, avgPrice: real, rejection: string, createdAt: Time, submittedAt: Option<Time>,
    terminalAt: Option<Time>, updatedAt: Time, retries: nat, strategyId: string, reason: string,
    payload: Option<string>, timestamp: Time, tags: Tags)

  /** Rounding half to even at the fourth decimal. */
  function Round4(x: real): real {
    HalfEven(x * 10000.0) as real / 10000.0
  }

  function HalfEven(x: real): int {
    var low := x.Floor;
    var rest := x - low as real;
    if rest < 0.5 || (rest == 0.5 && low % 2 == 0) then low else low + 1
  }

  function ToRecord(m: Managed): Record {
    var o := m.order;
    Record(o.id, m.brokerId, o.symbol, o.side, o.kind, o.quantity, m.status, m.filled, Round4(m.avgPrice), m.rejection,
           m.createdAt, m.submittedAt, m.terminalAt, m.updatedAt, m.retries, o.strategyId, m.reason, m.payload,
           o.timestamp, o.tags)
  }

  // ---- The book ------------------------------------------------------------------------------

  /** `ids` is the insertion order of the dictionary of orders. */
  datatype Oms = Oms(ids: seq<OrderId>, orders: map<OrderId, Managed>, index: map<string, OrderId>, log: seq<Record>)

  const EMPTY_OMS := Oms([], map[], map[], [])

  function Put(s: Oms, m: Managed): Oms {
    s.(orders := s.orders[m.order.id := m])
  }

  function PutAudited(s: Oms, m: Managed): Oms {
    Put(s, m).(log := s.log + [ToRecord(m)])
  }

  datatype Op =
    | CreateOp(order: Order)
    | SubmitOp(id: OrderId, brokerId: string)
    | FillOp(id: OrderId, quantity: int, price: real, fill: Option<Fill>)
    | FilledOp(id: OrderId)
    | CancelOp(id: OrderId)
    | RejectOp(id: OrderId, reason: string)
    | ExpireOp(id: OrderId)
    | RetryOp(id: OrderId)
    | ReportOp(report: Report, payload: Option<string>)

  /** The order a report is about: by internal id, otherwise through the broker's id. */
  function Target(s: Oms, r: Report): Option<OrderId> {
    if r.orderId in s.orders then Some(r.orderId)
    else if r.brokerId != "" && r.brokerId in s.index && s.index[r.brokerId] in s.orders then Some(s.index[r.brokerId])
    else None
  }

  function Created(s: Oms, order: Order, now: Time): Oms {
    if order.id in s.orders then s
    else PutAudited(s, NewManaged(order, now)).(ids := s.ids + [order.id])
  }

  function MarkedSubmitted(s: Oms, id: OrderId, brokerId: string, now: Time): Oms {
    if id !in s.orders || AlreadySubmitted(s.orders[id], brokerId) then s
    else PutAudited(s, Submit(s.orders[id], brokerId, now)).(index := s.index[brokerId := id])
  }

  function FillApplied(s: Oms, id: OrderId, quantity: int, price: real, fill: Option<Fill>, now: Time): Oms {
    if id !in s.orders || !TakesFill(s.orders[id], quantity) then s
    else PutAudited(s, Execute(s.orders[id], quantity, price, fill, now))
  }

  function MarkedFilled(s: Oms, id: OrderId, now: Time): Oms {
    if id !in s.orders || s.orders[id].status.Filled? then s else PutAudited(s, ForceFilled(s.orders[id], now))
  }

  /** CANCELLED and EXPIRED respect terminal states. */
  function MarkedFinished(s: Oms, id: OrderId, status: OrderStatus, reason: string, now: Time): Oms {
    if id !in s.orders || s.orders[id].IsTerminal() then s else PutAudited(s, Finish(s.orders[id], status, reason, now))
  }

  function MarkedRejected(s: Oms, id: OrderId, reason: string, now: Time): Oms {
    if id !in s.orders || (s.orders[id].status.Rejected? && s.orders[id].rejection == reason) then s
    else PutAudited(s, Reject(s.orders[id], reason, now))
  }

  function Retried(s: Oms, id: OrderId, now: Time): Oms {
    if id !in s.orders then s else Put(s, s.orders[id].(retries := s.orders[id].retries + 1, updatedAt := now))
  }

  function ReportApplied(s: Oms, r: Report, payload: Option<string>, now: Time): Oms {
    var target := Target(s, r);
    if target.None? then s else ReportOn(s, target.value, r, payload, now)
  }

  /** A report on a known order: the implied fill is logged, and so is the status unless the order is final. */
  function ReportOn(s: Oms, id: OrderId, r: Report, payload: Option<string>, now: Time): Oms
    requires id in s.orders
  {
    var m := s.orders[id];
    var noted := Noted(m, r, payload, now);
    var caught := CaughtUp(noted, r, now);
    var indexed := if r.brokerId != "" && m.brokerId == "" then s.index[r.brokerId := m.order.id] else s.index;
    var logged := if caught == noted then s.log else s.log + [ToRecord(caught)];
    var n := Reported(m, r, payload, now);
    Put(s, n).(index := indexed, log := if caught.IsTerminal() then logged else logged + [ToRecord(n)])
  }

  function Step(s: Oms, op: Op, now: Time): Oms {
    match op
    case CreateOp(order) => Created(s, order, now)
    case SubmitOp(id, brokerId) => MarkedSubmitted(s, id, brokerId, now)
    case FillOp(id, quantity, price, fill) => FillApplied(s, id, quantity, price, fill, now)
    case FilledOp(id) => MarkedFilled(s, id, now)
    case CancelOp(id) => MarkedFinished(s, id, Cancelled, "cancelled", now)
    case RejectOp(id, reason) => MarkedRejected(s, id, reason, now)
    case ExpireOp(id) => MarkedFinished(s, id, Expired, "expired", now)
    case RetryOp(id) => Retried(s, id, now)
    case ReportOp(r, payload) => ReportApplied(s, r, payload, now)
  }

  // ---- Replaying the log ---------------------------------------------------------------------

  /** The order ids of a log in the order in which they first appear. */
  function FirstSeen(log: seq<Record>): seq<OrderId> {
    if log == [] then []
    else
      var before, id := FirstSeen(log[..|log| - 1]), log[|log| - 1].id;
      if id in before then before else before + [id]
  }

  /** The last record of each order. */
  function LastRecords(log: seq<Record>): map<OrderId, Record> {
    if log == [] then map[] else LastRecords(log[..|log| - 1])[log[|log| - 1].id := log[|log| - 1]]
  }

  lemma {:induction false} FirstSeenKeys(log: seq<Record>)
    ensures forall id :: id in FirstSeen(log) <==> id in LastRecords(log)
    ensures Distinct(FirstSeen(log))
    ensures forall id :: id in LastRecords(log) ==> LastRecords(log)[id].id == id
  {
    if log != [] {
      FirstSeenKeys(log[..|log| - 1]);
    }
  }

  /** Limit and stop prices are not in the record, so only a market order can be built from it. */
  predicate Restorable(r: Record) {
    r.kind.Market? && r.quantity > 0
  }

  function Restore(r: Record): Managed
    requires Restorable(r)
  {
    Managed(OrderData(r.id, r.symbol, r.side, r.kind, r.quantity, None, None, r.timestamp, r.strategyId, None, r.tags),
            r.status, r.brokerId, r.filled, r.avgPrice, [], r.rejection, r.createdAt, r.submittedAt, r.terminalAt,
            r.retries, r.updatedAt, r.reason, r.payload)
  }

  /** Rebuilding orders one by one; the first that cannot be built raises and leaves the rest out. */
  function Rebuilt(log: seq<Record>, last: map<OrderId, Record>, ids: seq<OrderId>): (Oms, bool)
    requires forall id :: id in ids ==> id in last
  {
    if ids == [] then (Oms([], map[], map[], log), true)
    else
      var (s, ok) := Rebuilt(log, last, ids[..|ids| - 1]);
      var id := ids[|ids| - 1];
      if !ok || !Restorable(last[id]) then (s, false)
      else
        var m := Restore(last[id]);
        (Oms(s.ids + [id], s.orders[id := m], if m.brokerId != "" then s.index[m.brokerId := id] else s.index, log),
         true)
  }

  function Loaded(log: seq<Record>): (Oms, bool) {
    FirstSeenKeys(log);
    Rebuilt(log, LastRecords(log), FirstSeen(log))
  }

  // ---- The class -----------------------------------------------------------------------------

  class OrderManager {
    var ids: seq<OrderId>
    var orders: map<OrderId, Managed>
    var index: map<string, OrderId>
    var log: seq<Record>

    ghost function State(): Oms
      reads this
    {
      Oms(ids, orders, index, log)
    }

    /** The listed ids are the stored ones, each under its own id. */
    ghost predicate Valid()
      reads this
    {
      Consistent(State())
    }

    constructor ()
      ensures Valid() && State() == EMPTY_OMS
    {
      ids, orders, index, log := [], map[], map[], [];
    }

    method Audit(m: Managed)
      modifies this`log
      ensures log == old(log) + [ToRecord(m)]
    {
      log := log + [ToRecord(m)];
    }

    method Create(order: Order, now: Time) returns (r: Result<Managed, string>)
      requires Valid()
      modifies this
      ensures Valid() && State() == Created(old(State()), order, now)
      ensures r.Err? <==> order.id in old(orders)
    {
      if order.id in orders {
        return Err("already registered");
      }
      var m := NewManaged(order, now);
      orders, ids := orders[order.id := m], ids + [order.id];
      Audit(m);
      return Ok(m);
    }

    method MarkSubmitted(id: OrderId, brokerId: string, now: Time) returns (r: Result<Managed, string>)
      requires Valid()
      modifies this
      ensures Valid() && State() == MarkedSubmitted(old(State()), id, brokerId, now)
      ensures r == if id in orders then Ok(orders[id]) else Err("not found")
    {
      if id !in orders {
        return Err("not found");
      }
      if AlreadySubmitted(orders[id], brokerId) {
        return Ok(orders[id]);
      }
      orders := orders[id := Submit(orders[id], brokerId, now)];
      index := index[brokerId := id];
      Audit(orders[id]);
      return Ok(orders[id]);
    }

    method ApplyFill(id: OrderId, quantity: int, price: real, fill: Option<Fill>, now: Time)
      returns (r: Result<Managed, string>)
      requires Valid()
      modifies this
      ensures Valid() && State() == FillApplied(old(State()), id, quantity, price, fill, now)
      ensures r == if id in orders then Ok(orders[id]) else Err("not found")
    {
      if id !in orders {
        return Err("not found");
      }
      var m := orders[id];
      if m.IsTerminal() {
        return Ok(m);
      }
      if quantity <= 0 || m.filled as real + 0.000000001 >= m.order.quantity as real {
        return Ok(m);
      }
      m := Execute(m, quantity, price, fill, now);
      orders := orders[id := m];
      Audit(m);
      return Ok(m);
    }

    method MarkFilled(id: OrderId, now: Time) returns (r: Result<Managed, string>)
      requires Valid()
      modifies this
      ensures Valid() && State() == MarkedFilled(old(State()), id, now)
      ensures r == if id in orders then Ok(orders[id]) else Err("not found")
    {
      if id !in orders {
        return Err("not found");
      }
      if !orders[id].status.Filled? {
        orders := orders[id := ForceFilled(orders[id], now)];
        Audit(orders[id]);
      }
      return Ok(orders[id]);
    }

    method MarkFinished(id: OrderId, status: OrderStatus, reason: string, now: Time)
      returns (r: Result<Managed, string>)
      requires Valid() && (status.Cancelled? || status.Expired?)
      modifies this
      ensures Valid() && State() == MarkedFinished(old(State()), id, status, reason, now)
      ensures r == if id in orders then Ok(orders[id]) else Err("not found")
    {
      if id !in orders {
        return Err("not found");
      }
      if !orders[id].IsTerminal() {
        orders := orders[id := Finish(orders[id], status, reason, now)];
        Audit(orders[id]);
      }
      return Ok(orders[id]);
    }

    method MarkRejected(id: OrderId, reason: string, now: Time) returns (r: Result<Managed, string>)
      requires Valid()
      modifies this
      ensures Valid() && State() == MarkedRejected(old(State()), id, reason, now)
      ensures r == if id in orders then Ok(orders[id]) else Err("not found")
    {
      if id !in orders {
        return Err("not found");
      }
      if !(orders[id].status.Rejected? && orders[id].rejection == reason) {
        orders := orders[id := Reject(orders[id], reason, now)];
        Audit(orders[id]);
      }
      return Ok(orders[id]);
    }

    method IncrementRetry(id: OrderId, now: Time) returns (r: Result<nat, string>)
      requires Valid()
      modifies this
      ensures Valid() && State() == Retried(old(State()), id, now)
      ensures r == if id in orders then Ok(orders[id].retries) else Err("not found")
    {
      if id !in orders {
        return Err("not found");
      }
      orders := orders[id := orders[id].(retries := orders[id].retries + 1, updatedAt := now)];
      return Ok(orders[id].retries);
    }

    method ApplyBrokerStatus(report: Report, payload: Option<string>, now: Time) returns (r: Option<Managed>)
      requires Valid()
      modifies this
      ensures Valid() && State() == ReportApplied(old(State()), report, payload, now)
      ensures var t := Target(old(State()), report);
              r == if t.Some? then Some(orders[t.value]) else None
    {
      var target := Target(Oms(ids, orders, index, log), report);
      if target.None? {
        return None;
      }
      TakeReport(target.value, report, payload, now);
      return Some(orders[target.value]);
    }

    method TakeReport(id: OrderId, report: Report, payload: Option<string>, now: Time)
      requires Valid() && id in orders
      modifies this
      ensures Valid() && State() == ReportOn(old(State()), id, report, payload, now) && id in orders
    {
      ghost var s := State();
      Note(id, report, payload, now);
      Absorb(id, report, now);
      ReportInTwoSteps(s, id, report, payload, now, State());
    }

    method Absorb(id: OrderId, report: Report, now: Time)
      requires Valid() && id in orders
      modifies this
      ensures Valid() && ids == old(ids) && index == old(index)
      ensures var m := old(orders)[id];
              var c := CaughtUp(m, report, now);
              var n := if c.IsTerminal() then c else TakeStatus(c, report, now);
              var logged := if c == m then old(log) else old(log) + [ToRecord(c)];
              && orders == old(orders)[id := n]
              && log == if c.IsTerminal() then logged else logged + [ToRecord(n)]
    {
      ghost var c := CaughtUp(orders[id], report, now);
      CatchUp(id, report, now);
      assert orders[id] == c;
      Conclude(id, report, now);
      assert orders == old(orders)[id := orders[id]];
    }

    method Conclude(id: OrderId, report: Report, now: Time)
      requires Valid() && id in orders
      modifies this
      ensures Valid() && ids == old(ids) && index == old(index)
      ensures var m := old(orders)[id];
              var n := if m.IsTerminal() then m else TakeStatus(m, report, now);
              && orders == old(orders)[id := n]
              && log == if m.IsTerminal() then old(log) else old(log) + [ToRecord(n)]
    {
      if !orders[id].IsTerminal() {
        orders := orders[id := TakeStatus(orders[id], report, now)];
        Audit(orders[id]);
      }
    }

    method Note(id: OrderId, report: Report, payload: Option<string>, now: Time)
      requires Valid() && id in orders
      modifies this
      ensures Valid() && ids == old(ids) && log == old(log)
      ensures orders == old(orders)[id := Noted(old(orders)[id], report, payload, now)]
      ensures index == if report.brokerId != "" && old(orders)[id].brokerId == "" then old(index)[report.brokerId := id]
                       else old(index)
    {
      if report.brokerId != "" && orders[id].brokerId == "" {
        index := index[report.brokerId := id];
      }
      orders := orders[id := Noted(orders[id], report, payload, now)];
    }

    method CatchUp(id: OrderId, report: Report, now: Time)
      requires Valid() && id in orders
      modifies this
      ensures Valid() && ids == old(ids) && index == old(index)
      ensures var m := old(orders)[id];
              && orders == old(orders)[id := CaughtUp(m, report, now)]
              && log == if CaughtUp(m, report, now) == m then old(log)
                 else old(log) + [ToRecord(CaughtUp(m, report, now))]
    {
      if report.filled > orders[id].filled {
        var _ := ApplyFill(id, report.filled - orders[id].filled, report.avgPrice, None, now);
      }
    }

    /** Orders older than the time-to-live that are not terminal, oldest registration first. */
    method StaleOpenOrders(ttl: int, now: Time) returns (stale: seq<OrderId>)
      requires Valid()
      ensures stale == Stale(State(), ids, ttl, now)
    {
      stale := [];
      if ttl <= 0 {
        NothingStale(State(), ids, ttl, now);
        return;
      }
      for i := 0 to |ids|
        invariant stale == Stale(State(), ids[..i], ttl, now)
      {
        var m := orders[ids[i]];
        assert ids[..i + 1][..i] == ids[..i];
        if !m.IsTerminal() {
          var since := if m.submittedAt.Some? then m.submittedAt.value else m.createdAt;
          if now - since >= ttl {
            stale := stale + [ids[i]];
          }
        }
      }
      assert ids[..|ids|] == ids;
    }

    method PendingOrders() returns (pending: seq<OrderId>)
      requires Valid()
      ensures pending == Working(State(), ids)
    {
      pending := [];
      for i := 0 to |ids|
        invariant pending == Working(State(), ids[..i])
      {
        assert ids[..i + 1][..i] == ids[..i];
        if orders[ids[i]].status.Submitted? || orders[ids[i]].status.PartiallyFilled? {
          pending := pending + [ids[i]];
        }
      }
      assert ids[..|ids|] == ids;
    }

    /** Reads the log into the book; `Err` stands for the exception, which leaves the book partly rebuilt. */
    method LoadAuditLog() returns (r: Result<nat, string>)
      modifies this
      ensures State() == Loaded(old(log)).0
      ensures r == if Loaded(old(log)).1 then Ok(|ids|) else Err("order cannot be rebuilt")
    {
      var seen, last := ReadLog();
      FirstSeenKeys(log);
      ids, orders, index := [], map[], map[];
      for i := 0 to |seen|
        invariant log == old(log) && (State(), true) == Rebuilt(log, last, seen[..i])
      {
        assert seen[..i + 1][..i] == seen[..i];
        var record := last[seen[i]];
        if !Restorable(record) {
          RebuildStops(log, last, seen, i);
          return Err("order cannot be rebuilt");
        }
        var m := Restore(record);
        ids, orders := ids + [seen[i]], orders[seen[i] := m];
        if m.brokerId != "" {
          index := index[m.brokerId := seen[i]];
        }
      }
      assert seen[..|seen|] == seen;
      return Ok(|ids|);
    }

    /** The last line of each order, in the order of the first ones. */
    method ReadLog() returns (seen: seq<OrderId>, last: map<OrderId, Record>)
      ensures seen == FirstSeen(log) && last == LastRecords(log)
    {
      seen, last := [], map[];
      for i := 0 to |log|
        invariant seen == FirstSeen(log[..i]) && last == LastRecords(log[..i])
      {
        assert log[..i + 1][..i] == log[..i];
        FirstSeenKeys(log[..i]);
        if log[i].id !in last {
          seen := seen + [log[i].id];
        }
        last := last[log[i].id := log[i]];
      }
      assert log[..|log|] == log;
    }
  }

  /** Noting a report and absorbing it is taking it. */
  lemma ReportInTwoSteps(s: Oms, id: OrderId, r: Report, payload: Option<string>, now: Time, t: Oms)
    requires Consistent(s) && id in s.orders && t.ids == s.ids
    requires var noted := Noted(s.orders[id], r, payload, now);
             var caught := CaughtUp(noted, r, now);
             var n := if caught.IsTerminal() then caught else TakeStatus(caught, r, now);
             var logged := if caught == noted then s.log else s.log + [ToRecord(caught)];
             && t.orders == s.orders[id := noted][id := n]
             && t.log == (if caught.IsTerminal() then logged else logged + [ToRecord(n)])
    requires t.index == if r.brokerId != "" && s.orders[id].brokerId == "" then s.index[r.brokerId := id] else s.index
    ensures t == ReportOn(s, id, r, payload, now)
  {
    var noted, n := Noted(s.orders[id], r, payload, now), Reported(s.orders[id], r, payload, now);
    assert s.orders[id := noted][id := n] == s.orders[id := n];
    assert n.order.id == id;
  }

  ghost predicate Consistent(s: Oms) {
    && Distinct(s.ids)
    && (forall id :: id in s.ids <==> id in s.orders)
    && (forall id :: id in s.orders ==> s.orders[id].order.id == id)
  }

  predicate IsStale(s: Oms, id: OrderId, ttl: int, now: Time) {
    && ttl > 0 && id in s.orders && !s.orders[id].IsTerminal()
    && now - (if s.orders[id].submittedAt.Some? then s.orders[id].submittedAt.value else s.orders[id].createdAt) >= ttl
  }

  function Stale(s: Oms, ids: seq<OrderId>, ttl: int, now: Time): seq<OrderId> {
    if ids == [] then []
    else
      var before, id := Stale(s, ids[..|ids| - 1], ttl, now), ids[|ids| - 1];
      if IsStale(s, id, ttl, now) then before + [id] else before
  }

  lemma {:induction false} NothingStale(s: Oms, ids: seq<OrderId>, ttl: int, now: Time)
    requires ttl <= 0
    ensures Stale(s, ids, ttl, now) == []
  {
    if ids != [] {
      NothingStale(s, ids[..|ids| - 1], ttl, now);
    }
  }

  predicate IsWorking(s: Oms, id: OrderId) {
    id in s.orders && (s.orders[id].status.Submitted? || s.orders[id].status.PartiallyFilled?)
  }

  function Working(s: Oms, ids: seq<OrderId>): seq<OrderId> {
    if ids == [] then []
    else
      var before, id := Working(s, ids[..|ids| - 1]), ids[|ids| - 1];
      if IsWorking(s, id) then before + [id] else before
  }

  lemma {:induction false} RebuildStops(log: seq<Record>, last: map<OrderId, Record>, ids: seq<OrderId>, i: nat)
    requires i < |ids| && (forall id :: id in ids ==> id in last) && !Restorable(last[ids[i]])
    ensures Rebuilt(log, last, ids) == (Rebuilt(log, last, ids[..i]).0, false)
            || !Rebuilt(log, last, ids[..i]).1
    decreases |ids|
  {
    var init := ids[..|ids| - 1];
    if i < |init| {
      assert init[..i] == ids[..i];
      RebuildStops(log, last, init, i);
    }
  }

  lemma {:induction false} RebuiltIds(log: seq<Record>, last: map<OrderId, Record>, ids: seq<OrderId>)
    requires forall id :: id in ids ==> id in last
    ensures Rebuilt(log, last, ids).1 ==> Rebuilt(log, last, ids).0.ids == ids
    ensures Rebuilt(log, last, ids).1 <==> forall id :: id in ids ==> Restorable(last[id])
    ensures Rebuilt(log, last, ids).1 ==>
              && Rebuilt(log, last, ids).0.orders.Keys == (set id | id in ids)
              && forall id :: id in ids ==> Rebuilt(log, last, ids).0.orders[id] == Restore(last[id])
  {
    if ids != [] {
      RebuiltIds(log, last, ids[..|ids| - 1]);
      assert ids == ids[..|ids| - 1] + [ids[|ids| - 1]];
    }
  }
}
