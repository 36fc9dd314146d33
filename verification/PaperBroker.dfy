/** cpat/brokers/paper.py: the in-memory broker, which settles an order at the moment it is placed. */
module PaperBroker {
  import opened Models
  import opened Totals
  import opened Portfolio

  datatype Terms = Terms(initialCapital: real, slipBps: real, commissionPct: real)

  datatype Status = Status(brokerId: string, orderId: OrderId, status: OrderStatus, filled: int, avgPrice: real)

  /** What the engine sees of a placement; each error is an exception class of the source. */
  datatype Outcome =
    | Placed(brokerId: string)
    | OrderError(reason: string)
    | ConnectionError(reason: string)
    | OtherError(reason: string)

  datatype Paper = Paper(
    connected: bool, cash: real, quotes: map<Symbol, real>, positions: map<Symbol, int>, avgCosts: map<Symbol, real>,
    orders: map<string, Status>, fillLog: seq<Fill>)

  function NewPaper(terms: Terms): Paper {
    Paper(false, terms.initialCapital, map[], map[], map[], map[], [])
  }

  function Held(p: Paper, s: Symbol): int {
    if s in p.positions then p.positions[s] else 0
  }

  function CostOf(p: Paper, s: Symbol): real {
    if s in p.avgCosts then p.avgCosts[s] else 0.0
  }

  function Slip(terms: Terms, last: real): real {
    Fraction(last, terms.slipBps / 10000.0)
  }

  function FillPrice(terms: Terms, order: Order, last: real): real {
    match order.kind
    case Market => if order.side.Buy? then last + Slip(terms, last) else last - Slip(terms, last)
    case Limit => order.limitPrice.value
    case StopLimit => order.limitPrice.value
    case Stop => order.stopPrice.value
  }

  function Commission(terms: Terms, price: real, quantity: int): real {
    Fraction(Worth(price, quantity), terms.commissionPct)
  }

  function FillFor(terms: Terms, p: Paper, order: Order, now: Time): Fill
    requires order.symbol in p.quotes
  {
    var last := p.quotes[order.symbol];
    var price := FillPrice(terms, order, last);
    Fill(|p.fillLog|, order.id, order.symbol, order.side, order.quantity, price,
         Commission(terms, price, order.quantity), AbsR(price - last), now)
  }

  function BlendedCost(cost: real, held: int, price: real, bought: int): real
    requires held + bought != 0
  {
    (Worth(cost, held) + Worth(price, bought)) / (held + bought) as real
  }

  /** Cash and positions after a fill. A position sold down to nothing leaves the books. */
  function Settled(p: Paper, f: Fill): Paper {
    var held := Held(p, f.symbol);
    var cash := p.cash + CashEffect(f);
    if f.side.Buy? then
      var now := held + f.quantity;
      p.(cash := cash, positions := p.positions[f.symbol := now],
         avgCosts := if now != 0
                     then p.avgCosts[f.symbol := BlendedCost(CostOf(p, f.symbol), held, f.fillPrice, f.quantity)]
                     else p.avgCosts)
    else
      var now := held - f.quantity;
      if now == 0 then p.(cash := cash, positions := p.positions - {f.symbol}, avgCosts := p.avgCosts - {f.symbol})
      else p.(cash := cash, positions := p.positions[f.symbol := now])
  }

  predicate CannotPay(p: Paper, f: Fill) {
    f.side.Buy? && Worth(f.fillPrice, f.quantity) + f.commission > p.cash
  }

  function Place(terms: Terms, p: Paper, order: Order, brokerId: string, now: Time): (Paper, Outcome) {
    if !p.connected then (p, ConnectionError("not connected"))
    else if order.symbol !in p.quotes then (p, OtherError("NO_PRICE"))
    else
      var f := FillFor(terms, p, order, now);
      if CannotPay(p, f) then (p, OrderError("INSUFFICIENT_FUNDS"))
      else
        var q := Settled(p, f);
        (q.(orders := p.orders[brokerId := Status(brokerId, order.id, Filled, order.quantity, f.fillPrice)],
            fillLog := p.fillLog + [f]), Placed(brokerId))
  }

  function Quoted(p: Paper, prices: Prices): Paper {
    p.(quotes := p.quotes + prices)
  }

  /** Every paper order is final, so there is never anything to cancel. */
  predicate CanCancel(p: Paper, brokerId: string) {
    brokerId in p.orders && !p.orders[brokerId].status.IsTerminal()
  }

  /** Holdings at the last quote, or at cost for a symbol never quoted. */
  function PaperMarks(p: Paper): map<Symbol, real> {
    map s | s in p.positions :: Worth(MarkOf(p, s), p.positions[s])
  }

  function MarkOf(p: Paper, s: Symbol): real {
    if s in p.quotes then p.quotes[s] else CostOf(p, s)
  }

  datatype Account = Account(cash: real, value: real, positions: map<Symbol, int>)

  ghost function PaperAccount(p: Paper): Account {
    Account(p.cash, p.cash + Total(PaperMarks(p)), map s | s in p.positions && p.positions[s] != 0 :: p.positions[s])
  }

  class PaperBroker {
    const terms: Terms
    var connected: bool
    var cash: real
    var quotes: map<Symbol, real>
    var positions: map<Symbol, int>
    var avgCosts: map<Symbol, real>
    var orders: map<string, Status>
    var fillLog: seq<Fill>

    ghost function State(): Paper
      reads this
    {
      Paper(connected, cash, quotes, positions, avgCosts, orders, fillLog)
    }

    constructor (terms: Terms)
      ensures State() == NewPaper(terms) && this.terms == terms
    {
      this.terms, connected, cash := terms, false, terms.initialCapital;
      quotes, positions, avgCosts, orders, fillLog := map[], map[], map[], map[], [];
    }

    method Connect()
      modifies this
      ensures State() == old(State()).(connected := true)
    {
      connected := true;
    }

    method UpdatePrices(prices: Prices)
      modifies this
      ensures State() == Quoted(old(State()), prices)
    {
      quotes := quotes + prices;
    }

    method PlaceOrder(order: Order, brokerId: string, now: Time) returns (r: Outcome)
      modifies this
      ensures (State(), r) == Place(terms, old(State()), order, brokerId, now)
    {
      if !connected {
        return ConnectionError("not connected");
      }
      if order.symbol !in quotes {
        return OtherError("NO_PRICE");
      }
      var last := quotes[order.symbol];
      var price := FillPrice(terms, order, last);
      var commission := Commission(terms, price, order.quantity);
      if order.side.Buy? && Worth(price, order.quantity) + commission > cash {
        return OrderError("INSUFFICIENT_FUNDS");
      }
      orders := orders[brokerId := Status(brokerId, order.id, Filled, order.quantity, price)];
      var fill := Fill(|fillLog|, order.id, order.symbol, order.side, order.quantity, price, commission,
                       AbsR(price - last), now);
      ApplyFillToAccount(fill);
      fillLog := fillLog + [fill];
      return Placed(brokerId);
    }

    method ApplyFillToAccount(fill: Fill)
      modifies this
      ensures State() == Settled(old(State()), fill)
    {
      var s := fill.symbol;
      var held := if s in positions then positions[s] else 0;
      var cost := if s in avgCosts then avgCosts[s] else 0.0;
      cash := cash + CashEffect(fill);
      if fill.side.Buy? {
        var now := held + fill.quantity;
        if now != 0 {
          avgCosts := avgCosts[s := BlendedCost(cost, held, fill.fillPrice, fill.quantity)];
        }
        positions := positions[s := now];
      } else {
        var now := held - fill.quantity;
        positions := positions[s := now];
        if now == 0 {
          positions, avgCosts := positions - {s}, avgCosts - {s};
        }
      }
    }

    /** Balances and open positions, as reconciliation asks for them. */
    method AccountInfo() returns (account: Option<Account>)
      ensures account == if connected then Some(PaperAccount(State())) else None
    {
      if !connected {
        return None;
      }
      ghost var marks := PaperMarks(State());
      var value, left := cash, positions.Keys;
      OnlyAll(marks, left);
      while left != {}
        invariant left <= positions.Keys
        invariant value + Total(Only(marks, left)) == cash + Total(marks)
        decreases left
      {
        var s :| s in left;
        OnlyPeel(marks, left, s);
        var last := if s in quotes then quotes[s] else if s in avgCosts then avgCosts[s] else 0.0;
        value := value + Worth(last, positions[s]);
        left := left - {s};
      }
      OnlyNone(marks);
      return Some(Account(cash, value, map s | s in positions && positions[s] != 0 :: positions[s]));
    }

    method CancelOrder(brokerId: string) returns (cancelled: Result<bool, string>)
      modifies this
      ensures cancelled == if connected then Ok(CanCancel(old(State()), brokerId)) else Err("not connected")
      ensures State() == if connected && CanCancel(old(State()), brokerId)
                         then old(State()).(orders := old(orders)[brokerId :=
                                              old(orders)[brokerId].(status := Cancelled)])
                         else old(State())
    {
      if !connected {
        return Err("not connected");
      }
      if brokerId !in orders || orders[brokerId].status.IsTerminal() {
        return Ok(false);
      }
      orders := orders[brokerId := orders[brokerId].(status := Cancelled)];
      return Ok(true);
    }
  }

  // ---- The account as reported ---------------------------------------------------------------

  /** Each position adds its value to the account at the last quote, or at its average cost if it was never quoted, and
      is reported as long as it is not zero. */
  lemma PositionAddsValue(p: Paper, s: Symbol)
    requires s in p.positions
    ensures var mark := if s in p.quotes then p.quotes[s] else if s in p.avgCosts then p.avgCosts[s] else 0.0;
            var a, rest := PaperAccount(p), PaperAccount(p.(positions := p.positions - {s}));
            && a.cash == p.cash == rest.cash && a.value == rest.value + Worth(mark, p.positions[s])
            && (s in a.positions <==> p.positions[s] != 0) && (s in a.positions ==> a.positions[s] == p.positions[s])
  {
    TotalPeel(PaperMarks(p), s);
    assert PaperMarks(p) - {s} == PaperMarks(p.(positions := p.positions - {s}));
  }

  /** Without positions the account is worth its cash. */
  lemma EmptyAccountIsCash(p: Paper)
    requires p.positions == map[]
    ensures PaperAccount(p) == Account(p.cash, p.cash, map[])
  {
    assert PaperMarks(p) == map[];
  }

  // ---- The account is the fold of the log ----------------------------------------------------

  function CashAfter(start: real, fills: seq<Fill>): real {
    if fills == [] then start else CashAfter(start, fills[..|fills| - 1]) + CashEffect(fills[|fills| - 1])
  }

  function NetQuantity(fills: seq<Fill>, s: Symbol): int {
    if fills == [] then 0
    else
      var f := fills[|fills| - 1];
      NetQuantity(fills[..|fills| - 1], s) + (if f.symbol == s then SignedQuantity(f) else 0)
  }

  /** What the broker's books are at any time: nothing but its fill log, and every order it knows is final. */
  ghost predicate BooksMatchLog(p: Paper, start: real) {
    && p.cash == CashAfter(start, p.fillLog)
    && (forall s :: Held(p, s) == NetQuantity(p.fillLog, s))
    && (forall id :: id in p.orders ==> p.orders[id].status.Filled?)
  }

  lemma LogAppended(start: real, log: seq<Fill>, f: Fill)
    ensures CashAfter(start, log + [f]) == CashAfter(start, log) + CashEffect(f)
    ensures forall s ::
              NetQuantity(log + [f], s) == NetQuantity(log, s) + (if f.symbol == s then SignedQuantity(f) else 0)
  {
    assert (log + [f])[..|log + [f]| - 1] == log;
  }

  lemma PlaceKeepsBooks(terms: Terms, p: Paper, order: Order, brokerId: string, now: Time, start: real)
    requires BooksMatchLog(p, start)
    ensures BooksMatchLog(Place(terms, p, order, brokerId, now).0, start)
  {
    if p.connected && order.symbol in p.quotes {
      var f := FillFor(terms, p, order, now);
      LogAppended(start, p.fillLog, f);
      SettledMoves(p, f);
      PlaceSettles(terms, p, order, brokerId, now);
    }
  }

  lemma SettledMoves(p: Paper, f: Fill)
    ensures Settled(p, f).cash == p.cash + CashEffect(f)
    ensures forall s :: Held(Settled(p, f), s) == Held(p, s) + (if f.symbol == s then SignedQuantity(f) else 0)
  {
  }

  /** A placement either changes nothing, or settles its one fill and logs it. */
  lemma PlaceSettles(terms: Terms, p: Paper, order: Order, brokerId: string, now: Time)
    requires p.connected && order.symbol in p.quotes
    ensures var (q, r) := Place(terms, p, order, brokerId, now);
            var f := FillFor(terms, p, order, now);
            if r.Placed? then
              && q.fillLog == p.fillLog + [f] && q.cash == p.cash + CashEffect(f) && !CannotPay(p, f)
              && (forall s :: Held(q, s) == Held(Settled(p, f), s))
              && (forall id :: id in q.orders ==> id == brokerId || id in p.orders)
              && (forall id :: id in q.orders ==>
                    q.orders[id].status.Filled? || (id in p.orders && q.orders[id] == p.orders[id]))
              && q.quotes == p.quotes && q.connected
            else q == p && r == OrderError("INSUFFICIENT_FUNDS") && CannotPay(p, f)
  {
  }

  /** Slippage and commission of at most 100 percent each. */
  predicate FairTerms(terms: Terms) {
    0.0 <= terms.slipBps <= 10000.0 && 0.0 <= terms.commissionPct <= 1.0
  }

  /** The price a placement is filled at: a limit or stop order at its own price, a market order at the last price,
      made worse by the slippage, higher for a purchase and lower for a sale. */
  function PaidPrice(terms: Terms, order: Order, last: real): real {
    match order.kind
    case Market => last * (if order.side.Buy? then 1.0 + terms.slipBps / 10000.0 else 1.0 - terms.slipBps / 10000.0)
    case Stop => order.stopPrice.value
    case _ => order.limitPrice.value
  }

  lemma PaidPriceIsFillPrice(terms: Terms, order: Order, last: real)
    ensures FillPrice(terms, order, last) == PaidPrice(terms, order, last)
  {
    var rate := terms.slipBps / 10000.0;
    assert last * (1.0 + rate) == last + Fraction(last, rate);
    assert last * (1.0 - rate) == last - Fraction(last, rate);
  }

  /** A placement with a quote is refused exactly when it is a purchase whose price and commission cash does not cover.
      Otherwise it is filled at once and in full: cash pays for a purchase and its commission, or gets what a sale
      brings less its commission, the holding moves by the quantity, and the fill ends the log. */
  lemma PlacementIsExact(terms: Terms, p: Paper, order: Order, brokerId: string, now: Time)
    requires p.connected && order.symbol in p.quotes
    ensures var (q, r) := Place(terms, p, order, brokerId, now);
            var price := PaidPrice(terms, order, p.quotes[order.symbol]);
            var value := Worth(price, order.quantity);
            var fee := Fraction(value, terms.commissionPct);
            if order.side.Buy? && value + fee > p.cash then q == p && r == OrderError("INSUFFICIENT_FUNDS")
            else
              && r == Placed(brokerId) && q.quotes == p.quotes && q.connected
              && q.cash == (if order.side.Buy? then p.cash - value - fee else p.cash + value - fee)
              && (forall s :: Held(q, s) - Held(p, s) == if s != order.symbol then 0
                                                         else if order.side.Buy? then order.quantity
                                                         else -order.quantity)
              && q.orders == p.orders[brokerId := Status(brokerId, order.id, Filled, order.quantity, price)]
              && q.fillLog == p.fillLog + [Fill(|p.fillLog|, order.id, order.symbol, order.side, order.quantity, price,
                                                fee, AbsR(price - p.quotes[order.symbol]), now)]
  {
    PaidPriceIsFillPrice(terms, order, p.quotes[order.symbol]);
  }

  /** On such terms a market sale never lowers cash. */
  lemma SaleAddsCash(terms: Terms, p: Paper, order: Order, now: Time)
    requires FairTerms(terms) && order.kind.Market? && order.side.Sell?
    requires order.symbol in p.quotes && p.quotes[order.symbol] >= 0.0
    ensures CashEffect(FillFor(terms, p, order, now)) >= 0.0
  {
    var last := p.quotes[order.symbol];
    var f := FillFor(terms, p, order, now);
    FractionOfSmall(last, terms.slipBps / 10000.0);
    WorthMonotone(f.fillPrice, 0, f.quantity);
    FractionOfSmall(Worth(f.fillPrice, f.quantity), terms.commissionPct);
  }

  lemma FractionOfSmall(amount: real, pct: real)
    requires amount >= 0.0 && 0.0 <= pct <= 1.0
    ensures 0.0 <= Fraction(amount, pct) <= amount
  {
  }

  /** The broker keeps quantity and average cost of a symbol as the portfolio does, as long as no sale exceeds
      what is held. */
  lemma SettlesLikePortfolio(p: Paper, f: Fill, h: Holding)
    requires Held(p, f.symbol) == h.quantity >= 0 && CostOf(p, f.symbol) == h.avgCost && f.quantity > 0
    requires f.side.Sell? ==> f.quantity <= h.quantity
    ensures var q, n := Settled(p, f), AfterFill(h, f);
            Held(q, f.symbol) == n.quantity && CostOf(q, f.symbol) == n.avgCost
  {
    if f.side.Buy? && h.quantity == 0 {
      assert BlendedCost(h.avgCost, 0, f.fillPrice, f.quantity) == f.fillPrice by {
        WholePrice(f.fillPrice, f.quantity);
      }
    }
  }

  lemma WholePrice(price: real, n: int)
    requires n > 0
    ensures Worth(price, n) / n as real == price
  {
  }
}
