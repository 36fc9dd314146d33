/** Further laws of the live engine with the paper broker: reconciliation, and the purchases that the cash reserve pays
    for. */
module LiveLaws {
  import opened Models
  import opened Totals
  import opened Portfolio
  import opened SignalBatch
  import opened BatchBounds
  import opened OrderManager
  import opened PaperBroker
  import opened LiveModel
  import opened LiveRuns
  import Allocator

  // ---- Reconciliation ------------------------------------------------------------------------

  /** What the broker's valuation has and the local one lacks: held symbols without a current price, which the
      broker values at its last quote. */
  ghost function UnpricedMarks(p: Paper, b: Book, prices: Prices): map<Symbol, real> {
    map x | x in OpenSymbols(b) && x !in prices && x in PaperMarks(p) :: PaperMarks(p)[x]
  }

  ghost predicate PositivePrices(prices: Prices) {
    forall x :: x in prices ==> prices[x] > 0.0
  }

  /** The two books hold the same, and the broker's quotes include the current prices. */
  ghost predicate SameBooks(p: Paper, b: Book, prices: Prices) {
    && p.connected && p.cash == b.cash && (forall x :: Held(p, x) == At(b, x).quantity)
    && PositivePrices(prices) && (forall x :: x in prices ==> x in p.quotes && p.quotes[x] == prices[x])
  }

  /** Symbol by symbol, the broker's valuation is zero, the local one, or one without a current price. */
  lemma MarksAre(p: Paper, b: Book, prices: Prices)
    requires SameBooks(p, b, prices)
    ensures forall x :: x in PaperMarks(p) && x !in OpenSymbols(b) ==> PaperMarks(p)[x] == 0.0
    ensures forall x :: x in OpenSymbols(b) ==> x in PaperMarks(p)
    ensures forall x :: x in OpenSymbols(b) && x in prices ==>
              Marked(prices, x) && PaperMarks(p)[x] == MarketValue(b.positions[x], prices[x])
  {
    forall x | x in OpenSymbols(b) ensures Held(p, x) == b.positions[x].quantity != 0 {
      assert Held(p, x) == At(b, x).quantity;
    }
    forall x | x in PaperMarks(p) && x !in OpenSymbols(b) ensures PaperMarks(p)[x] == 0.0 {
      assert At(b, x).quantity == 0;
    }
  }

  lemma MarksSplit(p: Paper, b: Book, prices: Prices)
    requires SameBooks(p, b, prices)
    ensures Total(PaperMarks(p)) == Total(MarketValues(b, prices)) + Total(UnpricedMarks(p, b, prices))
  {
    var marks, open := PaperMarks(p), OpenSymbols(b);
    MarksAre(p, b, prices);
    TotalIgnoresZeros(marks, open);
    var held := Only(marks, open);
    TotalSplit(held, prices.Keys);
    PricedPart(p, b, prices, held);
    UnpricedPart(p, b, prices, held);
  }

  lemma PricedPart(p: Paper, b: Book, prices: Prices, held: map<Symbol, real>)
    requires SameBooks(p, b, prices) && held == Only(PaperMarks(p), OpenSymbols(b))
    ensures Only(held, prices.Keys) == MarketValues(b, prices)
  {
    MarksAre(p, b, prices);
  }

  lemma UnpricedPart(p: Paper, b: Book, prices: Prices, held: map<Symbol, real>)
    requires SameBooks(p, b, prices) && held == Only(PaperMarks(p), OpenSymbols(b))
    ensures Only(held, held.Keys - prices.Keys) == UnpricedMarks(p, b, prices)
  {
    MarksAre(p, b, prices);
  }

  lemma SamePositionsAgree(p: Paper, b: Book, prices: Prices, a: Account)
    requires SameBooks(p, b, prices)
    requires a.positions == map x | x in p.positions && p.positions[x] != 0 :: p.positions[x]
    ensures PositionsAgree(a, b)
  {
    forall x | x in OpenSymbols(b) ensures x in a.positions && a.positions[x] == At(b, x).quantity {
      assert Held(p, x) == At(b, x).quantity;
    }
    forall x | x in a.positions ensures x in OpenSymbols(b) {
      assert Held(p, x) == At(b, x).quantity;
    }
  }

  /** Agreeing ledgers reconcile exactly when the held symbols without a current price are worth no more than
      the tolerance; with no prices at all the check is skipped. */
  lemma ReconcilesExactly(s: Live, world: World, prices: Prices)
    requires s.venue.Some? && SameBooks(s.venue.value, s.book, prices)
    ensures Reconciles(AccountOf(s, world), s.book, prices) <==>
              prices == map[] ||
              AbsR(Total(UnpricedMarks(s.venue.value, s.book, prices)))
              <= MaxR(10.0, Fraction(AbsR(EquityAt(s.book, prices)), 0.001))
  {
    var p := s.venue.value;
    MarksSplit(p, s.book, prices);
    SamePositionsAgree(p, s.book, prices, AccountOf(s, world).value);
  }

  /** In every run, a tick whose bars cover all held symbols reconciles. */
  lemma PricedTicksReconcile(setup: Setup, s: Live, start: real, k: nat, t: Tick)
    requires RunOk(s, start, k)
    requires forall x :: x in OpenSymbols(Prepared(setup, s, t).book) ==> x in t.bars
    ensures Prepared(setup, s, t).reconciled
  {
    var r := Prepared(setup, s, t);
    PreparedHasSameBooks(setup, s, start, k, t);
    ReconcilesExactly(r, t.world, Closes(t.bars));
    assert UnpricedMarks(r.venue.value, r.book, Closes(t.bars)) == map[];
    NothingTotals<Symbol>();
    ReconciledMeans(setup, s, t);
  }

  lemma NothingTotals<K(!new)>()
    ensures Total<K>(map[]) == 0.0
  {
  }

  lemma ReconciledMeans(setup: Setup, s: Live, t: Tick)
    ensures var r := Prepared(setup, s, t);
            r.reconciled == Reconciles(AccountOf(r, t.world), r.book, Closes(t.bars))
  {
  }

  lemma PreparedHasSameBooks(setup: Setup, s: Live, start: real, k: nat, t: Tick)
    requires RunOk(s, start, k)
    ensures var r := Prepared(setup, s, t);
            r.venue.Some? && SameBooks(r.venue.value, r.book, Closes(t.bars))
  {
    var r := Prepared(setup, s, t);
    PricedKeeps(s, start, k, t.bars);
    PreparedKeeps(setup, s, start, k, t);
    DrainedHasSameBooks(r, start);
  }

  /** With nothing undrained, cash and every holding are the same on both sides. */
  lemma DrainedHasSameBooks(r: Live, start: real)
    requires Synced(r, start, |LogOf(r)|)
    ensures r.venue.value.cash == r.book.cash
    ensures forall x :: Held(r.venue.value, x) == At(r.book, x).quantity
  {
    DrainedQuantities(r, start);
  }

  lemma BatchKeepsVerdict(setup: Setup, s: Live, start: real, t: Tick, events: seq<Signal>)
    requires setup.trade.Valid() && FairTerms(setup.terms) && RunOk(s, start, |LogOf(s)|)
    ensures Batched(setup, s, t, events).reconciled == s.reconciled
  {
    BatchIsReady(setup, s, start, t, events);
    BatchSubmitsPassing(setup, s, t, events);
    SubmitAllKeeps(setup, Staged(setup, s, t, events), start, |LogOf(s)|, s.book, Passing(setup, s, t, events), t.now,
                   t.world);
  }

  /** After any run of the paper session, a tick whose bars cover the held symbols, and in which the strategy does
      not raise, leaves reconciliation ok, so it never blocks new positions. */
  lemma EveryPricedTickReconciles(setup: Setup, s: Live, ticks: seq<Tick>, t: Tick)
    requires setup.trade.Valid() && FairTerms(setup.terms) && FreshSession(setup, s) && t.bars != map[] && !t.fails
    requires forall x :: x in OpenSymbols(Prepared(setup, Run(setup, s, ticks), t).book) ==> x in t.bars
    ensures Run(setup, s, ticks + [t]).reconciled
  {
    var start, before := setup.terms.initialCapital, Run(setup, s, ticks);
    assert (ticks + [t])[..|ticks|] == ticks;
    var k := RunKeeps(setup, s, ticks);
    TickReconciles(setup, before, start, k, t);
  }

  lemma TickReconciles(setup: Setup, s: Live, start: real, k: nat, t: Tick)
    requires setup.trade.Valid() && FairTerms(setup.terms) && RunOk(s, start, k) && t.bars != map[] && !t.fails
    requires forall x :: x in OpenSymbols(Prepared(setup, s, t).book) ==> x in t.bars
    ensures Ticked(setup, s, t).reconciled
  {
    PricedTicksReconcile(setup, s, start, k, t);
    PreparedKeeps(setup, s, start, k, t);
    var r := Prepared(setup, s, t);
    BatchKeepsVerdict(setup, r, start, t, EventsOf(setup, s, t));
    BatchKeeps(setup, r, start, t, EventsOf(setup, s, t));
    var d := BatchDone(setup, s, t);
    DrainKeepsRest(setup, d, LogOf(d), t.now);
  }

  // ---- Affordability -------------------------------------------------------------------------

  /** What a unit of notional costs with slippage and commission. */
  function CostFactor(terms: Terms): real {
    (1.0 + terms.slipBps / 10000.0) * (1.0 + terms.commissionPct)
  }

  lemma BuyCost(terms: Terms, last: real, q: int)
    ensures Worth(last + Slip(terms, last), q) + Commission(terms, last + Slip(terms, last), q)
            == Fraction(Worth(last, q), CostFactor(terms))
  {
    var r, c, n := terms.slipBps / 10000.0, terms.commissionPct, q as real;
    var price := last + Slip(terms, last);
    assert price == last * (1.0 + r);
    assert Worth(price, q) == last * n * (1.0 + r);
    assert Worth(price, q) * (1.0 + c) == last * n * ((1.0 + r) * (1.0 + c));
  }

  /** The reserve of the allocator covers slippage and commission exactly when
      (1 - reserve)(1 + slippage)(1 + commission) <= 1: then every purchase within the deployable cash is
      affordable, and otherwise some purchase within it is not. */
  lemma ReserveCoversCosts(alloc: Allocator.Config, terms: Terms, cash: real)
    requires alloc.Valid() && FairTerms(terms) && cash > 0.0
    ensures (forall price: real, q: int ::
               price > 0.0 && q > 0 && Worth(price, q) <= Allocator.Deployable(alloc, cash) ==>
                 Fraction(Worth(price, q), CostFactor(terms)) <= cash)
            <==> Fraction(1.0 - alloc.minCashPct, CostFactor(terms)) <= 1.0
  {
    var f, d := CostFactor(terms), Allocator.Deployable(alloc, cash);
    FactorIsPositive(terms);
    ReserveScales(alloc.minCashPct, f, cash);
    assert d == Fraction(cash, 1.0 - alloc.minCashPct) > 0.0 by {
      PositiveProduct(cash, 1.0 - alloc.minCashPct);
    }
    if Fraction(1.0 - alloc.minCashPct, f) <= 1.0 {
      forall price: real, q: int | price > 0.0 && q > 0 && Worth(price, q) <= d
        ensures Fraction(Worth(price, q), f) <= cash
      {
        FractionMonotone(Worth(price, q), d, f);
      }
    } else {
      assert Worth(d, 1) == d;
    }
  }

  lemma PositiveProduct(a: real, b: real)
    requires a > 0.0 && b > 0.0
    ensures Fraction(a, b) > 0.0
  {
  }

  lemma FactorIsPositive(terms: Terms)
    requires FairTerms(terms)
    ensures CostFactor(terms) >= 1.0
  {
    var r, c := terms.slipBps / 10000.0, terms.commissionPct;
    assert (1.0 + r) * (1.0 + c) == 1.0 + r + c + r * c;
    assert r * c >= 0.0;
  }

  lemma FractionMonotone(a: real, b: real, f: real)
    requires a <= b && f >= 0.0
    ensures Fraction(a, f) <= Fraction(b, f)
  {
  }

  lemma FractionAdds(a: real, b: real, f: real)
    ensures Fraction(a + b, f) == Fraction(a, f) + Fraction(b, f)
  {
  }

  lemma ReserveScales(reserve: real, f: real, cash: real)
    requires cash > 0.0
    ensures Fraction(Fraction(cash, 1.0 - reserve), f) <= cash <==> Fraction(1.0 - reserve, f) <= 1.0
  {
    FractionAssociates(cash, 1.0 - reserve, f);
    FractionOfPositive(cash, Fraction(1.0 - reserve, f));
  }

  lemma FractionAssociates(a: real, b: real, c: real)
    ensures Fraction(Fraction(a, b), c) == Fraction(a, Fraction(b, c))
  {
  }

  lemma FractionOfPositive(cash: real, x: real)
    requires cash > 0.0
    ensures Fraction(cash, x) <= cash <==> x <= 1.0
  {
    var d := 1.0 - x;
    assert cash - Fraction(cash, x) == cash * d;
    if d >= 0.0 {
      assert cash * d >= 0.0;
    } else {
      assert cash * -d > 0.0;
    }
  }

  // ---- No refusals ---------------------------------------------------------------------------

  lemma SentPlaces(setup: Setup, s: Live, order: Order, now: Time, world: World)
    requires s.venue.Some? && s.venue.value.connected && !setup.dryRun && order.symbol in s.venue.value.quotes
    requires order.id !in s.oms.orders
    requires !CannotPay(s.venue.value, FillFor(setup.terms, s.venue.value, order, now))
    ensures var p, t := s.venue.value, Sent(setup, s, order, now, world);
            && t.venue.Some? && t.venue.value.fillLog == p.fillLog + [FillFor(setup.terms, p, order, now)]
            && t.venue.value.cash == p.cash + CashEffect(FillFor(setup.terms, p, order, now))
  {
    var c := s.(oms := Created(s.oms, order, now));
    PaperAttempt(setup, c, order, 0, now, world);
    PlaceSettles(setup.terms, s.venue.value, order, world.token(order.id), now);
  }

  /** The quotes the batch is priced on are the closes it was sized on, and everything it sells is quoted. */
  ghost predicate QuotedFor(p: Paper, bars: map<Symbol, Bar>, orders: seq<Order>) {
    && p.connected
    && forall o :: o in orders ==>
         && o.symbol in p.quotes
         && (o.side.Buy? ==> o.symbol in bars && p.quotes[o.symbol] == bars[o.symbol].close)
  }

  ghost predicate Affordable(terms: Terms, p: Paper, bars: map<Symbol, Bar>, orders: seq<Order>) {
    Fraction(OpeningValue(bars, orders), CostFactor(terms)) <= p.cash
  }

  lemma FirstAndRest(bars: map<Symbol, Bar>, orders: seq<Order>, factor: real)
    requires orders != [] && factor >= 0.0
    ensures Fraction(OpeningValue(bars, orders), factor)
            == Fraction(NotionalOf(bars, orders[0]), factor) + Fraction(OpeningValue(bars, orders[1..]), factor)
    ensures Fraction(NotionalOf(bars, orders[0]), factor) >= 0.0
            && Fraction(OpeningValue(bars, orders[1..]), factor) >= 0.0
  {
    assert orders == [orders[0]] + orders[1..];
    ValueOfConcat(bars, [orders[0]], orders[1..]);
    assert [orders[0]][..0] == [];
    assert OpeningValue(bars, [orders[0]]) == NotionalOf(bars, orders[0]);
    FractionAdds(NotionalOf(bars, orders[0]), OpeningValue(bars, orders[1..]), factor);
    NotionalIsNonNegative(bars, orders[0]);
    PrefixCostsLess(bars, orders[1..], 0);
    FractionMonotone(0.0, NotionalOf(bars, orders[0]), factor);
    FractionMonotone(0.0, OpeningValue(bars, orders[1..]), factor);
  }

  /** The first order can be paid, and what it leaves pays the rest. */
  lemma FirstIsPaid(terms: Terms, p: Paper, bars: map<Symbol, Bar>, orders: seq<Order>, now: Time)
    requires FairTerms(terms) && orders != [] && orders[0].kind.Market? && QuotesOk(p)
    requires QuotedFor(p, bars, orders) && Affordable(terms, p, bars, orders)
    ensures var f := FillFor(terms, p, orders[0], now);
            !CannotPay(p, f) && Fraction(OpeningValue(bars, orders[1..]), CostFactor(terms)) <= p.cash + CashEffect(f)
  {
    var o := orders[0];
    assert o in orders;
    FactorIsPositive(terms);
    FirstAndRest(bars, orders, CostFactor(terms));
    if o.side.Buy? {
      BuyCost(terms, p.quotes[o.symbol], o.quantity);
    } else {
      SaleAddsCash(terms, p, o, now);
      assert NotionalOf(bars, o) == 0.0;
    }
  }

  /** An affordable batch is placed in full, in its own order. */
  lemma {:induction false} AffordableIsPlaced(setup: Setup, s: Live, start: real, k: nat, b: Book,
                                              bars: map<Symbol, Bar>, orders: seq<Order>, now: Time, world: World)
    requires FairTerms(setup.terms) && !setup.dryRun && RunOk(s, start, k) && Ready(s, b, orders)
    requires QuotedFor(s.venue.value, bars, orders) && Affordable(setup.terms, s.venue.value, bars, orders)
    ensures PlacedInOrder(LogOf(s), LogOf(SubmitAll(setup, s, orders, now, world)), orders)
    decreases |orders|
  {
    if orders != [] {
      var t := Sent(setup, s, orders[0], now, world);
      assert orders[0] in orders;
      SubmitOneOfBatch(setup, s, start, k, b, orders, now, world);
      SubmitFromFront(setup, s, orders, now, world);
      FirstIsPaid(setup.terms, s.venue.value, bars, orders, now);
      SentPlaces(setup, s, orders[0], now, world);
      assert QuotedFor(t.venue.value, bars, orders[1..]);
      AffordableIsPlaced(setup, t, start, k, b, bars, orders[1..], now, world);
      PlacedFirst(LogOf(s), FillFor(setup.terms, s.venue.value, orders[0], now),
                  LogOf(SubmitAll(setup, s, orders, now, world)), orders);
    }
  }

  /** `after` is `before` with one fill for each order, in the same order. */
  predicate PlacedInOrder(before: seq<Fill>, after: seq<Fill>, orders: seq<Order>) {
    && |after| == |before| + |orders| && after[..|before|] == before
    && forall i :: 0 <= i < |orders| ==> Fulfils(after[|before| + i], orders[i])
  }

  lemma PlacedFirst(before: seq<Fill>, f: Fill, after: seq<Fill>, orders: seq<Order>)
    requires orders != [] && Fulfils(f, orders[0]) && PlacedInOrder(before + [f], after, orders[1..])
    ensures PlacedInOrder(before, after, orders)
  {
    var n := |before|;
    assert after[..n] == after[..n + 1][..n] == before;
    forall i | 0 <= i < |orders| ensures Fulfils(after[n + i], orders[i]) {
      if i == 0 {
        assert after[n] == after[..n + 1][n];
      } else {
        assert Fulfils(after[n + 1 + (i - 1)], orders[1..][i - 1]);
      }
    }
  }

  /** A held symbol has been bought, so it has been quoted. */
  lemma {:induction false} HeldIsLogged(log: seq<Fill>, x: Symbol)
    requires NetQuantity(log, x) != 0
    ensures exists i :: 0 <= i < |log| && log[i].symbol == x
  {
    var n := |log| - 1;
    if log[n].symbol != x {
      HeldIsLogged(log[..n], x);
      var i :| 0 <= i < |log[..n]| && log[..n][i].symbol == x;
      assert log[i].symbol == x;
    }
  }

  /** The broker is up and quotes every current close. */
  ghost predicate Current(p: Paper, bars: map<Symbol, Bar>) {
    p.connected && forall x :: x in bars ==> x in p.quotes && p.quotes[x] == bars[x].close
  }

  lemma PassingIsQuoted(setup: Setup, s: Live, start: real, t: Tick, events: seq<Signal>)
    requires setup.trade.Valid() && RunOk(s, start, |LogOf(s)|) && Current(s.venue.value, t.bars)
    ensures QuotedFor(s.venue.value, t.bars, Passing(setup, s, t, events))
  {
    var p := s.venue.value;
    BookIsLongOnly(s, start, |LogOf(s)|);
    PassingIsGood(setup, s, t, events);
    DrainedHasSameBooks(s, start);
    forall o | o in Passing(setup, s, t, events) ensures o.symbol in p.quotes {
      if o.side.Sell? {
        assert NetQuantity(p.fillLog, o.symbol) == Held(p, o.symbol) == o.quantity;
        HeldIsLogged(p.fillLog, o.symbol);
      }
    }
  }

  lemma PassingIsAffordable(setup: Setup, s: Live, start: real, t: Tick, events: seq<Signal>)
    requires setup.trade.Valid() && FairTerms(setup.terms) && RunOk(s, start, |LogOf(s)|)
    requires Fraction(1.0 - setup.trade.alloc.minCashPct, CostFactor(setup.terms)) <= 1.0
    ensures Affordable(setup.terms, s.venue.value, t.bars, Passing(setup, s, t, events))
  {
    BookIsLongOnly(s, start, |LogOf(s)|);
    PassingIsGood(setup, s, t, events);
    DrainedHasSameBooks(s, start);
    FactorIsPositive(setup.terms);
    WithinReserveIsPaid(setup.trade.alloc, setup.terms, s.book.cash,
                        OpeningValue(t.bars, Passing(setup, s, t, events)));
  }

  lemma WithinReserveIsPaid(alloc: Allocator.Config, terms: Terms, cash: real, value: real)
    requires alloc.Valid() && FairTerms(terms) && cash >= 0.0 && value <= Allocator.Deployable(alloc, cash)
    requires Fraction(1.0 - alloc.minCashPct, CostFactor(terms)) <= 1.0
    ensures Fraction(value, CostFactor(terms)) <= cash
  {
    FactorIsPositive(terms);
    FractionMonotone(value, Allocator.Deployable(alloc, cash), CostFactor(terms));
    if cash > 0.0 {
      PositiveProduct(cash, 1.0 - alloc.minCashPct);
      ReserveScales(alloc.minCashPct, CostFactor(terms), cash);
    }
  }

  lemma BatchIsPlaced(setup: Setup, s: Live, start: real, t: Tick, events: seq<Signal>)
    requires setup.trade.Valid() && FairTerms(setup.terms) && !setup.dryRun && RunOk(s, start, |LogOf(s)|)
    requires Current(s.venue.value, t.bars)
    requires Fraction(1.0 - setup.trade.alloc.minCashPct, CostFactor(setup.terms)) <= 1.0
    ensures PlacedInOrder(LogOf(s), LogOf(Batched(setup, s, t, events)), Passing(setup, s, t, events))
  {
    BatchIsReady(setup, s, start, t, events);
    BatchSubmitsPassing(setup, s, t, events);
    PassingIsQuoted(setup, s, start, t, events);
    PassingIsAffordable(setup, s, start, t, events);
    var staged, passed := Staged(setup, s, t, events), Passing(setup, s, t, events);
    AffordableIsPlaced(setup, staged, start, |LogOf(s)|, s.book, t.bars, passed, t.now, t.world);
  }

  /** The orders that a tick of a given state puts past the gate. */
  ghost function PassedIn(setup: Setup, s: Live, t: Tick): seq<Order>
    requires setup.trade.Valid()
  {
    Passing(setup, Prepared(setup, s, t), t, EventsOf(setup, s, t))
  }

  /** With a reserve that covers the costs, the broker never refuses: in every run, every order that passes the
      gate in a tick that completes is filled in full by the end of that tick. */
  lemma ReserveFillsEveryOrder(setup: Setup, s: Live, ticks: seq<Tick>, t: Tick)
    requires setup.trade.Valid() && FairTerms(setup.terms) && FreshSession(setup, s) && !setup.dryRun
    requires Fraction(1.0 - setup.trade.alloc.minCashPct, CostFactor(setup.terms)) <= 1.0
    requires t.Completes()
    ensures var before := Run(setup, s, ticks);
            var after := Run(setup, s, ticks + [t]);
            forall o :: o in PassedIn(setup, before, t) ==>
              && o.id in after.oms.orders
              && after.oms.orders[o.id].status.Filled? && after.oms.orders[o.id].filled == o.quantity
  {
    var start, before := setup.terms.initialCapital, Run(setup, s, ticks);
    assert (ticks + [t])[..|ticks|] == ticks;
    var k := RunKeeps(setup, s, ticks);
    TickFillsPassed(setup, before, start, k, t);
  }

  lemma TickFillsPassed(setup: Setup, s: Live, start: real, k: nat, t: Tick)
    requires setup.trade.Valid() && FairTerms(setup.terms) && RunOk(s, start, k) && !setup.dryRun
    requires Fraction(1.0 - setup.trade.alloc.minCashPct, CostFactor(setup.terms)) <= 1.0
    requires t.Completes()
    ensures var after := Ticked(setup, s, t);
            forall o :: o in PassedIn(setup, s, t) ==>
              && o.id in after.oms.orders
              && after.oms.orders[o.id].status.Filled? && after.oms.orders[o.id].filled == o.quantity
  {
    var r, events := Prepared(setup, s, t), EventsOf(setup, s, t);
    PreparedIsCurrent(setup, s, start, k, t);
    BatchIsPlaced(setup, r, start, t, events);
    BatchKeeps(setup, r, start, t, events);
    var d := Batched(setup, r, t, events);
    FinishedKeeps(setup, d, start, |LogOf(r)|, t);
    var after := Finished(setup, d, t);
    LoggedIsFilled(after, start, LogOf(r), PassedIn(setup, s, t));
  }

  lemma PreparedIsCurrent(setup: Setup, s: Live, start: real, k: nat, t: Tick)
    requires RunOk(s, start, k)
    ensures var r := Prepared(setup, s, t);
            RunOk(r, start, |LogOf(r)|) && Current(r.venue.value, t.bars)
  {
    PricedKeeps(s, start, k, t.bars);
    PreparedKeeps(setup, s, start, k, t);
  }

  lemma LoggedIsFilled(s: Live, start: real, before: seq<Fill>, orders: seq<Order>)
    requires Synced(s, start, |LogOf(s)|) && PlacedInOrder(before, LogOf(s), orders)
    ensures forall o :: o in orders ==>
              o.id in s.oms.orders && s.oms.orders[o.id].status.Filled? && s.oms.orders[o.id].filled == o.quantity
  {
    forall o | o in orders
      ensures o.id in s.oms.orders && s.oms.orders[o.id].status.Filled? && s.oms.orders[o.id].filled == o.quantity
    {
      var i :| 0 <= i < |orders| && orders[i] == o;
      assert Fulfils(LogOf(s)[|before| + i], orders[i]);
      assert Logged(s.oms, LogOf(s)[|before| + i], true);
    }
  }
}
