/** The prices of a paper session: every fill is logged at the quote of its tick, with slippage and commission against
    the trader. */
module LivePrices {
  import opened Models
  import opened Portfolio
  import opened SignalBatch
  import opened OrderManager
  import opened PaperBroker
  import opened LiveModel
  import opened LiveRuns

  /** A purchase pays slippage and commission on top of the quote, a sale loses both from it. */
  predicate AtQuote(terms: Terms, quote: real, f: Fill) {
    var rate, fee := terms.slipBps / 10000.0, terms.commissionPct;
    var value := Worth(quote, f.quantity);
    if f.side.Buy? then
      && f.fillPrice == quote * (1.0 + rate) && f.fillPrice >= quote
      && CashEffect(f) == -(value * (1.0 + rate) * (1.0 + fee))
    else
      && f.fillPrice == quote * (1.0 - rate) && f.fillPrice <= quote
      && CashEffect(f) == value * (1.0 - rate) * (1.0 - fee)
  }

  lemma FactorMoves(quote: real, rate: real)
    requires quote >= 0.0 && rate >= 0.0
    ensures quote * (1.0 - rate) <= quote <= quote * (1.0 + rate)
  {
    assert quote * rate >= 0.0;
  }

  lemma WorthOfFactor(quote: real, factor: real, n: int)
    ensures Worth(quote * factor, n) == Worth(quote, n) * factor
  {
    assert quote * factor * n as real == quote * n as real * factor;
  }

  lemma WithFee(value: real, fee: real)
    ensures value + Fraction(value, fee) == value * (1.0 + fee) && value - Fraction(value, fee) == value * (1.0 - fee)
  {
  }

  lemma FillIsAtQuote(terms: Terms, p: Paper, order: Order, now: Time)
    requires FairTerms(terms) && order.kind.Market? && order.symbol in p.quotes && p.quotes[order.symbol] > 0.0
    ensures AtQuote(terms, p.quotes[order.symbol], FillFor(terms, p, order, now))
  {
    var quote, rate, fee := p.quotes[order.symbol], terms.slipBps / 10000.0, terms.commissionPct;
    var f := FillFor(terms, p, order, now);
    PaidPriceIsFillPrice(terms, order, quote);
    FactorMoves(quote, rate);
    WorthOfFactor(quote, if order.side.Buy? then 1.0 + rate else 1.0 - rate, order.quantity);
    WithFee(Worth(f.fillPrice, f.quantity), fee);
  }

  /** The log has grown by fills at these quotes. */
  ghost predicate GrownAtQuotes(terms: Terms, quotes: Prices, before: seq<Fill>, after: seq<Fill>) {
    && before <= after
    && forall i :: |before| <= i < |after| ==>
         after[i].symbol in quotes && AtQuote(terms, quotes[after[i].symbol], after[i])
  }

  lemma GrownOn(terms: Terms, quotes: Prices, a: seq<Fill>, b: seq<Fill>, c: seq<Fill>)
    requires GrownAtQuotes(terms, quotes, a, b) && GrownAtQuotes(terms, quotes, b, c)
    ensures GrownAtQuotes(terms, quotes, a, c)
  {
    forall i | |a| <= i < |c| ensures c[i].symbol in quotes && AtQuote(terms, quotes[c[i].symbol], c[i]) {
      if i < |b| {
        assert c[i] == b[i];
      }
    }
  }

  lemma SentAtQuote(setup: Setup, s: Live, t: Live, order: Order, now: Time)
    requires FairTerms(setup.terms) && SubmitEffect(setup, s, t, order, now) && QuotesOk(s.venue.value)
    requires order.kind.Market?
    ensures GrownAtQuotes(setup.terms, s.venue.value.quotes, LogOf(s), LogOf(t))
  {
    if t.venue != s.venue {
      FillIsAtQuote(setup.terms, s.venue.value, order, now);
    }
  }

  lemma {:induction false} SubmitAllAtQuotes(setup: Setup, s: Live, start: real, k: nat, b: Book, orders: seq<Order>,
                                             now: Time, world: World)
    requires FairTerms(setup.terms) && RunOk(s, start, k) && Ready(s, b, orders)
    ensures GrownAtQuotes(setup.terms, s.venue.value.quotes, LogOf(s), LogOf(SubmitAll(setup, s, orders, now, world)))
    decreases |orders|
  {
    if orders != [] {
      var u := Sent(setup, s, orders[0], now, world);
      assert orders[0] in orders;
      SubmitOneOfBatch(setup, s, start, k, b, orders, now, world);
      SentAtQuote(setup, s, u, orders[0], now);
      SubmitFromFront(setup, s, orders, now, world);
      SubmitAllAtQuotes(setup, u, start, k, b, orders[1..], now, world);
      GrownOn(setup.terms, s.venue.value.quotes, LogOf(s), LogOf(u), LogOf(SubmitAll(setup, s, orders, now, world)));
    }
  }

  /** The quotes of a tick: the closes of its bars, and older ones for the other symbols. */
  function QuotesIn(s: Live, t: Tick): Prices {
    match s.venue
    case None => map[]
    case Some(p) => p.quotes + map x | x in t.bars :: t.bars[x].close
  }

  lemma PreparedQuotes(setup: Setup, s: Live, start: real, k: nat, t: Tick)
    requires RunOk(s, start, k)
    ensures var r := Prepared(setup, s, t);
            RunOk(r, start, |LogOf(r)|) && LogOf(r) == LogOf(s) && r.venue.value.quotes == QuotesIn(s, t)
  {
    PricedKeeps(s, start, k, t.bars);
    PreparedKeeps(setup, s, start, k, t);
  }

  lemma BatchAtQuotes(setup: Setup, s: Live, start: real, k: nat, t: Tick)
    requires setup.trade.Valid() && FairTerms(setup.terms) && RunOk(s, start, k)
    ensures GrownAtQuotes(setup.terms, QuotesIn(s, t), LogOf(s), LogOf(BatchDone(setup, s, t)))
  {
    var r, events := Prepared(setup, s, t), EventsOf(setup, s, t);
    PreparedQuotes(setup, s, start, k, t);
    BatchIsReady(setup, r, start, t, events);
    BatchSubmitsPassing(setup, r, t, events);
    var staged, passed := Staged(setup, r, t, events), Passing(setup, r, t, events);
    SubmitAllAtQuotes(setup, staged, start, |LogOf(r)|, r.book, passed, t.now, t.world);
  }

  lemma TickAtQuotes(setup: Setup, s: Live, start: real, k: nat, t: Tick)
    requires setup.trade.Valid() && FairTerms(setup.terms) && RunOk(s, start, k)
    ensures GrownAtQuotes(setup.terms, QuotesIn(s, t), LogOf(s), LogOf(Ticked(setup, s, t)))
  {
    if t.bars == map[] {
      ConnectedKeeps(s, start, k);
    } else if t.fails {
      PreparedKeeps(setup, s, start, k, t);
    } else {
      BatchAtQuotes(setup, s, start, k, t);
      if t.crash.None? {
        BatchDoneKeeps(setup, s, start, k, t);
        FinishedKeeps(setup, BatchDone(setup, s, t), start, |LogOf(s)|, t);
      }
    }
  }

  /** The fills of every tick of a run are at the quotes of that tick. */
  ghost predicate AllAtQuotes(setup: Setup, s: Live, ticks: seq<Tick>)
    requires setup.trade.Valid()
  {
    ticks == [] ||
    var init, t := ticks[..|ticks| - 1], ticks[|ticks| - 1];
    && AllAtQuotes(setup, s, init)
    && GrownAtQuotes(setup.terms, QuotesIn(Run(setup, s, init), t), LogOf(Run(setup, s, init)),
                     LogOf(Run(setup, s, ticks)))
  }

  /** Over every paper session the fill log only grows, and what a tick adds is priced on the quotes of that tick: no
      purchase below its quote and no sale above it, with slippage and commission taken from the trader both times. */
  lemma {:induction false} EveryFillIsAtQuote(setup: Setup, s: Live, ticks: seq<Tick>)
    requires setup.trade.Valid() && FairTerms(setup.terms) && FreshSession(setup, s)
    ensures AllAtQuotes(setup, s, ticks)
  {
    if ticks != [] {
      var init, t := ticks[..|ticks| - 1], ticks[|ticks| - 1];
      EveryFillIsAtQuote(setup, s, init);
      var k := RunKeeps(setup, s, init);
      TickAtQuotes(setup, Run(setup, s, init), setup.terms.initialCapital, k, t);
    }
  }
}
