/** The exits of the live engine with the paper broker: when exactly a long position keeps a stop level, and when its
    stop exit survives a tick that is cut short. */
module LiveExits {
  import opened Models
  import opened Portfolio
  import opened StopLoss
  import opened StopExits
  import opened SignalBatch
  import opened BatchBounds
  import opened BatchExits
  import opened OrderManager
  import opened PaperBroker
  import opened LiveModel
  import opened LiveRuns
  import opened LiveLaws
  import opened VenueLaws

  // ---- Fills that trade properly -------------------------------------------------------------

  /** A fill of a known order that closes exactly what is held or opens a position where none is, with a stop. */
  predicate Trades(oms: Oms, b: Book, f: Fill) {
    && f.orderId in oms.orders && f.quantity > 0
    && Fulfils(f, oms.orders[f.orderId].order) && Fits(b, oms.orders[f.orderId].order)
  }

  predicate FreshIn(fills: seq<Fill>, x: Symbol) {
    forall f :: f in fills ==> f.symbol != x
  }

  /** Such fills, each in a symbol of its own. */
  ghost predicate Suits(oms: Oms, b: Book, fills: seq<Fill>) {
    && (forall f :: f in fills ==> Trades(oms, b, f))
    && forall i, j :: 0 <= i < j < |fills| ==> fills[i].symbol != fills[j].symbol
  }

  predicate LevelsHeld(s: Live) {
    forall x :: x in s.stops ==> At(s.book, x).quantity > 0
  }

  predicate SameFor(s: Live, t: Live, x: Symbol) {
    && At(t.book, x) == At(s.book, x) && (x in t.stops <==> x in s.stops)
    && (x in s.stops ==> t.stops[x] == s.stops[x])
  }

  /** What taking the fills does: a purchase leaves its quantity and a level, a sale neither. */
  ghost predicate Taken(s: Live, t: Live, fills: seq<Fill>) {
    && (forall f :: f in fills ==>
          && At(t.book, f.symbol).quantity == (if f.side.Buy? then f.quantity else 0)
          && (f.symbol in t.stops <==> f.side.Buy?))
    && forall x :: FreshIn(fills, x) ==> SameFor(s, t, x)
  }

  lemma DrainTrades(setup: Setup, s: Live, f: Fill, now: Time)
    requires Consistent(s.oms) && Logged(s.oms, f, false) && Trades(s.oms, s.book, f)
    requires LongOnly(s.book) && LevelsHeld(s)
    ensures var t := DrainOne(setup, s, f, now); LongOnly(t.book) && LevelsHeld(t) && Taken(s, t, [f])
  {
    var t, o := DrainOne(setup, s, f, now), s.oms.orders[f.orderId].order;
    assert t.book == Applied(s.book, f) && t.stops == StopsSynced(setup, s.stops, t.book, f, o);
    forall x | FreshIn([f], x) ensures SameFor(s, t, x) {
      assert f in [f];
    }
  }

  lemma TakenOneMore(s: Live, t: Live, u: Live, fills: seq<Fill>, f: Fill)
    requires Taken(s, t, fills) && Taken(t, u, [f]) && FreshIn(fills, f.symbol)
    ensures Taken(s, u, fills + [f])
  {
    assert f in [f];
    forall g | g in fills
      ensures At(u.book, g.symbol).quantity == (if g.side.Buy? then g.quantity else 0)
              && (g.symbol in u.stops <==> g.side.Buy?)
    {
      assert FreshIn([f], g.symbol);
      assert SameFor(t, u, g.symbol);
    }
    forall x | FreshIn(fills + [f], x) ensures SameFor(s, u, x) {
      assert f in fills + [f] && forall g :: g in fills ==> g in fills + [f];
      assert SameFor(s, t, x) && FreshIn([f], x);
    }
  }

  /** The state after taking fills that trade properly. */
  ghost predicate Advanced(s: Live, t: Live, fills: seq<Fill>) {
    Grows(s.oms, t.oms) && LongOnly(t.book) && LevelsHeld(t) && Taken(s, t, fills)
  }

  lemma StillTrades(s: Live, t: Live, fills: seq<Fill>, f: Fill)
    requires Trades(s.oms, s.book, f) && Taken(s, t, fills) && FreshIn(fills, f.symbol) && Grows(s.oms, t.oms)
    ensures Trades(t.oms, t.book, f)
  {
    assert Kept(s.oms.orders[f.orderId], t.oms.orders[f.orderId]);
    assert SameFor(s, t, f.symbol);
  }

  lemma NextAdvances(setup: Setup, s: Live, t: Live, fills: seq<Fill>, f: Fill, now: Time)
    requires Advanced(s, t, fills) && Logged(t.oms, f, false) && Trades(s.oms, s.book, f) && FreshIn(fills, f.symbol)
    ensures Advanced(s, DrainOne(setup, t, f, now), fills + [f])
  {
    StillTrades(s, t, fills, f);
    DrainTrades(setup, t, f, now);
    TakenOneMore(s, t, DrainOne(setup, t, f, now), fills, f);
    NextGrows(setup, t, f, now);
    GrowsOn(s.oms, t.oms, DrainOne(setup, t, f, now).oms);
  }

  lemma NextGrows(setup: Setup, t: Live, f: Fill, now: Time)
    requires Consistent(t.oms)
    ensures Grows(t.oms, DrainOne(setup, t, f, now).oms)
  {
    if f.orderId in t.oms.orders {
      FillGrows(t.oms, f.orderId, Excess(f.quantity, t.oms.orders[f.orderId].filled), f.fillPrice, Some(f), now);
      DrainOneIsFill(setup, t, f, now);
    }
  }

  /** One fill further. */
  lemma FreshAt(fills: seq<Fill>, oms: Oms, b: Book, n: nat)
    requires n < |fills| && Suits(oms, b, fills)
    ensures FreshIn(fills[..n], fills[n].symbol) && Trades(oms, b, fills[n])
  {
    forall g | g in fills[..n] ensures g.symbol != fills[n].symbol {
      var i :| 0 <= i < n && fills[..n][i] == g;
      assert fills[i].symbol != fills[n].symbol;
    }
    assert fills[n] in fills;
  }

  lemma NextOfRest(log: seq<Fill>, oms: Oms, b: Book, k: nat, i: nat)
    requires k <= i < |log| && Suits(oms, b, log[k..])
    ensures log[k..i + 1] == log[k..i] + [log[i]] && FreshIn(log[k..i], log[i].symbol) && Trades(oms, b, log[i])
  {
    assert log[k..i] == log[k..][..i - k] && log[k..][i - k] == log[i];
    FreshAt(log[k..], oms, b, i - k);
  }

  lemma StepAdvances(setup: Setup, s: Live, start: real, k: nat, i: nat, now: Time)
    requires Synced(s, start, k) && k < i <= |LogOf(s)| && Suits(s.oms, s.book, LogOf(s)[k..])
    requires Advanced(s, Drained(setup, s, LogOf(s)[..i - 1], now), LogOf(s)[k..i - 1])
    ensures Advanced(s, Drained(setup, s, LogOf(s)[..i], now), LogOf(s)[k..i])
  {
    var log := LogOf(s);
    DrainedUnfolds(setup, s, log, i, now);
    NextOfRest(log, s.oms, s.book, k, i - 1);
    StillLogged(setup, s, start, k, i - 1, now);
    NextAdvances(setup, s, Drained(setup, s, log[..i - 1], now), log[k..i - 1], log[i - 1], now);
  }

  lemma StartAdvances(setup: Setup, s: Live, start: real, k: nat, now: Time)
    requires Synced(s, start, k) && LongOnly(s.book) && LevelsHeld(s)
    ensures Advanced(s, Drained(setup, s, LogOf(s)[..k], now), LogOf(s)[k..k])
  {
    DrainOldPart(setup, s, start, k, k, now);
    assert LogOf(s)[k..k] == [];
    NoneAdvances(s);
  }

  lemma NoneAdvances(s: Live)
    requires Consistent(s.oms) && LongOnly(s.book) && LevelsHeld(s)
    ensures Advanced(s, s, [])
  {
  }

  /** The scan takes the undrained fills, each into its own position and level. */
  lemma {:induction false} DrainTakesEach(setup: Setup, s: Live, start: real, k: nat, i: nat, now: Time)
    requires Synced(s, start, k) && k <= i <= |LogOf(s)| && Suits(s.oms, s.book, LogOf(s)[k..])
    requires LongOnly(s.book) && LevelsHeld(s)
    ensures Advanced(s, Drained(setup, s, LogOf(s)[..i], now), LogOf(s)[k..i])
    decreases i
  {
    if i == k {
      StartAdvances(setup, s, start, k, now);
    } else {
      DrainTakesEach(setup, s, start, k, i - 1, now);
      StepAdvances(setup, s, start, k, i, now);
    }
  }

  lemma StillLogged(setup: Setup, s: Live, start: real, k: nat, i: nat, now: Time)
    requires Synced(s, start, k) && k <= i < |LogOf(s)|
    ensures Logged(Drained(setup, s, LogOf(s)[..i], now).oms, LogOf(s)[i], false)
  {
    DrainNewPart(setup, s, start, k, i, now);
  }

  // ---- What a batch adds to the log ----------------------------------------------------------

  predicate KeepOrders(a: Oms, b: Oms) {
    forall id :: id in a.orders ==> id in b.orders && b.orders[id].order == a.orders[id].order
  }

  ghost predicate Answers(oms: Oms, orders: seq<Order>, f: Fill) {
    exists o :: o in orders && Fulfils(f, o) && o.id in oms.orders && oms.orders[o.id].order == o
  }

  /** The log grows by fills of the orders, each in a symbol of its own. */
  ghost predicate LogGrows(s: Live, t: Live, orders: seq<Order>, fills: seq<Fill>) {
    && LogOf(t) == LogOf(s) + fills && KeepOrders(s.oms, t.oms)
    && (forall f :: f in fills ==> Answers(t.oms, orders, f))
    && forall i, j :: 0 <= i < j < |fills| ==> fills[i].symbol != fills[j].symbol
  }

  predicate OneAtMost(fills: seq<Fill>, order: Order) {
    fills == [] || (|fills| == 1 && Fulfils(fills[0], order))
  }

  lemma EffectLogs(setup: Setup, s: Live, t: Live, order: Order, now: Time) returns (fills: seq<Fill>)
    requires SubmitEffect(setup, s, t, order, now)
    ensures LogOf(t) == LogOf(s) + fills && OneAtMost(fills, order)
  {
    if LogOf(t) == LogOf(s) {
      fills := [];
      assert LogOf(s) + [] == LogOf(s);
    } else {
      fills := [FillFor(setup.terms, s.venue.value, order, now)];
    }
  }

  lemma OthersKeepOrders(a: Oms, b: Oms, order: Order)
    requires OnlyChanges(a, b, order) && order.id !in a.orders
    ensures KeepOrders(a, b) && order.id in b.orders && b.orders[order.id].order == order
  {
  }

  /** One submission logs nothing, or one fill of its order. */
  lemma SentLogs(setup: Setup, s: Live, start: real, k: nat, order: Order, now: Time, world: World)
    returns (fills: seq<Fill>)
    requires Synced(s, start, k) && order.id !in s.oms.orders
    ensures var t := Sent(setup, s, order, now, world);
            && LogOf(t) == LogOf(s) + fills && OneAtMost(fills, order) && KeepOrders(s.oms, t.oms)
            && order.id in t.oms.orders && t.oms.orders[order.id].order == order
  {
    SentKeeps(setup, s, start, k, order, now, world);
    SubmissionEnds(setup, s, order, now, world);
    OthersKeepOrders(s.oms, Sent(setup, s, order, now, world).oms, order);
    fills := EffectLogs(setup, s, Sent(setup, s, order, now, world), order, now);
  }

  lemma RestIsOther(orders: seq<Order>, fills: seq<Fill>, oms: Oms)
    requires orders != [] && DistinctSymbols(orders) && forall f :: f in fills ==> Answers(oms, orders[1..], f)
    ensures FreshIn(fills, orders[0].symbol) && forall f :: f in fills ==> Answers(oms, orders, f)
  {
    forall f | f in fills ensures f.symbol != orders[0].symbol && Answers(oms, orders, f) {
      var o :| o in orders[1..] && Fulfils(f, o) && o.id in oms.orders && oms.orders[o.id].order == o;
      var i :| 0 <= i < |orders[1..]| && orders[1..][i] == o;
      assert orders[i + 1] == o;
    }
  }

  lemma FirstThenRest(s: Live, u: Live, t: Live, orders: seq<Order>, first: seq<Fill>, rest: seq<Fill>)
    requires orders != [] && DistinctSymbols(orders) && KeepOrders(s.oms, u.oms)
    requires orders[0].id in u.oms.orders && u.oms.orders[orders[0].id].order == orders[0]
    requires LogOf(u) == LogOf(s) + first && OneAtMost(first, orders[0]) && LogGrows(u, t, orders[1..], rest)
    ensures LogGrows(s, t, orders, first + rest)
  {
    RestIsOther(orders, rest, t.oms);
    assert orders[0] in orders;
    assert (LogOf(s) + first) + rest == LogOf(s) + (first + rest);
    forall f | f in first + rest ensures Answers(t.oms, orders, f) {
      if f !in rest {
        assert f == first[0];
      }
    }
    assert forall f :: f in rest ==> f.symbol != orders[0].symbol;
  }

  lemma {:induction false} SubmitAllLogs(setup: Setup, s: Live, start: real, k: nat, b: Book, orders: seq<Order>,
                                         now: Time, world: World) returns (fills: seq<Fill>)
    requires FairTerms(setup.terms) && RunOk(s, start, k) && Ready(s, b, orders)
    ensures LogGrows(s, SubmitAll(setup, s, orders, now, world), orders, fills)
    decreases |orders|
  {
    if orders == [] {
      fills := [];
      assert LogOf(s) + [] == LogOf(s);
    } else {
      var u := Sent(setup, s, orders[0], now, world);
      assert orders[0] in orders;
      var first := SentLogs(setup, s, start, k, orders[0], now, world);
      SubmitOneOfBatch(setup, s, start, k, b, orders, now, world);
      SubmitFromFront(setup, s, orders, now, world);
      var rest := SubmitAllLogs(setup, u, start, k, b, orders[1..], now, world);
      fills := first + rest;
      FirstThenRest(s, u, SubmitAll(setup, s, orders, now, world), orders, first, rest);
    }
  }

  ghost predicate Sold(fills: seq<Fill>, x: Symbol) {
    exists f :: f in fills && f.symbol == x && f.side.Sell?
  }

  predicate Asks(orders: seq<Order>, x: Symbol) {
    exists o :: o in orders && o.symbol == x && o.side.Sell?
  }

  predicate Quoted(p: Paper, orders: seq<Order>) {
    p.connected && forall o :: o in orders ==> o.symbol in p.quotes
  }

  /** A sale that is submitted is filled, as the paper broker never lacks what it pays out; a dry run fills nothing. */
  lemma SentSells(setup: Setup, s: Live, order: Order, now: Time, world: World, fills: seq<Fill>, x: Symbol)
    requires s.venue.Some? && s.venue.value.connected && order.symbol in s.venue.value.quotes
    requires order.id !in s.oms.orders && OneAtMost(fills, order)
    requires LogOf(Sent(setup, s, order, now, world)) == LogOf(s) + fills
    ensures Sold(fills, x) <==> !setup.dryRun && order.symbol == x && order.side.Sell?
  {
    if setup.dryRun {
      DryLogsNothing(setup, s, order, now, world);
      assert fills == [];
    } else if order.side.Sell? {
      SentPlaces(setup, s, order, now, world);
      assert |fills| == 1 && fills[0] in fills;
    }
  }

  lemma DryLogsNothing(setup: Setup, s: Live, order: Order, now: Time, world: World)
    requires setup.dryRun
    ensures LogOf(Sent(setup, s, order, now, world)) == LogOf(s)
  {
  }

  lemma FirstOrRestSells(orders: seq<Order>, first: seq<Fill>, rest: seq<Fill>, dry: bool, x: Symbol)
    requires orders != []
    requires Sold(first, x) <==> !dry && orders[0].symbol == x && orders[0].side.Sell?
    requires Sold(rest, x) <==> !dry && Asks(orders[1..], x)
    ensures Sold(first + rest, x) <==> !dry && Asks(orders, x)
  {
    assert orders == [orders[0]] + orders[1..];
    assert forall f :: f in first + rest <==> f in first || f in rest;
    assert forall o :: o in orders <==> o == orders[0] || o in orders[1..];
  }

  /** A batch sells exactly what its sales ask for, unless it is a dry run. */
  lemma {:induction false} SubmitAllSells(setup: Setup, s: Live, start: real, k: nat, b: Book, orders: seq<Order>,
                                          now: Time, world: World, fills: seq<Fill>, x: Symbol)
    requires FairTerms(setup.terms) && RunOk(s, start, k) && Ready(s, b, orders) && Quoted(s.venue.value, orders)
    requires LogOf(SubmitAll(setup, s, orders, now, world)) == LogOf(s) + fills
    ensures Sold(fills, x) <==> !setup.dryRun && Asks(orders, x)
    decreases |orders|
  {
    if orders == [] {
      assert fills == [];
    } else {
      var u := Sent(setup, s, orders[0], now, world);
      assert orders[0] in orders;
      var first := SentLogs(setup, s, start, k, orders[0], now, world);
      SentSells(setup, s, orders[0], now, world, first, x);
      SubmitOneOfBatch(setup, s, start, k, b, orders, now, world);
      SubmitFromFront(setup, s, orders, now, world);
      var rest := SubmitAllLogs(setup, u, start, k, b, orders[1..], now, world);
      SubmitAllSells(setup, u, start, k, b, orders[1..], now, world, rest, x);
      FirstOrRestSells(orders, first, rest, setup.dryRun, x);
      SameRest(LogOf(s), fills, first, rest);
    }
  }

  lemma SameRest(log: seq<Fill>, fills: seq<Fill>, first: seq<Fill>, rest: seq<Fill>)
    requires log + fills == log + first + rest
    ensures fills == first + rest
  {
    assert (log + fills)[|log|..] == fills;
    assert log + first + rest == log + (first + rest);
    assert (log + (first + rest))[|log|..] == first + rest;
  }

  // ---- One tick ------------------------------------------------------------------------------

  predicate StopsFlat(events: seq<Signal>) {
    forall e :: e in events && e.fromStop ==> e.direction.Flat?
  }

  /** The run invariant, with fills that are not drained yet fit to be. */
  ghost predicate ExitOk(s: Live, start: real, k: nat) {
    RunOk(s, start, k) && Suits(s.oms, s.book, LogOf(s)[k..]) && LevelsHeld(s) && StopsFlat(s.queued)
  }

  /** The state that the stop check sees: connected, quoted, and with every fill drained. */
  ghost function Opened(setup: Setup, s: Live, t: Tick): Live {
    Polled(setup, Priced(Connected(s), Closes(t.bars)), t.now, t.world, true)
  }

  lemma PollAdvances(setup: Setup, s: Live, start: real, k: nat, now: Time, world: World, force: bool)
    requires RunOk(s, start, k) && Suits(s.oms, s.book, LogOf(s)[k..]) && LevelsHeld(s)
    ensures Advanced(s, Polled(setup, s, now, world, force), LogOf(s)[k..])
  {
    var log := LogOf(s);
    BookIsLongOnly(s, start, k);
    DrainTakesEach(setup, s, start, k, |log|, now);
    assert log[..|log|] == log && log[k..|log|] == log[k..];
  }

  lemma OpenedAdvances(setup: Setup, s: Live, start: real, k: nat, t: Tick)
    requires ExitOk(s, start, k)
    ensures Advanced(s, Opened(setup, s, t), LogOf(s)[k..])
  {
    var p := Priced(Connected(s), Closes(t.bars));
    PricedKeeps(s, start, k, t.bars);
    PollAdvances(setup, p, start, k, t.now, t.world, true);
    SameStart(s, p, Opened(setup, s, t), LogOf(s)[k..]);
  }

  lemma SameStart(s: Live, p: Live, u: Live, fills: seq<Fill>)
    requires Advanced(p, u, fills) && p.book == s.book && p.stops == s.stops && p.oms == s.oms
    ensures Advanced(s, u, fills)
  {
    forall x | FreshIn(fills, x) ensures SameFor(s, u, x) {
      assert SameFor(p, u, x);
    }
  }

  /** Between the stop check and the batch. */
  lemma PreparedShape(setup: Setup, s: Live, start: real, k: nat, t: Tick)
    requires RunOk(s, start, k)
    ensures var u, r := Opened(setup, s, t), Prepared(setup, s, t);
            && r.book == u.book && r.stops == LevelsAfter(u.stops, t.bars) && r.queued == []
            && u.stops == StopsBefore(setup, s, t)
  {
    var p := Priced(Connected(s), Closes(t.bars));
    PricedKeeps(s, start, k, t.bars);
    PollDrainsAll(setup, p, start, k, t.now, t.world, true);
    var polled := Opened(setup, s, t);
    ExpireAllKeeps(setup, polled, start, Stale(polled.oms, polled.oms.ids, setup.ttl, t.now), t.now, t.world);
  }

  /** What the batch of a tick logs. */
  ghost predicate BatchLogged(setup: Setup, s: Live, t: Tick, fills: seq<Fill>)
    requires setup.trade.Valid()
  {
    var r, d := Prepared(setup, s, t), BatchDone(setup, s, t);
    && LogOf(d) == LogOf(r) + fills && Suits(d.oms, d.book, fills)
    && d.book == r.book && d.stops == r.stops && d.queued == []
    && forall x :: Sold(fills, x) <==> !setup.dryRun && Asks(PassedIn(setup, s, t), x)
  }

  lemma BatchLogs(setup: Setup, s: Live, start: real, k: nat, t: Tick) returns (fills: seq<Fill>)
    requires setup.trade.Valid() && FairTerms(setup.terms) && RunOk(s, start, k)
    ensures BatchLogged(setup, s, t, fills)
  {
    var r, events := Prepared(setup, s, t), EventsOf(setup, s, t);
    PreparedIsCurrent(setup, s, start, k, t);
    PreparedShape(setup, s, start, k, t);
    BatchIsReady(setup, r, start, t, events);
    BatchSubmitsPassing(setup, r, t, events);
    PassingIsQuoted(setup, r, start, t, events);
    var staged, passed := Staged(setup, r, t, events), Passing(setup, r, t, events);
    SubmitAllKeeps(setup, staged, start, |LogOf(r)|, r.book, passed, t.now, t.world);
    fills := SubmitAllLogs(setup, staged, start, |LogOf(r)|, r.book, passed, t.now, t.world);
    AnswersSuit(BatchDone(setup, s, t).oms, r.book, passed, fills);
    forall x ensures Sold(fills, x) <==> !setup.dryRun && Asks(PassedIn(setup, s, t), x) {
      SubmitAllSells(setup, staged, start, |LogOf(r)|, r.book, passed, t.now, t.world, fills, x);
    }
  }

  lemma AnswersSuit(oms: Oms, b: Book, orders: seq<Order>, fills: seq<Fill>)
    requires forall o :: o in orders ==> Fits(b, o)
    requires forall f :: f in fills ==> Answers(oms, orders, f)
    requires forall i, j :: 0 <= i < j < |fills| ==> fills[i].symbol != fills[j].symbol
    ensures Suits(oms, b, fills)
  {
  }

  /** A tick ends in the state before its batch, or with the fills of the batch taken. */
  ghost predicate EndsWith(setup: Setup, s: Live, t: Tick, fills: seq<Fill>)
    requires setup.trade.Valid()
  {
    var r, e := Prepared(setup, s, t), Ticked(setup, s, t);
    if t.Completes() then Taken(r, e, fills) && LevelsHeld(e)
    else e.book == r.book && e.stops == r.stops
  }

  lemma FinishedTakes(setup: Setup, r: Live, d: Live, start: real, k: nat, t: Tick, fills: seq<Fill>)
    requires RunOk(d, start, k) && d.book == r.book && d.stops == r.stops && LevelsHeld(r)
    requires LogOf(d)[k..] == fills && Suits(d.oms, d.book, fills)
    ensures Taken(r, Finished(setup, d, t), fills) && LevelsHeld(Finished(setup, d, t))
  {
    var e := Polled(setup, d, t.now, t.world, false);
    PollAdvances(setup, d, start, k, t.now, t.world, false);
    TakenFrom(r, d, e, fills);
    FinishingTakes(r, e, Finished(setup, d, t), fills);
  }

  lemma FinishingTakes(r: Live, e: Live, f: Live, fills: seq<Fill>)
    requires Taken(r, e, fills) && LevelsHeld(e) && f.book == e.book && f.stops == e.stops
    ensures Taken(r, f, fills) && LevelsHeld(f)
  {
    forall x | FreshIn(fills, x) ensures SameFor(r, f, x) {
      assert SameFor(r, e, x);
    }
  }

  lemma PreparedHoldsLevels(setup: Setup, s: Live, start: real, k: nat, t: Tick)
    requires ExitOk(s, start, k)
    ensures LevelsHeld(Prepared(setup, s, t))
  {
    OpenedAdvances(setup, s, start, k, t);
    PreparedShape(setup, s, start, k, t);
  }

  lemma TickEnds(setup: Setup, s: Live, start: real, k: nat, t: Tick, fills: seq<Fill>)
    requires setup.trade.Valid() && FairTerms(setup.terms) && ExitOk(s, start, k) && t.bars != map[]
    requires BatchLogged(setup, s, t, fills)
    ensures EndsWith(setup, s, t, fills)
  {
    if t.Completes() {
      var r, d := Prepared(setup, s, t), BatchDone(setup, s, t);
      PreparedHoldsLevels(setup, s, start, k, t);
      PreparedKeeps(setup, s, start, k, t);
      BatchDoneKeeps(setup, s, start, k, t);
      assert LogOf(d)[|LogOf(s)|..] == fills;
      FinishedTakes(setup, r, d, start, |LogOf(s)|, t, fills);
    }
  }

  lemma TakenFrom(r: Live, d: Live, e: Live, fills: seq<Fill>)
    requires Advanced(d, e, fills) && d.book == r.book && d.stops == r.stops
    ensures Taken(r, e, fills)
  {
    forall x | FreshIn(fills, x) ensures SameFor(r, e, x) {
      assert SameFor(d, e, x);
    }
  }

  /** The level is there after the draining and does not fire. */
  ghost predicate LevelStands(setup: Setup, s: Live, t: Tick, x: Symbol) {
    x in Opened(setup, s, t).stops && !Fires(Opened(setup, s, t).stops, t.bars, x)
  }

  /** A symbol held at the end of a tick has a level exactly when it was bought in that tick, or its level stood. */
  lemma LevelAtEndOfTick(setup: Setup, s: Live, start: real, k: nat, t: Tick, x: Symbol)
    requires setup.trade.Valid() && FairTerms(setup.terms) && ExitOk(s, start, k) && t.bars != map[]
    requires At(Ticked(setup, s, t).book, x).quantity != 0
    ensures x in Ticked(setup, s, t).stops <==>
              At(Opened(setup, s, t).book, x).quantity == 0 || LevelStands(setup, s, t, x)
  {
    var fills := BatchLogs(setup, s, start, k, t);
    TickEnds(setup, s, start, k, t, fills);
    PreparedShape(setup, s, start, k, t);
    if t.Completes() {
      LevelAfterTaking(Prepared(setup, s, t), Ticked(setup, s, t), BatchDone(setup, s, t).oms, fills, x);
    }
  }

  lemma LevelAfterTaking(r: Live, e: Live, oms: Oms, fills: seq<Fill>, x: Symbol)
    requires Taken(r, e, fills) && Suits(oms, r.book, fills) && At(e.book, x).quantity != 0
    ensures x in e.stops <==> x in r.stops || At(r.book, x).quantity == 0
  {
    if FreshIn(fills, x) {
      assert SameFor(r, e, x);
    } else {
      var f :| f in fills && f.symbol == x;
      assert Trades(oms, r.book, f);
    }
  }

  /** What is held after the draining is flat at the end of a tick exactly when the tick completes, is no dry run, has
      equity, and the symbol is among the closing signals. */
  lemma SoldInTick(setup: Setup, s: Live, start: real, k: nat, t: Tick, x: Symbol)
    requires setup.trade.Valid() && FairTerms(setup.terms) && ExitOk(s, start, k) && t.bars != map[]
    requires At(Opened(setup, s, t).book, x).quantity != 0
    ensures At(Ticked(setup, s, t).book, x).quantity == 0 <==>
              CanSell(setup, s, t) && x in NamesOf(ClosingSignals(setup.trade, DeskOf(setup, s, t)))
  {
    var r := Prepared(setup, s, t);
    var fills := BatchLogs(setup, s, start, k, t);
    TickEnds(setup, s, start, k, t, fills);
    PreparedShape(setup, s, start, k, t);
    if t.Completes() {
      FlatAfterTaking(r, Ticked(setup, s, t), BatchDone(setup, s, t).oms, fills, x);
      AskedInTick(setup, s, start, k, t, x);
    }
  }

  lemma HeldInTick(setup: Setup, s: Live, start: real, k: nat, t: Tick, x: Symbol)
    requires RunOk(s, start, k) && At(Opened(setup, s, t).book, x).quantity != 0
    ensures At(Prepared(setup, s, t).book, x).quantity > 0
  {
    PreparedIsCurrent(setup, s, start, k, t);
    PreparedShape(setup, s, start, k, t);
    BookIsLongOnly(Prepared(setup, s, t), start, |LogOf(Prepared(setup, s, t))|);
  }

  /** The same in terms of the signals of the tick. */
  lemma SoldByItsSignal(setup: Setup, s: Live, start: real, k: nat, t: Tick, x: Symbol)
    requires setup.trade.Valid() && FairTerms(setup.terms) && ExitOk(s, start, k) && t.bars != map[]
    requires At(Opened(setup, s, t).book, x).quantity != 0
    ensures At(Ticked(setup, s, t).book, x).quantity == 0 <==>
              CanSell(setup, s, t) && UpForSale(EventsOf(setup, s, t), x in t.fired, x)
  {
    SoldInTick(setup, s, start, k, t, x);
    HeldInTick(setup, s, start, k, t, x);
    HeldLongCloses(setup.trade, DeskOf(setup, s, t), x);
  }

  ghost function DeskOf(setup: Setup, s: Live, t: Tick): Desk {
    DeskAt(Prepared(setup, s, t), t, EventsOf(setup, s, t))
  }

  ghost predicate CanSell(setup: Setup, s: Live, t: Tick) {
    t.Completes() && !setup.dryRun && EquityAt(Opened(setup, s, t).book, Closes(t.bars)) > 0.0
  }

  lemma FlatAfterTaking(r: Live, e: Live, oms: Oms, fills: seq<Fill>, x: Symbol)
    requires Taken(r, e, fills) && Suits(oms, r.book, fills) && At(r.book, x).quantity != 0
    ensures At(e.book, x).quantity == 0 <==> Sold(fills, x)
  {
    if FreshIn(fills, x) {
      assert SameFor(r, e, x);
    } else {
      var f :| f in fills && f.symbol == x;
      assert Trades(oms, r.book, f);
    }
  }

  /** A batch that is not cut short asks to sell exactly what has a closing signal, if there is equity. */
  lemma BatchAsks(setup: Setup, r: Live, start: real, t: Tick, events: seq<Signal>, x: Symbol)
    requires setup.trade.Valid() && FairTerms(setup.terms) && RunOk(r, start, |LogOf(r)|) && t.crash.None?
    ensures var d := DeskAt(r, t, events);
            Asks(Passing(setup, r, t, events), x) <==>
              EquityOf(d) > 0.0 && x in NamesOf(ClosingSignals(setup.trade, d))
  {
    BookIsLongOnly(r, start, |LogOf(r)|);
    SalePasses(setup.trade, setup.sectors, r.gate, DeskAt(r, t, events), r.day, r.nextId, t.now, x);
    BatchIsReady(setup, r, start, t, events);
    AskedIsQueued(r.book, Passing(setup, r, t, events), x);
  }

  lemma AskedInTick(setup: Setup, s: Live, start: real, k: nat, t: Tick, x: Symbol)
    requires setup.trade.Valid() && FairTerms(setup.terms) && RunOk(s, start, k) && t.crash.None?
    ensures Asks(PassedIn(setup, s, t), x) <==>
              EquityAt(Opened(setup, s, t).book, Closes(t.bars)) > 0.0
                  && x in NamesOf(ClosingSignals(setup.trade, DeskOf(setup, s, t)))
  {
    PreparedIsCurrent(setup, s, start, k, t);
    PreparedShape(setup, s, start, k, t);
    BatchAsks(setup, Prepared(setup, s, t), start, t, EventsOf(setup, s, t), x);
  }

  lemma AskedIsQueued(b: Book, orders: seq<Order>, x: Symbol)
    requires forall o :: o in orders ==> Fits(b, o)
    ensures Asks(orders, x) <==> SaleQueued(orders, x, At(b, x).quantity)
  {
  }

  // ---- Exits ---------------------------------------------------------------------------------

  /** A level, or a stop exit that is still on the queue. */
  predicate HasExit(s: Live, x: Symbol) {
    x in s.stops || StopSignalled(s.queued, x)
  }

  ghost predicate AllHaveExits(s: Live) {
    forall x :: At(s.book, x).quantity != 0 ==> HasExit(s, x)
  }

  /** Held after the draining, with no level that stands. */
  ghost predicate Exposed(setup: Setup, s: Live, t: Tick, x: Symbol) {
    At(Opened(setup, s, t).book, x).quantity != 0 && !LevelStands(setup, s, t, x)
  }

  /** Whatever is exposed is sold in this tick, or its exit stays on the queue because the strategy raises. */
  ghost predicate TickHolds(setup: Setup, s: Live, t: Tick) {
    t.bars != map[] && (exists x :: Exposed(setup, s, t, x)) ==> t.fails || CanSell(setup, s, t)
  }

  /** The stops of the input are those that fire, and a strategy raises no stop exits of its own but to close. */
  ghost predicate RealStops(setup: Setup, s: Live, t: Tick) {
    (t.bars != map[] ==> IsFired(t.fired, Opened(setup, s, t).stops, t.bars)) && StopsFlat(t.signals)
  }

  /** An exposed symbol has a stop exit among the signals of its tick. */
  lemma ExposedIsSignalled(setup: Setup, s: Live, start: real, k: nat, t: Tick, x: Symbol)
    requires ExitOk(s, start, k) && AllHaveExits(s) && RealStops(setup, s, t) && t.bars != map[]
    requires Exposed(setup, s, t, x)
    ensures StopSignalled(EventsOf(setup, s, t), x) && StopsFlat(EventsOf(setup, s, t))
  {
    var u, events := Opened(setup, s, t), EventsOf(setup, s, t);
    OpenedAdvances(setup, s, start, k, t);
    PreparedShape(setup, s, start, k, t);
    StopSignalsAreFlat(t.fired, u.stops);
    if x in u.stops {
      StopSignalFor(t.fired, u.stops, x);
      var e :| e in StopSignals(t.fired, u.stops) && e.symbol == x && e.fromStop;
      assert e in events;
    } else {
      StillQueued(s, u, LogOf(s)[k..], x);
      var e :| e in s.queued && e.symbol == x && e.fromStop;
      assert e in events;
    }
  }

  lemma StillQueued(s: Live, u: Live, fills: seq<Fill>, x: Symbol)
    requires AllHaveExits(s) && Taken(s, u, fills) && At(u.book, x).quantity != 0 && x !in u.stops
    ensures StopSignalled(s.queued, x)
  {
    if FreshIn(fills, x) {
      assert SameFor(s, u, x) && HasExit(s, x);
    }
  }

  lemma ExposedIsClosing(setup: Setup, s: Live, start: real, k: nat, t: Tick, x: Symbol)
    requires ExitOk(s, start, k) && AllHaveExits(s) && RealStops(setup, s, t) && t.bars != map[]
    requires Exposed(setup, s, t, x)
    ensures x in NamesOf(ClosingSignals(setup.trade, DeskOf(setup, s, t)))
  {
    ExposedIsSignalled(setup, s, start, k, t, x);
    PreparedShape(setup, s, start, k, t);
    ExitIsChosen(setup.trade, DeskOf(setup, s, t), x);
  }

  lemma FailedTickHolds(setup: Setup, s: Live, start: real, k: nat, t: Tick)
    requires setup.trade.Valid() && FairTerms(setup.terms) && ExitOk(s, start, k) && AllHaveExits(s)
    requires RealStops(setup, s, t) && t.bars != map[] && t.fails
    ensures AllHaveExits(Ticked(setup, s, t))
  {
    PreparedShape(setup, s, start, k, t);
    forall x | At(Ticked(setup, s, t).book, x).quantity != 0 ensures HasExit(Ticked(setup, s, t), x) {
      if !LevelStands(setup, s, t, x) {
        ExposedIsSignalled(setup, s, start, k, t, x);
      }
    }
  }

  lemma NothingQueued(setup: Setup, s: Live, start: real, k: nat, t: Tick)
    requires setup.trade.Valid() && FairTerms(setup.terms) && RunOk(s, start, k) && t.bars != map[] && !t.fails
    ensures Ticked(setup, s, t).queued == []
  {
    var fills := BatchLogs(setup, s, start, k, t);
    if t.crash.None? {
      BatchDoneKeeps(setup, s, start, k, t);
      FinishQueuesNothing(setup, BatchDone(setup, s, t), t);
    }
  }

  lemma FinishQueuesNothing(setup: Setup, d: Live, t: Tick)
    requires d.venue.Some? && Consistent(d.oms)
    ensures Finished(setup, d, t).queued == d.queued
  {
    DrainKeepsRest(setup, d, LogOf(d), t.now);
  }

  lemma TradingTickHolds(setup: Setup, s: Live, start: real, k: nat, t: Tick)
    requires setup.trade.Valid() && FairTerms(setup.terms) && ExitOk(s, start, k) && AllHaveExits(s)
    requires RealStops(setup, s, t) && t.bars != map[] && !t.fails
    ensures AllHaveExits(Ticked(setup, s, t)) <==> TickHolds(setup, s, t)
  {
    var e := Ticked(setup, s, t);
    NothingQueued(setup, s, start, k, t);
    forall x | At(e.book, x).quantity != 0
      ensures HasExit(e, x) <==> !Exposed(setup, s, t, x)
    {
      LevelAtEndOfTick(setup, s, start, k, t, x);
    }
    forall x | Exposed(setup, s, t, x) ensures At(e.book, x).quantity == 0 <==> CanSell(setup, s, t) {
      ExposedIsClosing(setup, s, start, k, t, x);
      SoldInTick(setup, s, start, k, t, x);
    }
  }

  // ---- Runs ----------------------------------------------------------------------------------

  lemma IdleTickIsOk(setup: Setup, s: Live, start: real, k: nat, t: Tick)
    requires setup.trade.Valid() && ExitOk(s, start, k) && t.bars == map[]
    ensures ExitOk(Ticked(setup, s, t), start, k)
  {
    IdleTickKeeps(setup, s, start, k, t);
    ConnectedKeeps(s, start, k);
  }

  lemma IdleTickHolds(setup: Setup, s: Live, t: Tick)
    requires setup.trade.Valid() && t.bars == map[]
    ensures AllHaveExits(Ticked(setup, s, t)) <==> AllHaveExits(s)
  {
    assert forall x :: HasExit(Ticked(setup, s, t), x) <==> HasExit(s, x);
  }

  lemma NothingLeftSuits(s: Live)
    ensures LogOf(s)[|LogOf(s)|..] == [] && Suits(s.oms, s.book, [])
  {
  }

  lemma FailedTickIsOk(setup: Setup, s: Live, start: real, k: nat, t: Tick)
    requires setup.trade.Valid() && FairTerms(setup.terms) && ExitOk(s, start, k) && RealStops(setup, s, t)
    requires t.bars != map[] && t.fails
    ensures var e := Ticked(setup, s, t); ExitOk(e, start, |LogOf(e)|)
  {
    var e := Ticked(setup, s, t);
    FailedTickKeeps(setup, s, start, k, t);
    PreparedKeeps(setup, s, start, k, t);
    PreparedHoldsLevels(setup, s, start, k, t);
    NothingLeftSuits(e);
    StopSignalsAreFlat(t.fired, StopsBefore(setup, s, t));
  }

  lemma CompletedTickIsOk(setup: Setup, s: Live, start: real, k: nat, t: Tick)
    requires setup.trade.Valid() && FairTerms(setup.terms) && ExitOk(s, start, k) && t.Completes()
    ensures var e := Ticked(setup, s, t); ExitOk(e, start, |LogOf(e)|)
  {
    var e := Ticked(setup, s, t);
    var fills := BatchLogs(setup, s, start, k, t);
    CompletedTickKeeps(setup, s, start, k, t);
    TickEnds(setup, s, start, k, t, fills);
    NothingQueued(setup, s, start, k, t);
    NothingLeftSuits(e);
  }

  lemma CrashedTickIsOk(setup: Setup, s: Live, start: real, k: nat, t: Tick)
    requires setup.trade.Valid() && FairTerms(setup.terms) && ExitOk(s, start, k)
    requires t.bars != map[] && !t.fails && t.crash.Some?
    ensures |LogOf(s)| <= |LogOf(Ticked(setup, s, t))| && ExitOk(Ticked(setup, s, t), start, |LogOf(s)|)
  {
    var fills := BatchLogs(setup, s, start, k, t);
    CrashedTickKeeps(setup, s, start, k, t);
    PreparedKeeps(setup, s, start, k, t);
    PreparedHoldsLevels(setup, s, start, k, t);
    NothingQueued(setup, s, start, k, t);
    assert LogOf(Ticked(setup, s, t))[|LogOf(s)|..] == fills;
  }

  lemma TickIsOk(setup: Setup, s: Live, start: real, k: nat, t: Tick) returns (k': nat)
    requires setup.trade.Valid() && FairTerms(setup.terms) && ExitOk(s, start, k) && RealStops(setup, s, t)
    ensures ExitOk(Ticked(setup, s, t), start, k')
  {
    if t.bars == map[] {
      IdleTickIsOk(setup, s, start, k, t);
      k' := k;
    } else if t.fails {
      FailedTickIsOk(setup, s, start, k, t);
      k' := |LogOf(Ticked(setup, s, t))|;
    } else if t.crash.Some? {
      CrashedTickIsOk(setup, s, start, k, t);
      k' := |LogOf(s)|;
    } else {
      CompletedTickIsOk(setup, s, start, k, t);
      k' := |LogOf(Ticked(setup, s, t))|;
    }
  }

  lemma TickKeepsExits(setup: Setup, s: Live, start: real, k: nat, t: Tick)
    requires setup.trade.Valid() && FairTerms(setup.terms) && ExitOk(s, start, k) && AllHaveExits(s)
    requires RealStops(setup, s, t)
    ensures AllHaveExits(Ticked(setup, s, t)) <==> TickHolds(setup, s, t)
  {
    if t.bars == map[] {
      IdleTickHolds(setup, s, t);
    } else if t.fails {
      FailedTickHolds(setup, s, start, k, t);
    } else {
      TradingTickHolds(setup, s, start, k, t);
    }
  }

  ghost predicate AllReal(setup: Setup, s: Live, ticks: seq<Tick>)
    requires setup.trade.Valid()
  {
    ticks == [] ||
    var init := ticks[..|ticks| - 1];
    AllReal(setup, s, init) && RealStops(setup, Run(setup, s, init), ticks[|ticks| - 1])
  }

  /** Exits are in place at the end of every tick. */
  ghost predicate ExitsThroughout(setup: Setup, s: Live, ticks: seq<Tick>)
    requires setup.trade.Valid()
  {
    AllHaveExits(Run(setup, s, ticks)) && (ticks == [] || ExitsThroughout(setup, s, ticks[..|ticks| - 1]))
  }

  ghost predicate AllHold(setup: Setup, s: Live, ticks: seq<Tick>)
    requires setup.trade.Valid()
  {
    ticks == [] ||
    var init := ticks[..|ticks| - 1];
    AllHold(setup, s, init) && TickHolds(setup, Run(setup, s, init), ticks[|ticks| - 1])
  }

  /** A fresh session without levels and signals. */
  ghost predicate CleanSession(setup: Setup, s: Live) {
    FreshSession(setup, s) && s.stops == map[] && s.queued == []
  }

  lemma {:induction false} RunIsOk(setup: Setup, s: Live, ticks: seq<Tick>) returns (k: nat)
    requires setup.trade.Valid() && FairTerms(setup.terms) && CleanSession(setup, s) && AllReal(setup, s, ticks)
    ensures ExitOk(Run(setup, s, ticks), setup.terms.initialCapital, k)
  {
    if ticks == [] {
      k := RunKeeps(setup, s, []);
      NothingLeftSuits(s);
    } else {
      var init := ticks[..|ticks| - 1];
      var before := RunIsOk(setup, s, init);
      k := TickIsOk(setup, Run(setup, s, init), setup.terms.initialCapital, before, ticks[|ticks| - 1]);
    }
  }

  /** Over every paper run every level belongs to a long position, and each long position has a level or a queued stop
      exit at the end of each tick exactly when on each tick whatever is left without a level that stands is sold, in a
      tick that completes with equity, or keeps its exit on the queue because the strategy raises. */
  lemma {:induction false} LiveExitsAreExact(setup: Setup, s: Live, ticks: seq<Tick>)
    requires setup.trade.Valid() && FairTerms(setup.terms) && CleanSession(setup, s) && AllReal(setup, s, ticks)
    ensures ExitsThroughout(setup, s, ticks) <==> AllHold(setup, s, ticks)
    ensures LevelsHeld(Run(setup, s, ticks))
  {
    var _ := RunIsOk(setup, s, ticks);
    if ticks != [] {
      var init := ticks[..|ticks| - 1];
      LiveExitsAreExact(setup, s, init);
      var k := RunIsOk(setup, s, init);
      if AllHaveExits(Run(setup, s, init)) {
        TickKeepsExits(setup, Run(setup, s, init), setup.terms.initialCapital, k, ticks[|ticks| - 1]);
      }
    } else {
      assert forall x :: At(s.book, x).quantity == 0;
    }
  }

  /** After every paper run, a symbol held at the end of a tick has a level exactly when it was bought in that tick, or
      its level was there after the draining and did not fire. */
  lemma LevelAfterRun(setup: Setup, s: Live, ticks: seq<Tick>, t: Tick, x: Symbol)
    requires setup.trade.Valid() && FairTerms(setup.terms) && CleanSession(setup, s) && AllReal(setup, s, ticks)
    requires t.bars != map[] && At(Run(setup, s, ticks + [t]).book, x).quantity != 0
    ensures var before := Run(setup, s, ticks);
            x in Run(setup, s, ticks + [t]).stops <==>
              At(Opened(setup, before, t).book, x).quantity == 0 || LevelStands(setup, before, t, x)
  {
    assert (ticks + [t])[..|ticks|] == ticks;
    var k := RunIsOk(setup, s, ticks);
    LevelAtEndOfTick(setup, Run(setup, s, ticks), setup.terms.initialCapital, k, t, x);
  }

  /** After every paper run, what is held after the draining of a tick is flat at its end exactly when the tick
      completes, is no dry run, has equity, and the symbol's stop has just fired with a signal or the signal that counts
      for it is FLAT or SHORT. */
  lemma SoldAfterRun(setup: Setup, s: Live, ticks: seq<Tick>, t: Tick, x: Symbol)
    requires setup.trade.Valid() && FairTerms(setup.terms) && CleanSession(setup, s) && AllReal(setup, s, ticks)
    requires t.bars != map[] && At(Opened(setup, Run(setup, s, ticks), t).book, x).quantity != 0
    ensures var before := Run(setup, s, ticks);
            At(Run(setup, s, ticks + [t]).book, x).quantity == 0 <==>
              CanSell(setup, before, t) && UpForSale(EventsOf(setup, before, t), x in t.fired, x)
  {
    assert (ticks + [t])[..|ticks|] == ticks;
    var k := RunIsOk(setup, s, ticks);
    SoldByItsSignal(setup, Run(setup, s, ticks), setup.terms.initialCapital, k, t, x);
  }

  lemma {:induction false} StopSymbols(fired: seq<Symbol>, levels: Levels)
    ensures forall e :: e in StopSignals(fired, levels) ==> e.symbol in fired
  {
    if fired != [] {
      StopSymbols(fired[..|fired| - 1], levels);
      assert fired == fired[..|fired| - 1] + [fired[|fired| - 1]];
    }
  }

  /** For a symbol without stop exits the last signal of the strategy in this tick counts, and one that an earlier tick
      left on the queue counts only where the strategy is silent. */
  lemma NewestSignalCounts(setup: Setup, s: Live, t: Tick, x: Symbol, i: int)
    requires x !in t.fired && NoStopExit(s.queued, x) && NoStopExit(t.signals, x)
    requires Decides(EventsOf(setup, s, t), x, i)
    ensures var events := EventsOf(setup, s, t);
            var k := i - (|events| - |t.signals|);
            if exists e :: e in t.signals && e.symbol == x then Decides(t.signals, x, k) && events[i] == t.signals[k]
            else Decides(s.queued, x, i) && events[i] == s.queued[i]
  {
    StopSymbols(t.fired, StopsBefore(setup, s, t));
    NewestCounts(s.queued, StopSignals(t.fired, StopsBefore(setup, s, t)), t.signals, x, i);
  }
}
