/** What the orders of a batch say: which signals get a slot, and how a purchase is sized and protected. */
module BatchPlans {
  import opened Models
  import opened Portfolio
  import opened RiskEngine
  import opened SignalBatch
  import opened BatchBounds
  import opened BatchExits
  import Allocator
  import Sizing = PositionSizing

  // ---- The order of the signals --------------------------------------------------------------

  /** The first symbol is signalled before the second one ever is. */
  ghost predicate Precedes(events: seq<Signal>, x: Symbol, y: Symbol) {
    exists i :: 0 <= i < |events| && events[i].symbol == x && forall j :: 0 <= j <= i ==> events[j].symbol != y
  }

  predicate Mentions(events: seq<Signal>, x: Symbol) {
    exists e :: e in events && e.symbol == x
  }

  /** The signals come in the order in which their symbols were first mentioned, and all of them were. */
  ghost predicate InOrder(events: seq<Signal>, chosen: seq<Signal>) {
    && (forall e :: e in chosen ==> Mentions(events, e.symbol))
    && forall a, b :: 0 <= a < b < |chosen| ==> Precedes(events, chosen[a].symbol, chosen[b].symbol)
  }

  /** A later signal for a known symbol takes the place of the earlier one, and one for a new symbol comes last. */
  lemma {:induction false} UpsertPlaces(chosen: seq<Signal>, e: Signal)
    requires OnePerSymbol(chosen)
    ensures var after := Upsert(chosen, e);
            if Mentions(chosen, e.symbol)
            then |after| == |chosen| && forall k :: 0 <= k < |chosen| ==> after[k].symbol == chosen[k].symbol
            else after == chosen + [e]
  {
    if chosen != [] {
      assert chosen == [chosen[0]] + chosen[1..];
      UpsertPlaces(chosen[1..], e);
    }
  }

  lemma PrecedesOn(events: seq<Signal>, e: Signal, x: Symbol, y: Symbol)
    requires Precedes(events, x, y)
    ensures Precedes(events + [e], x, y)
  {
    var i :| 0 <= i < |events| && events[i].symbol == x && forall j :: 0 <= j <= i ==> events[j].symbol != y;
    assert (events + [e])[i] == events[i];
  }

  lemma NewComesLast(events: seq<Signal>, e: Signal, x: Symbol)
    requires Mentions(events, x) && !Mentions(events, e.symbol)
    ensures Precedes(events + [e], x, e.symbol)
  {
    var f :| f in events && f.symbol == x;
    var i :| 0 <= i < |events| && events[i] == f;
    assert (events + [e])[i] == f;
    forall j | 0 <= j <= i ensures (events + [e])[j].symbol != e.symbol {
      assert events[j] in events;
    }
  }

  lemma UpsertInOrder(events: seq<Signal>, chosen: seq<Signal>, e: Signal)
    requires OnePerSymbol(chosen) && InOrder(events, chosen)
    requires Mentions(events, e.symbol) ==> Mentions(chosen, e.symbol)
    ensures InOrder(events + [e], Upsert(chosen, e))
  {
    var after, all := Upsert(chosen, e), events + [e];
    UpsertPlaces(chosen, e);
    UpsertMembers(chosen, e);
    assert forall f :: f in events ==> f in all;
    forall a, b | 0 <= a < b < |after| ensures Precedes(all, after[a].symbol, after[b].symbol) {
      if b < |chosen| {
        PrecedesOn(events, e, chosen[a].symbol, chosen[b].symbol);
      } else {
        NewComesLast(events, e, chosen[a].symbol);
      }
    }
    forall f | f in after ensures Mentions(all, f.symbol) {
      if f == e {
        assert e in all;
      }
    }
  }

  lemma {:induction false} LatestInOrder(events: seq<Signal>)
    ensures InOrder(events, Latest(events))
    ensures forall x :: Mentions(events, x) ==> Mentions(Latest(events), x)
  {
    if events != [] {
      var init, e := events[..|events| - 1], events[|events| - 1];
      assert events == init + [e];
      LatestInOrder(init);
      LatestMembers(init);
      UpsertMembers(Latest(init), e);
      UpsertInOrder(init, Latest(init), e);
      forall x | Mentions(events, x) ensures Mentions(Latest(events), x) {
        if x == e.symbol {
          assert e in Latest(events);
        } else {
          assert Mentions(init, x);
          var f :| f in Latest(init) && f.symbol == x;
          assert f in Latest(events);
        }
      }
    }
  }

  /** A stop exit takes the place of what its symbol had. */
  lemma {:induction false} StopsKeepPlaces(chosen: seq<Signal>, events: seq<Signal>)
    requires OnePerSymbol(chosen) && forall e :: e in events ==> Mentions(chosen, e.symbol)
    ensures var after := StopsApplied(chosen, events);
            |after| == |chosen| && forall k :: 0 <= k < |chosen| ==> after[k].symbol == chosen[k].symbol
  {
    if events != [] {
      var init, e := events[..|events| - 1], events[|events| - 1];
      assert events == init + [e];
      StopsKeepPlaces(chosen, init);
      StopsMembers(chosen, init);
      var before := StopsApplied(chosen, init);
      assert Mentions(before, e.symbol) by {
        var f :| f in chosen && f.symbol == e.symbol;
        var i :| 0 <= i < |chosen| && chosen[i] == f;
        assert before[i] in before;
      }
      UpsertPlaces(before, e);
    }
  }

  lemma ChosenInOrder(events: seq<Signal>)
    ensures InOrder(events, Chosen(events))
  {
    LatestInOrder(events);
    LatestMembers(events);
    forall e | e in events ensures Mentions(Latest(events), e.symbol) {
      assert Mentions(events, e.symbol);
    }
    StopsKeepPlaces(Latest(events), events);
    forall e | e in Chosen(events) ensures Mentions(events, e.symbol) {
      var i :| 0 <= i < |Chosen(events)| && Chosen(events)[i] == e;
      assert Latest(events)[i] in Latest(events);
    }
  }

  lemma {:induction false} ActingInOrder(events: seq<Signal>, b: Book, stopped: set<Symbol>, coverShorts: bool,
                                         chosen: seq<Signal>, act: Act)
    requires InOrder(events, chosen)
    ensures InOrder(events, Acting(b, stopped, coverShorts, chosen, act))
    ensures forall e :: e in Acting(b, stopped, coverShorts, chosen, act) ==> e in chosen
  {
    if chosen != [] {
      var init, e := chosen[..|chosen| - 1], chosen[|chosen| - 1];
      assert chosen == init + [e];
      ActingInOrder(events, b, stopped, coverShorts, init, act);
      var before := Acting(b, stopped, coverShorts, init, act);
      forall f | f in before ensures Precedes(events, f.symbol, e.symbol) {
        var k :| 0 <= k < |init| && init[k] == f;
        assert chosen[k] == f && chosen[|init|] == e;
      }
    }
  }

  /** The opening signals come in the order in which their symbols were first signalled. */
  lemma OpeningsInOrder(cfg: Config, d: Desk)
    ensures InOrder(d.events, OpeningSignals(cfg, d))
  {
    ChosenInOrder(d.events);
    ActingInOrder(d.events, d.book, d.stopped, cfg.coverShorts, Chosen(d.events), Open);
  }

  // ---- What a purchase says ------------------------------------------------------------------

  /** The order answers the signal: in its name, at this time, for the sized quantity, with the planned stop and
      target. */
  predicate AnswersSignal(o: Order, e: Signal, size: Sizing.PositionSize, now: Time) {
    && o.symbol == e.symbol && o.strategyId == e.strategyId && o.signalId == Some(e.signalId) && o.timestamp == now
    && o.side.Buy? && o.kind.Market? && o.quantity == size.quantity
    && o.tags == Tags(Some(size.stop), size.takeProfit, false)
  }

  /** The size that the sizer gives a symbol for its slice at the current close. */
  predicate SizedAtClose(cfg: Config, equity: real, m: Tape, targets: map<Symbol, real>, x: Symbol,
                         size: Sizing.PositionSize)
    requires cfg.Valid()
  {
    && x in m.bars && x in targets && size.quantity >= 1
    && size == Sizing.Compute(cfg.sizer, m.bars[x].close, equity, if x in m.atrs then m.atrs[x] else 0.0,
                              Some(targets[x]), Long)
  }

  lemma {:induction false} OpeningOrigin(cfg: Config, b: Book, equity: real, m: Tape, targets: map<Symbol, real>,
                                         signals: seq<Signal>, firstId: OrderId, now: Time, o: Order)
    returns (e: Signal, size: Sizing.PositionSize)
    requires cfg.Valid() && o in OpenOrders(cfg, b, equity, m, targets, signals, firstId, now)
    requires forall e :: e in signals ==> At(b, e.symbol).quantity == 0
    ensures e in signals && AnswersSignal(o, e, size, now) && SizedAtClose(cfg, equity, m, targets, e.symbol, size)
  {
    var init, last := signals[..|signals| - 1], signals[|signals| - 1];
    assert signals == init + [last];
    if o in OpenOrders(cfg, b, equity, m, targets, init, firstId, now) {
      e, size := OpeningOrigin(cfg, b, equity, m, targets, init, firstId, now, o);
    } else {
      e, size := last, SizeFor(cfg, equity, m, targets, last.symbol).value;
    }
  }

  /** The signal counts for its symbol, says LONG, and is among the first openings, as many as there are slots. */
  ghost predicate HasSlot(cfg: Config, d: Desk, e: Signal) {
    var openings := OpeningSignals(cfg, d);
    && (exists i :: Decides(d.events, e.symbol, i) && d.events[i] == e) && e.direction.Long?
    && exists k :: 0 <= k < |openings| && openings[k] == e && k < cfg.day.maxOpen - |OpenSymbols(d.book)|
  }

  lemma OpeningHasSlot(cfg: Config, d: Desk, e: Signal)
    requires LongOnly(d.book) && e in Selected(cfg, d.book, OpeningSignals(cfg, d))
    ensures HasSlot(cfg, d, e)
  {
    var openings := OpeningSignals(cfg, d);
    var k :| 0 <= k < |Selected(cfg, d.book, openings)| && Selected(cfg, d.book, openings)[k] == e;
    assert openings[k] == e && e in openings;
    ChosenSignal(d.events);
    ActingMembers(d.book, d.stopped, cfg.coverShorts, Chosen(d.events), Open);
    var i := DecidedIsDeciding(d.events, e.symbol);
  }

  function MaxI(a: int, b: int): int {
    if a < b then b else a
  }

  /** Every purchase of a batch answers the LONG signal that counts for its symbol, which is among the first openings,
      as many as there are free slots. It is for the quantity the sizer gives at the current close to the symbol's slice
      of the book's cash over those openings, and carries the sizer's stop and target. */
  lemma PurchaseIsPlanned(cfg: Config, d: Desk, day: Day, firstId: OrderId, now: Time, o: Order)
    returns (e: Signal, size: Sizing.PositionSize)
    requires cfg.Valid() && LongOnly(d.book) && o in Candidates(cfg, d, day, firstId, now).1 && o.side.Buy?
    ensures HasSlot(cfg, d, e) && AnswersSignal(o, e, size, now)
    ensures var openings := OpeningSignals(cfg, d);
            var n := Min(|openings|, MaxI(0, cfg.day.maxOpen - |OpenSymbols(d.book)|));
            var equity := EquityAt(d.book, Closes(d.tape.bars));
            SizedAtClose(cfg, equity, d.tape,
                         Allocator.Targets(cfg.alloc, SymbolsOf(openings[..n]), equity, d.book.cash, d.tape.sigmas),
                         e.symbol, size)
  {
    var opens := firstId + |ClosingOrders(cfg, d, firstId, now)|;
    var selected := Selected(cfg, d.book, OpeningSignals(cfg, d));
    CandidateOrigin(cfg, d, day, firstId, now, o);
    ClosesQualify(cfg, d, firstId, now);
    FlatWhenOpening(cfg, d);
    assert forall f :: f in selected ==> f in OpeningSignals(cfg, d);
    e, size := OpeningOrigin(cfg, d.book, EquityOf(d), d.tape, TargetsOf(cfg, d), selected, opens, now, o);
    OpeningHasSlot(cfg, d, e);
  }

  // ---- What a sale says ----------------------------------------------------------------------

  lemma {:induction false} ClosingOrigin(b: Book, signals: seq<Signal>, firstId: OrderId, now: Time, o: Order)
    returns (e: Signal)
    requires forall e :: e in signals ==> At(b, e.symbol).quantity != 0
    requires o in CloseOrders(b, signals, firstId, now)
    ensures e in signals && ClosesFor(o, e, At(b, o.symbol).quantity, now)
  {
    var init, last := signals[..|signals| - 1], signals[|signals| - 1];
    assert signals == init + [last];
    if o in CloseOrders(b, init, firstId, now) {
      e := ClosingOrigin(b, init, firstId, now, o);
    } else {
      e := last;
    }
  }

  /** The order gives up what is held, in the name of the signal and at this time, and is marked as closing. */
  predicate ClosesFor(o: Order, e: Signal, held: int, now: Time) {
    && o.symbol == e.symbol && o.strategyId == e.strategyId && o.signalId == Some(e.signalId) && o.timestamp == now
    && o.kind.Market? && o.tags == Tags(None, None, true)
    && (if held > 0 then o.side.Sell? && o.quantity == held else o.side.Buy? && o.quantity == -held)
  }

  /** Every sale of a batch answers the signal that counts for its symbol, for all that is held. */
  lemma SaleAnswersSignal(cfg: Config, d: Desk, day: Day, firstId: OrderId, now: Time, o: Order) returns (i: int)
    requires cfg.Valid() && LongOnly(d.book) && o in Candidates(cfg, d, day, firstId, now).1 && o.side.Sell?
    ensures Decides(d.events, o.symbol, i) && ClosesFor(o, d.events[i], At(d.book, o.symbol).quantity, now)
  {
    CandidateOrigin(cfg, d, day, firstId, now, o);
    if o !in ClosingOrders(cfg, d, firstId, now) {
      OpeningIsNamed(cfg, d, firstId + |ClosingOrders(cfg, d, firstId, now)|, now, o);
    }
    ClosingAreHeld(cfg, d);
    var e := ClosingOrigin(d.book, ClosingSignals(cfg, d), firstId, now, o);
    ChosenSignal(d.events);
    ActingMembers(d.book, d.stopped, cfg.coverShorts, Chosen(d.events), Close);
    i := DecidedIsDeciding(d.events, e.symbol);
  }

  /** A batch sells before it buys. */
  lemma SalesComeFirst(cfg: Config, d: Desk, day: Day, firstId: OrderId, now: Time)
    requires cfg.Valid() && LongOnly(d.book)
    ensures var os := Candidates(cfg, d, day, firstId, now).1;
            forall i, j :: 0 <= i < j < |os| && os[j].side.Sell? ==> os[i].side.Sell?
  {
    var closes := ClosingOrders(cfg, d, firstId, now);
    var opens := OpeningOrders(cfg, d, firstId + |closes|, now);
    CandidatesUnfold(cfg, d, day, firstId, now);
    ClosesQualify(cfg, d, firstId, now);
    forall o | o in opens ensures o.side.Buy? {
      OpeningIsNamed(cfg, d, firstId + |closes|, now, o);
    }
    assert forall i :: 0 <= i < |closes| ==> closes[i] in closes;
    assert forall i :: 0 <= i < |opens| ==> opens[i] in opens;
  }

  // ---- What the gate does to one order -------------------------------------------------------

  /** An order that the gate approves passes as it is, one that it reduces passes with the quantity it leaves, and one
      that it refuses does not pass. */
  lemma GateIsObeyed(cfg: Config, sectors: map<Symbol, string>, g: Gate, b: Book, orders: seq<Order>, o: Order,
                     prices: Prices)
    ensures var (before, passed) := Routed(cfg, sectors, g, b, orders, prices);
            var decision := Checked(cfg.limits, sectors, before, b, o, prices).1;
            var now := Routed(cfg, sectors, g, b, orders + [o], prices).1;
            if decision.Refused? then now == passed
            else |now| == |passed| + 1 && now[..|passed|] == passed && now[|passed|].quantity == decision.quantity
                 && now[|passed|] == o.(quantity := now[|passed|].quantity)
  {
    assert (orders + [o])[..|orders|] == orders;
    var (before, passed) := Routed(cfg, sectors, g, b, orders, prices);
    ReducedIsPositive(cfg.limits, sectors, before, b, o, prices);
    ApprovedKeepsQuantity(cfg.limits, sectors, before, b, o, prices);
    assert passed + [] == passed;
  }

  lemma ApprovedKeepsQuantity(limits: Limits, sectors: map<Symbol, string>, g: Gate, b: Book, o: Order, prices: Prices)
    ensures var d := Checked(limits, sectors, g, b, o, prices).1; d.Approved? ==> d.quantity == o.quantity
  {
  }

  /** Cutting a batch short lets exactly the first orders through that would have passed anyway. */
  lemma {:induction false} CutPassesFirst(cfg: Config, sectors: map<Symbol, string>, g: Gate, b: Book,
                                          orders: seq<Order>, prices: Prices, firstId: OrderId, n: nat)
    requires Numbered(orders, firstId) && n <= |orders|
    ensures var all, cut := Routed(cfg, sectors, g, b, orders, prices).1,
                Routed(cfg, sectors, g, b, orders[..n], prices).1;
            && cut <= all && (forall o :: o in all ==> firstId <= o.id < firstId + |orders|)
            && forall o :: o in all ==> (o in cut <==> o.id < firstId + n)
  {
    if orders == [] {
      assert orders[..n] == [];
    } else if n == |orders| {
      assert orders[..n] == orders;
      IdsAreNumbered(cfg, sectors, g, b, orders, prices, firstId);
    } else {
      var init := orders[..|orders| - 1];
      assert init[..n] == orders[..n];
      CutPassesFirst(cfg, sectors, g, b, init, prices, firstId, n);
      LastAdmitted(cfg, sectors, g, b, orders, prices);
    }
  }

  lemma {:induction false} IdsAreNumbered(cfg: Config, sectors: map<Symbol, string>, g: Gate, b: Book,
                                          orders: seq<Order>, prices: Prices, firstId: OrderId)
    requires Numbered(orders, firstId)
    ensures forall o :: o in Routed(cfg, sectors, g, b, orders, prices).1 ==> firstId <= o.id < firstId + |orders|
  {
    if orders != [] {
      IdsAreNumbered(cfg, sectors, g, b, orders[..|orders| - 1], prices, firstId);
      LastAdmitted(cfg, sectors, g, b, orders, prices);
    }
  }

  lemma LastAdmitted(cfg: Config, sectors: map<Symbol, string>, g: Gate, b: Book, orders: seq<Order>, prices: Prices)
    requires orders != []
    ensures var init, last := orders[..|orders| - 1], orders[|orders| - 1];
            var before, all := Routed(cfg, sectors, g, b, init, prices).1, Routed(cfg, sectors, g, b, orders, prices).1;
            before <= all && forall o :: o in all ==> o in before || o.id == last.id
  {
    var init, last := orders[..|orders| - 1], orders[|orders| - 1];
    GateIsObeyed(cfg, sectors, g, b, init, last, prices);
    assert init + [last] == orders;
  }
}
