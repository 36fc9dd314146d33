/** Which positions a signal batch sells. */
module BatchExits {
  import opened Models
  import opened Portfolio
  import opened StopLoss
  import opened StopExits
  import opened RiskEngine
  import opened SignalBatch
  import opened BatchBounds

  predicate SaleQueued(orders: seq<Order>, x: Symbol, quantity: int) {
    exists o :: o in orders && o.side.Sell? && o.symbol == x && o.quantity == quantity
  }

  // ---- Closing signals -----------------------------------------------------------------------

  lemma {:induction false} LastForIsEvent(events: seq<Signal>, x: Symbol, stopOnly: bool)
    ensures LastFor(events, x, stopOnly).Some? ==>
              && LastFor(events, x, stopOnly).value in events && LastFor(events, x, stopOnly).value.symbol == x
              && (stopOnly ==> LastFor(events, x, stopOnly).value.fromStop)
  {
    if events != [] {
      LastForIsEvent(events[..|events| - 1], x, stopOnly);
    }
  }

  lemma {:induction false} LastForFinds(events: seq<Signal>, e: Signal)
    requires e in events && e.fromStop
    ensures LastFor(events, e.symbol, true).Some?
  {
    var init, last := events[..|events| - 1], events[|events| - 1];
    assert events == init + [last];
    if last.symbol != e.symbol || !last.fromStop {
      LastForFinds(init, e);
    }
  }

  /** The signal at `i` counts for the symbol: its last stop exit, or its last signal where there is no stop exit. */
  predicate Decides(events: seq<Signal>, x: Symbol, i: int) {
    && 0 <= i < |events| && events[i].symbol == x
    && forall j :: 0 <= j < |events| && events[j].symbol == x ==>
         if events[i].fromStop then j <= i || !events[j].fromStop else j <= i && !events[j].fromStop
  }

  /** The signal at `i` is the last for the symbol, or its last stop exit. */
  predicate IsLast(events: seq<Signal>, x: Symbol, stopOnly: bool, i: int) {
    && 0 <= i < |events| && events[i].symbol == x && (stopOnly ==> events[i].fromStop)
    && NoneAfter(events, x, stopOnly, i)
  }

  predicate NoneAfter(events: seq<Signal>, x: Symbol, stopOnly: bool, i: int) {
    forall j :: 0 <= j < |events| && i < j && events[j].symbol == x ==> stopOnly && !events[j].fromStop
  }

  /** The place of the last signal, -1 for none. */
  lemma {:induction false} LastForIsLast(events: seq<Signal>, x: Symbol, stopOnly: bool) returns (i: int)
    ensures if LastFor(events, x, stopOnly).Some?
            then IsLast(events, x, stopOnly, i) && LastFor(events, x, stopOnly).value == events[i]
            else i == -1 && NoneAfter(events, x, stopOnly, i)
  {
    i := -1;
    if events != [] {
      var init, e := events[..|events| - 1], events[|events| - 1];
      assert events == init + [e];
      if e.symbol == x && (e.fromStop || !stopOnly) {
        i := |init|;
      } else {
        i := LastForIsLast(init, x, stopOnly);
      }
    }
  }

  function DecidingSignal(events: seq<Signal>, x: Symbol): Option<Signal> {
    if LastFor(events, x, true).Some? then LastFor(events, x, true) else LastFor(events, x, false)
  }

  lemma DecidingIsDecided(events: seq<Signal>, x: Symbol, i: int)
    requires Decides(events, x, i)
    ensures DecidingSignal(events, x) == Some(events[i])
  {
    var stop := LastForIsLast(events, x, true);
    var last := LastForIsLast(events, x, false);
  }

  lemma DecidedIsDeciding(events: seq<Signal>, x: Symbol) returns (i: int)
    requires DecidingSignal(events, x).Some?
    ensures Decides(events, x, i) && DecidingSignal(events, x) == Some(events[i])
  {
    i := LastForIsLast(events, x, true);
    if i == -1 {
      i := LastForIsLast(events, x, false);
    }
  }

  predicate NoStopExit(events: seq<Signal>, x: Symbol) {
    forall e :: e in events && e.symbol == x ==> !e.fromStop
  }

  /** With no stop exits for the symbol, and nothing for it in the middle, the last signal of the last part counts, and
      one of the first part only where that part is silent. */
  lemma NewestCounts(a: seq<Signal>, b: seq<Signal>, c: seq<Signal>, x: Symbol, i: int)
    requires NoStopExit(a, x) && NoStopExit(c, x) && forall e :: e in b ==> e.symbol != x
    requires Decides(a + b + c, x, i)
    ensures var k := i - |a| - |b|;
            if exists e :: e in c && e.symbol == x then Decides(c, x, k) && (a + b + c)[i] == c[k]
            else Decides(a, x, i) && (a + b + c)[i] == a[i]
  {
    var all, n := a + b + c, |a| + |b|;
    assert forall j :: 0 <= j < |a| ==> all[j] == a[j];
    assert forall j :: |a| <= j < n ==> all[j] == b[j - |a|] && all[j] in b;
    assert forall j :: 0 <= j < |c| ==> c[j] == all[n + j];
  }

  /** A position is closed by a stop that fired in this instant, by a FLAT or SHORT signal, and, for a short position
      that the engine covers, by a LONG one. */
  predicate AsksToClose(quantity: int, stopped: bool, direction: Direction, coverShorts: bool) {
    if quantity > 0 then stopped || direction.Flat? || direction.Short?
    else quantity < 0 && (stopped || direction.Flat? || (direction.Long? && coverShorts))
  }

  /** A symbol is closed in a batch exactly when it is held and the signal that counts for it asks for that: for a long
      position any signal but LONG, and any at all if its stop has just fired. */
  lemma ClosingIsExact(cfg: Config, d: Desk, x: Symbol)
    ensures x in NamesOf(ClosingSignals(cfg, d)) <==>
              exists i :: Decides(d.events, x, i)
                          && AsksToClose(At(d.book, x).quantity, x in d.stopped, d.events[i].direction, cfg.coverShorts)
  {
    ChosenSignal(d.events);
    ActingMembers(d.book, d.stopped, cfg.coverShorts, Chosen(d.events), Close);
    if x in NamesOf(ClosingSignals(cfg, d)) {
      var e :| e in ClosingSignals(cfg, d) && e.symbol == x;
      var i := DecidedIsDeciding(d.events, x);
    }
    if i :| Decides(d.events, x, i)
            && AsksToClose(At(d.book, x).quantity, x in d.stopped, d.events[i].direction, cfg.coverShorts) {
      DecidingIsDecided(d.events, x, i);
      assert d.events[i] in Chosen(d.events);
      assert d.events[i] in ClosingSignals(cfg, d);
    }
  }

  /** A symbol that is held long is up for sale: its stop has just fired with a signal, or the signal that counts for it
      is FLAT or SHORT. */
  ghost predicate UpForSale(events: seq<Signal>, stopped: bool, x: Symbol) {
    exists i :: Decides(events, x, i) && (stopped || !events[i].direction.Long?)
  }

  lemma HeldLongCloses(cfg: Config, d: Desk, x: Symbol)
    requires At(d.book, x).quantity > 0
    ensures x in NamesOf(ClosingSignals(cfg, d)) <==> UpForSale(d.events, x in d.stopped, x)
  {
    ClosingIsExact(cfg, d, x);
  }

  /** With no shorts in the book, a symbol is opened exactly when nothing of it is held, its stop has not just fired,
      and the signal that counts for it is LONG. */
  lemma OpeningIsExact(cfg: Config, d: Desk, x: Symbol)
    requires LongOnly(d.book)
    ensures x in NamesOf(OpeningSignals(cfg, d)) <==>
              && At(d.book, x).quantity == 0 && x !in d.stopped
              && exists i :: Decides(d.events, x, i) && d.events[i].direction.Long?
  {
    ChosenSignal(d.events);
    ActingMembers(d.book, d.stopped, cfg.coverShorts, Chosen(d.events), Open);
    if x in NamesOf(OpeningSignals(cfg, d)) {
      var e :| e in OpeningSignals(cfg, d) && e.symbol == x;
      var i := DecidedIsDeciding(d.events, x);
    }
    if i :| Decides(d.events, x, i) && d.events[i].direction.Long? && At(d.book, x).quantity == 0 && x !in d.stopped {
      DecidingIsDecided(d.events, x, i);
      assert d.events[i] in Chosen(d.events);
      assert d.events[i] in OpeningSignals(cfg, d);
    }
  }

  lemma {:induction false} StopSignalFor(fired: seq<Symbol>, levels: Levels, x: Symbol)
    requires x in fired
    ensures exists e :: e in StopSignals(fired, levels) && e.symbol == x && e.fromStop
  {
    var init, last := fired[..|fired| - 1], fired[|fired| - 1];
    assert fired == init + [last];
    if x in init {
      StopSignalFor(init, levels, x);
      var e :| e in StopSignals(init, levels) && e.symbol == x && e.fromStop;
      assert e in StopSignals(fired, levels);
    } else {
      assert StopSignals(fired, levels)[|StopSignals(init, levels)|].symbol == x;
    }
  }

  lemma {:induction false} StopSignalsAreFlat(fired: seq<Symbol>, levels: Levels)
    ensures forall e :: e in StopSignals(fired, levels) ==> e.direction.Flat? && e.fromStop
  {
    if fired != [] {
      StopSignalsAreFlat(fired[..|fired| - 1], levels);
    }
  }

  /** A stop exit is signalled for the symbol. */
  predicate StopSignalled(events: seq<Signal>, x: Symbol) {
    exists e :: e in events && e.symbol == x && e.fromStop
  }

  /** A stop exit of something held is among the closing signals, whatever else was signalled: if the stop has just
      fired, or if no stop exit says anything but to close. */
  lemma ExitIsChosen(cfg: Config, d: Desk, x: Symbol)
    requires StopSignalled(d.events, x) && At(d.book, x).quantity != 0
    requires x in d.stopped || forall e :: e in d.events && e.fromStop ==> e.direction.Flat?
    ensures x in NamesOf(ClosingSignals(cfg, d))
  {
    var stop :| stop in d.events && stop.symbol == x && stop.fromStop;
    LastForFinds(d.events, stop);
    LastForIsEvent(d.events, x, true);
    var e := LastFor(d.events, x, true).value;
    ChosenSignal(d.events);
    assert e in Chosen(d.events);
    ActingMembers(d.book, d.stopped, cfg.coverShorts, Chosen(d.events), Close);
    assert e in ClosingSignals(cfg, d);
  }

  // ---- Sales ---------------------------------------------------------------------------------

  lemma CloseIsNamed(cfg: Config, d: Desk, firstId: OrderId, now: Time, o: Order)
    requires LongOnly(d.book) && o in ClosingOrders(cfg, d, firstId, now)
    ensures o.side.Sell? && o.symbol in NamesOf(ClosingSignals(cfg, d))
  {
    ClosesQualify(cfg, d, firstId, now);
  }

  lemma OpeningIsNamed(cfg: Config, d: Desk, firstId: OrderId, now: Time, o: Order)
    requires cfg.Valid() && LongOnly(d.book) && o in OpeningOrders(cfg, d, firstId, now)
    ensures o.side.Buy? && o.symbol in NamesOf(OpeningSignals(cfg, d))
  {
    OpensAreGood(cfg, d, firstId, now);
    FlatWhenOpening(cfg, d);
  }

  /** A sale of a batch answers a closing signal, a purchase an opening one. */
  lemma CandidatesAreNamed(cfg: Config, d: Desk, day: Day, firstId: OrderId, now: Time, o: Order)
    requires cfg.Valid() && LongOnly(d.book) && o in Candidates(cfg, d, day, firstId, now).1
    ensures o.symbol in NamesOf(if o.side.Sell? then ClosingSignals(cfg, d) else OpeningSignals(cfg, d))
  {
    CandidateOrigin(cfg, d, day, firstId, now, o);
    if o in ClosingOrders(cfg, d, firstId, now) {
      CloseIsNamed(cfg, d, firstId, now, o);
    } else {
      OpeningIsNamed(cfg, d, firstId + |ClosingOrders(cfg, d, firstId, now)|, now, o);
    }
  }

  /** A closing signal becomes a sale of all that is held. */
  lemma SaleIsPlanned(cfg: Config, d: Desk, day: Day, firstId: OrderId, now: Time, x: Symbol) returns (o: Order)
    requires cfg.Valid() && LongOnly(d.book) && x in NamesOf(ClosingSignals(cfg, d))
    ensures o in Candidates(cfg, d, day, firstId, now).1 && o.side.Sell? && o.symbol == x && Fits(d.book, o)
  {
    var signals := ClosingSignals(cfg, d);
    var e :| e in signals && e.symbol == x;
    var i :| 0 <= i < |signals| && signals[i] == e;
    ClosingAreHeld(cfg, d);
    ClosesFit(d.book, signals, firstId, now);
    var closes := ClosingOrders(cfg, d, firstId, now);
    o := closes[i];
    assert Closing(d.book, closes[i], signals[i]);
    CandidatesUnfold(cfg, d, day, firstId, now);
    assert o in closes;
  }

  lemma {:induction false} NothingPassesBroke(cfg: Config, sectors: map<Symbol, string>, g: Gate, d: Desk,
                                              orders: seq<Order>)
    requires EquityOf(d) <= 0.0
    ensures PassedOf(cfg, sectors, g, d, orders) == []
  {
    if orders != [] {
      NothingPassesBroke(cfg, sectors, g, d, orders[..|orders| - 1]);
    }
  }

  /** A batch sells the whole of a position exactly when its symbol has a closing signal and equity is positive. */
  lemma SalePasses(cfg: Config, sectors: map<Symbol, string>, g: Gate, d: Desk, day: Day, firstId: OrderId, now: Time,
                   x: Symbol)
    requires cfg.Valid() && LongOnly(d.book)
    ensures SaleQueued(PassedOf(cfg, sectors, g, d, Candidates(cfg, d, day, firstId, now).1), x, At(d.book, x).quantity)
            <==> EquityOf(d) > 0.0 && x in NamesOf(ClosingSignals(cfg, d))
  {
    var candidates := Candidates(cfg, d, day, firstId, now).1;
    var passed := PassedOf(cfg, sectors, g, d, candidates);
    if EquityOf(d) <= 0.0 {
      NothingPassesBroke(cfg, sectors, g, d, candidates);
    } else if x in NamesOf(ClosingSignals(cfg, d)) {
      var o := SaleIsPlanned(cfg, d, day, firstId, now, x);
      ClosesPass(cfg, sectors, g, d, candidates, o);
    } else if SaleQueued(passed, x, At(d.book, x).quantity) {
      var o :| o in passed && o.side.Sell? && o.symbol == x && o.quantity == At(d.book, x).quantity;
      CandidatesAreGood(cfg, d, day, firstId, now);
      NumberedAreDistinct(candidates, firstId);
      RoutedIsGood(cfg, sectors, g, d, candidates);
      CandidatesAreNamed(cfg, d, day, firstId, now, o);
    }
  }

  /** A batch of a long-only book sells the whole of a position exactly when equity is positive, the symbol is held, and
      its stop has just fired with a signal, or the signal that counts for it is FLAT or SHORT. */
  lemma SaleIsExact(cfg: Config, sectors: map<Symbol, string>, g: Gate, d: Desk, day: Day, firstId: OrderId, now: Time,
                    x: Symbol)
    requires cfg.Valid() && LongOnly(d.book)
    ensures SaleQueued(PassedOf(cfg, sectors, g, d, Candidates(cfg, d, day, firstId, now).1), x, At(d.book, x).quantity)
            <==> && EquityOf(d) > 0.0 && At(d.book, x).quantity > 0
                 && UpForSale(d.events, x in d.stopped, x)
  {
    SalePasses(cfg, sectors, g, d, day, firstId, now, x);
    ClosingIsExact(cfg, d, x);
    if At(d.book, x).quantity > 0 {
      HeldLongCloses(cfg, d, x);
    }
  }

  /** A batch of a long-only book buys only what it holds nothing of, whose stop has not just fired, and whose signal
      that counts is LONG. */
  lemma PurchaseIsSignalled(cfg: Config, sectors: map<Symbol, string>, g: Gate, d: Desk, day: Day, firstId: OrderId,
                            now: Time, o: Order)
    requires cfg.Valid() && LongOnly(d.book)
    requires o in PassedOf(cfg, sectors, g, d, Candidates(cfg, d, day, firstId, now).1) && o.side.Buy?
    ensures At(d.book, o.symbol).quantity == 0 && o.symbol !in d.stopped
    ensures exists i :: Decides(d.events, o.symbol, i) && d.events[i].direction.Long?
  {
    var candidates := Candidates(cfg, d, day, firstId, now).1;
    CandidatesAreGood(cfg, d, day, firstId, now);
    NumberedAreDistinct(candidates, firstId);
    RoutedIsGood(cfg, sectors, g, d, candidates);
    CandidatesAreNamed(cfg, d, day, firstId, now, o);
    OpeningIsExact(cfg, d, o.symbol);
  }
}
