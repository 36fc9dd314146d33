/** The managed bar loop as a history of its execution engine: whatever the bars and signals are, orders are executed at
    most once, each fill reaches the portfolio once, and none comes before, or cheaper than, the bar it is filled on. */
module BacktestFills {
  import opened Models
  import opened SignalBatch
  import opened BatchBounds
  import opened BacktestModel
  import opened BacktestRuns
  import Exec = ExecutionEngine

  // ---- The history of a run ------------------------------------------------------------------

  function Submissions(orders: seq<Order>): seq<Exec.Event> {
    seq(|orders|, i requires 0 <= i < |orders| => Exec.Submission(orders[i]))
  }

  /** What a bar puts to the execution engine after the open. */
  ghost function Sent(setup: Setup, s: Backtest, b: BarIn): seq<Order>
    requires setup.Valid()
  {
    if s.index < setup.warmup then [] else QueuedOf(setup, s, b)
  }

  ghost function Before(setup: Setup, bars: seq<BarIn>): Backtest
    requires setup.Valid() && bars != []
  {
    Run(setup, NewBacktest(setup), bars[..|bars| - 1])
  }

  /** Every bar is processed first, and then gets the orders decided on it. */
  ghost function History(setup: Setup, bars: seq<BarIn>): seq<Exec.Event>
    requires setup.Valid()
  {
    if bars == [] then []
    else
      var b := bars[|bars| - 1];
      History(setup, bars[..|bars| - 1]) + [Exec.BarAt(b.bars, b.now)]
      + Submissions(Sent(setup, Executed(setup, Before(setup, bars), b), b))
  }

  // ---- One bar -------------------------------------------------------------------------------

  lemma {:induction false} FillsReachBook(setup: Setup, s: Backtest, fills: seq<Fill>)
    ensures var t := FillsBooked(setup, s, fills);
            t == s.(book := t.book, stops := t.stops) && t.book.fills == s.book.fills + fills
  {
    if fills == [] {
      assert s.book.fills + [] == s.book.fills;
    } else {
      FillsReachBook(setup, s, fills[..|fills| - 1]);
      assert fills == fills[..|fills| - 1] + [fills[|fills| - 1]];
    }
  }

  /** What the open does to the execution engine and the fill trail. */
  lemma OpenShape(setup: Setup, s: Backtest, b: BarIn)
    ensures var t, (e, r) := Executed(setup, s, b), Exec.Processed(setup.costs, s.exec, b.bars, b.now);
            && t.exec == e && t.book.fills == s.book.fills + r.fills
            && t.submitted == s.submitted && t.nextId == s.nextId && t.index == s.index
  {
    var (e, r) := Exec.Processed(setup.costs, s.exec, b.bars, b.now);
    FillsReachBook(setup, s.(exec := e), r.fills);
  }

  lemma QueuedIds(setup: Setup, s: Backtest, b: BarIn)
    requires setup.Valid()
    ensures Issued(QueuedOf(setup, s, b), s.nextId, s.nextId + |PlanOf(setup, Guarded(s, b), b, EventsOf(s, b)).1|,
                   b.now)
  {
    var events, g := EventsOf(s, b), Guarded(s, b);
    var candidates := PlanOf(setup, g, b, events).1;
    CandidateIds(setup.trade, DeskAt(g, b, events), g.day, g.nextId, b.now);
    RoutedIds(setup.trade, setup.sectors, s.gate, s.book, candidates, Closes(b.bars), s.nextId, b.now);
  }

  /** What the batch does to them, and the ids and the time of its orders. */
  lemma BatchSends(setup: Setup, s: Backtest, b: BarIn)
    requires setup.Valid()
    ensures var t, sent := Closed(Batched(setup, Guarded(s, b), b, EventsOf(s, b)), b), Sent(setup, s, b);
            && t.exec == s.exec.(pending := s.exec.pending + sent) && t.book == s.book
            && t.submitted == s.submitted + ById(sent) && s.nextId <= t.nextId
            && Issued(sent, s.nextId, t.nextId, b.now)
  {
    if s.index < setup.warmup {
      assert s.exec.pending + [] == s.exec.pending && s.submitted + map[] == s.submitted;
    } else {
      QueuedIds(setup, s, b);
    }
  }

  // ---- The execution engine of a run has this history ----------------------------------------

  lemma {:induction false} Queueing(c: Exec.Costs, events: seq<Exec.Event>, orders: seq<Order>)
    ensures var h, after := Exec.After(c, events), Exec.After(c, events + Submissions(orders));
            && after.submitted == h.submitted + orders && after.rejected == h.rejected
            && after.exec == h.exec.(pending := h.exec.pending + orders)
  {
    var all := events + Submissions(orders);
    if orders == [] {
      assert all == events;
      assert Exec.After(c, events).submitted + [] == Exec.After(c, events).submitted;
    } else {
      var init, o := orders[..|orders| - 1], orders[|orders| - 1];
      Queueing(c, events, init);
      assert all[..|all| - 1] == events + Submissions(init) && all[|all| - 1] == Exec.Submission(o);
      assert orders == init + [o];
    }
  }

  lemma {:induction false} QueueingIsTimed(events: seq<Exec.Event>, orders: seq<Order>, now: Time)
    requires Exec.Timed(events) && Exec.LastBar(events) == Some(now) && Stamped(orders, now)
    ensures var all := events + Submissions(orders); Exec.Timed(all) && Exec.LastBar(all) == Some(now)
  {
    var all := events + Submissions(orders);
    if orders == [] {
      assert all == events;
    } else {
      var init, o := orders[..|orders| - 1], orders[|orders| - 1];
      assert orders == init + [o];
      QueueingIsTimed(events, init, now);
      assert all[..|all| - 1] == events + Submissions(init) && all[|all| - 1] == Exec.Submission(o);
    }
  }

  /** The engine has lived through the history, and the backtest knows every order of it by its id. */
  ghost predicate Follows(s: Backtest, h: Exec.History) {
    && s.exec == h.exec && s.book.fills == s.exec.fills
    && Exec.UniqueIds(h.submitted)
    && (forall o :: o in h.submitted ==> o.id < s.nextId && Known(s, o))
  }

  lemma SentAreKnown(s: Backtest, t: Backtest, h: Exec.History, after: Exec.History, sent: seq<Order>, now: Time)
    requires Follows(s, h) && Issued(sent, s.nextId, t.nextId, now) && s.nextId <= t.nextId
    requires t.exec == s.exec.(pending := s.exec.pending + sent) && t.book.fills == s.book.fills
    requires t.submitted == s.submitted + ById(sent)
    requires after.submitted == h.submitted + sent && after.exec == h.exec.(pending := h.exec.pending + sent)
    ensures Follows(t, after)
  {
    ByIdFinds(sent);
    forall i, j | 0 <= i < j < |after.submitted| ensures after.submitted[i].id != after.submitted[j].id {
      if i < |h.submitted| <= j {
        assert h.submitted[i] in h.submitted && sent[j - |h.submitted|] in sent;
      }
    }
    forall o | o in after.submitted ensures o.id < t.nextId && Known(t, o) {
      if o in h.submitted {
        assert o.id !in ById(sent);
      }
    }
  }

  lemma BarFollows(setup: Setup, s: Backtest, events: seq<Exec.Event>, b: BarIn)
    requires setup.Valid() && Follows(s, Exec.After(setup.costs, events))
    ensures var all := events + [Exec.BarAt(b.bars, b.now)] + Submissions(Sent(setup, Executed(setup, s, b), b));
            Follows(BarDone(setup, s, b), Exec.After(setup.costs, all))
  {
    var e, started := Executed(setup, s, b), events + [Exec.BarAt(b.bars, b.now)];
    OpenShape(setup, s, b);
    assert started[..|started| - 1] == events;
    var h := Exec.After(setup.costs, started);
    assert Follows(e, h);
    BatchSends(setup, e, b);
    Queueing(setup.costs, started, Sent(setup, e, b));
    SentAreKnown(e, BarDone(setup, s, b), h, Exec.After(setup.costs, started + Submissions(Sent(setup, e, b))),
                 Sent(setup, e, b), b.now);
  }

  lemma {:induction false} RunFollows(setup: Setup, bars: seq<BarIn>)
    requires setup.Valid()
    ensures Follows(Run(setup, NewBacktest(setup), bars), Exec.After(setup.costs, History(setup, bars)))
  {
    if bars != [] {
      RunFollows(setup, bars[..|bars| - 1]);
      BarFollows(setup, Before(setup, bars), History(setup, bars[..|bars| - 1]), bars[|bars| - 1]);
    }
  }

  // ---- What follows for runs -----------------------------------------------------------------

  /** Over every managed backtest, with bars missing or not, each order is executed at most once, what has been executed
      is no longer waiting, and the portfolio is given exactly the fills of the execution engine, each once. */
  lemma EachOrderFillsOnce(setup: Setup, bars: seq<BarIn>)
    requires setup.Valid()
    ensures var r := Run(setup, NewBacktest(setup), bars);
            && OneFillEach(r.exec.fills) && r.book.fills == r.exec.fills
            && DistinctIds(r.exec.pending)
            && forall o, f :: o in r.exec.pending && f in r.exec.fills ==> f.orderId != o.id
  {
    var h := Exec.After(setup.costs, History(setup, bars));
    RunFollows(setup, bars);
    Exec.EveryOrderInOnePlace(setup.costs, History(setup, bars));
    Exec.LeftMembers(h.submitted, Exec.FilledIds(h.exec.fills) + Exec.IdsOf(h.rejected));
  }

  /** Bars come in time order. */
  ghost predicate InOrder(bars: seq<BarIn>) {
    forall i, j :: 0 <= i < j < |bars| ==> bars[i].now < bars[j].now
  }

  lemma BarIsTimed(events: seq<Exec.Event>, b: BarIn, sent: seq<Order>)
    requires Exec.Timed(events) && Stamped(sent, b.now)
    requires Exec.LastBar(events).None? || Exec.LastBar(events).value < b.now
    ensures var all := events + [Exec.BarAt(b.bars, b.now)] + Submissions(sent);
            Exec.Timed(all) && Exec.LastBar(all) == Some(b.now)
  {
    var started := events + [Exec.BarAt(b.bars, b.now)];
    assert started[..|started| - 1] == events;
    QueueingIsTimed(started, sent, b.now);
  }

  lemma SentAreStamped(setup: Setup, s: Backtest, b: BarIn)
    requires setup.Valid()
    ensures Stamped(Sent(setup, s, b), b.now)
  {
    if s.index >= setup.warmup {
      QueuedIds(setup, s, b);
    }
  }

  lemma {:induction false} HistoryIsTimed(setup: Setup, bars: seq<BarIn>)
    requires setup.Valid() && InOrder(bars)
    ensures Exec.Timed(History(setup, bars))
    ensures Exec.LastBar(History(setup, bars)) == if bars == [] then None else Some(bars[|bars| - 1].now)
  {
    if bars != [] {
      var init, b := bars[..|bars| - 1], bars[|bars| - 1];
      HistoryIsTimed(setup, init);
      assert init != [] ==> init[|init| - 1].now < b.now;
      SentAreStamped(setup, Executed(setup, Before(setup, bars), b), b);
      BarIsTimed(History(setup, init), b, Sent(setup, Executed(setup, Before(setup, bars), b), b));
    }
  }

  lemma {:induction false} BarsOfHistory(setup: Setup, bars: seq<BarIn>, i: nat) returns (k: nat)
    requires setup.Valid() && i < |History(setup, bars)| && History(setup, bars)[i].BarAt?
    ensures k < |bars| && History(setup, bars)[i] == Exec.BarAt(bars[k].bars, bars[k].now)
  {
    var before := History(setup, bars[..|bars| - 1]);
    if i < |before| {
      k := BarsOfHistory(setup, bars[..|bars| - 1], i);
    } else {
      k := |bars| - 1;
    }
  }

  /** The fill honours the order on one of the bars. */
  ghost predicate FilledOn(setup: Setup, bars: seq<BarIn>, o: Order, f: Fill) {
    exists k :: 0 <= k < |bars| && Exec.Honours(setup.costs, f, o, bars[k].bars, bars[k].now)
  }

  /** Over every managed backtest with bars in time order and slippage that is no gain, each fill is for an order of the
      run, in full, strictly later than the bar the order was decided on, at the time of a bar and at that bar's open
      made worse by the slippage, and is charged its commission. */
  lemma EveryFillComesLater(setup: Setup, bars: seq<BarIn>, f: Fill)
    requires setup.Valid() && InOrder(bars) && Exec.Adverse(setup.costs.slippage)
    requires f in Run(setup, NewBacktest(setup), bars).exec.fills
    ensures var r := Run(setup, NewBacktest(setup), bars);
            && f.orderId in r.submitted
            && f.timestamp > r.submitted[f.orderId].timestamp && FilledOn(setup, bars, r.submitted[f.orderId], f)
  {
    RunFollows(setup, bars);
    HistoryIsTimed(setup, bars);
    var events := History(setup, bars);
    var o := Exec.FillsComeLater(setup.costs, events, f);
    var i :| 0 <= i < |events| && events[i].BarAt? && Exec.Honours(setup.costs, f, o, events[i].bars, events[i].now);
    var k := BarsOfHistory(setup, bars, i);
    assert Exec.Honours(setup.costs, f, o, bars[k].bars, bars[k].now);
  }
}
