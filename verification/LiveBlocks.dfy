/** What keeps the live engine from buying, with every broker: a difference between the broker's account and the book,
    a fall of equity from its peak, a day's loss. Exits pass all the same. */
module LiveBlocks {
  import opened Models
  import opened Portfolio
  import opened RiskEngine
  import opened SignalBatch
  import opened BatchBounds
  import opened BatchBlocks
  import opened BatchPlans
  import opened OrderManager
  import opened PaperBroker
  import opened LiveModel
  import opened LiveRuns
  import opened LiveLaws
  import opened VenueLaws

  // ---- Reconciliation ------------------------------------------------------------------------

  function HeldThere(a: Account, x: Symbol): int {
    if x in a.positions then a.positions[x] else 0
  }

  /** The broker's account and the book differ: in cash by more than 1, in what is held of any symbol, or, when there
      are prices, in equity by more than 10 and more than a thousandth. */
  ghost predicate Differs(a: Account, b: Book, prices: Prices) {
    var off := AbsR(a.value - EquityAt(b, prices));
    || a.cash > b.cash + 1.0 || a.cash < b.cash - 1.0
    || (exists x :: HeldThere(a, x) != At(b, x).quantity)
    || (prices != map[] && off > 10.0 && off > AbsR(EquityAt(b, prices)) * 0.001)
  }

  /** Reconciliation succeeds exactly when the broker answers and nothing differs. */
  lemma VerdictIsExact(account: Option<Account>, b: Book, prices: Prices)
    ensures Reconciles(account, b, prices) <==> account.Some? && !Differs(account.value, b, prices)
  {
    if account.Some? {
      PositionsAgreeExactly(account.value, b);
    }
  }

  /** What the engine compares: the account of the paper broker, which has to be up, or that of the outside one. */
  lemma EngineVerdictIsExact(s: Live, world: World, prices: Prices)
    ensures Reconciles(AccountOf(s, world), s.book, prices) <==>
              match s.venue
              case Some(p) => p.connected && !Differs(PaperAccount(p), s.book, prices)
              case None => world.account.Some? && !Differs(world.account.value, s.book, prices)
  {
    VerdictIsExact(AccountOf(s, world), s.book, prices);
  }

  lemma PositionsAgreeExactly(a: Account, b: Book)
    ensures PositionsAgree(a, b) <==> forall x :: HeldThere(a, x) == At(b, x).quantity
  {
    if PositionsAgree(a, b) {
      forall x ensures HeldThere(a, x) == At(b, x).quantity {
        assert x in OpenSymbols(b) ==> LocalAgrees(a, b, x);
      }
    }
    if forall x :: HeldThere(a, x) == At(b, x).quantity {
      forall x | x in OpenSymbols(b) ensures LocalAgrees(a, b, x) {
        assert HeldThere(a, x) == At(b, x).quantity;
      }
      forall x | x in a.positions && x !in OpenSymbols(b) ensures a.positions[x] == 0 {
        assert HeldThere(a, x) == At(b, x).quantity;
      }
    }
  }

  lemma ClosesAlone(setup: Setup, s: Live, t: Tick)
    requires setup.trade.Valid()
    requires var r := Prepared(setup, s, t);
             var d := DeskAt(r, t, EventsOf(setup, s, t));
             Candidates(setup.trade, d, r.day, r.nextId, t.now).1 == ClosingOrders(setup.trade, d, r.nextId, t.now)
    ensures OnlyExits(Prepared(setup, s, t).book, PassedIn(setup, s, t))
  {
    var r, events := Prepared(setup, s, t), EventsOf(setup, s, t);
    BlockedBatchExits(setup.trade, setup.sectors, r.gate, DeskAt(r, t, events), r.day, r.nextId, t.now,
                      UpTo(BatchPlan(setup, r, t, events).1, t.crash));
  }

  /** In a tick whose account differs from the book, or is not there, every order that passes the gate is an exit. */
  lemma DifferenceBuysNothing(setup: Setup, s: Live, t: Tick)
    requires setup.trade.Valid()
    requires var r := Prepared(setup, s, t);
             var account := AccountOf(r, t.world);
             account.None? || Differs(account.value, r.book, Closes(t.bars))
    ensures OnlyExits(Prepared(setup, s, t).book, PassedIn(setup, s, t))
  {
    var r := Prepared(setup, s, t);
    ReconciledMeans(setup, s, t);
    VerdictIsExact(AccountOf(r, t.world), r.book, Closes(t.bars));
    ClosesAlone(setup, s, t);
  }

  // ---- What the steps of a tick leave to the gate and the daily guard ------------------------

  predicate SameGuards(s: Live, t: Live) {
    t.gate == s.gate && t.day == s.day && t.reconciled == s.reconciled && t.latest == s.latest
  }

  lemma {:induction false} SubmitAllKeepsGuards(setup: Setup, s: Live, orders: seq<Order>, now: Time, world: World)
    ensures SameGuards(s, SubmitAll(setup, s, orders, now, world))
  {
    if orders != [] {
      var before, o := SubmitAll(setup, s, orders[..|orders| - 1], now, world), orders[|orders| - 1];
      SubmitAllKeepsGuards(setup, s, orders[..|orders| - 1], now, world);
      AttemptsKeepRest(setup, before.(oms := Created(before.oms, o, now)), o, 0, now, world);
    }
  }

  lemma BatchKeepsGuards(setup: Setup, s: Live, t: Tick, events: seq<Signal>)
    requires setup.trade.Valid()
    ensures Batched(setup, s, t, events).gate.peak >= s.gate.peak
    ensures SameDay(s.day, Batched(setup, s, t, events).day)
    ensures var r := Batched(setup, s, t, events); r.reconciled == s.reconciled && r.latest == s.latest
  {
    var todo := UpTo(BatchPlan(setup, s, t, events).1, t.crash);
    RoutedRaisesPeak(setup.trade, setup.sectors, s.gate, s.book, todo, Closes(t.bars));
    CandidatesKeepDay(setup.trade, DeskAt(s, t, events), s.day, s.nextId, t.now);
    BatchSubmitsPassing(setup, s, t, events);
    SubmitAllKeepsGuards(setup, Staged(setup, s, t, events), Passing(setup, s, t, events), t.now, t.world);
  }

  lemma PolledKeepsGuards(setup: Setup, s: Live, now: Time, world: World, force: bool)
    requires Consistent(s.oms)
    ensures SameGuards(s, Polled(setup, s, now, world, force))
  {
    match s.venue {
      case Some(p) => DrainKeepsRest(setup, s, p.fillLog, now);
      case None => PollKeepsRest(setup, s.(lastPoll := Some(now)), Working(s.oms, s.oms.ids), now, world);
    }
  }

  /** The equity that a tick assesses before its batch. */
  ghost function EquityIn(setup: Setup, s: Live, t: Tick): real {
    EquityAt(Prepared(setup, s, t).book, Closes(t.bars))
  }

  /** A tick raises the peak to its equity, and starts a day at it if its date is a new one. */
  lemma PreparedGuards(setup: Setup, s: Live, t: Tick)
    requires Sound(s)
    ensures var r, equity := Prepared(setup, s, t), EquityIn(setup, s, t);
            && r.gate.peak == MaxR(s.gate.peak, equity) && r.latest == Closes(t.bars)
            && r.day == if s.day.date == Some(t.date) then s.day else Day(Some(t.date), Some(equity), false)
  {
    var p := Priced(Connected(s), Closes(t.bars));
    var polled := Polled(setup, p, t.now, t.world, true);
    PolledKeepsGuards(setup, p, t.now, t.world, true);
    ExpireKeepsRest(setup, polled, Stale(polled.oms, polled.oms.ids, setup.ttl, t.now), t.now, t.world);
  }

  /** What a tick leaves of the peak, the day and the prices. */
  ghost predicate Carries(before: Live, equity: real, t: Tick, after: Live) {
    && after.gate.peak >= before.gate.peak && after.gate.peak >= equity
    && (t.Completes() ==> after.gate.peak >= EquityAt(after.book, Closes(t.bars)))
    && after.latest == (map x | x in t.bars :: t.bars[x].close)
    && after.day.date == Some(t.date)
    && after.day.start == if before.day.date == Some(t.date) then before.day.start else Some(equity)
  }

  lemma BatchDoneCarries(setup: Setup, s: Live, t: Tick)
    requires setup.trade.Valid() && Sound(s)
    ensures var d, equity := BatchDone(setup, s, t), EquityIn(setup, s, t);
            && d.gate.peak >= MaxR(s.gate.peak, equity) && d.latest == Closes(t.bars) && d.day.date == Some(t.date)
            && d.day.start == if s.day.date == Some(t.date) then s.day.start else Some(equity)
  {
    PreparedGuards(setup, s, t);
    BatchKeepsGuards(setup, Prepared(setup, s, t), t, EventsOf(setup, s, t));
  }

  lemma FinishRaisesPeak(setup: Setup, d: Live, t: Tick)
    requires Consistent(d.oms)
    ensures var r := Finished(setup, d, t);
            && r.gate.peak == MaxR(d.gate.peak, EquityAt(r.book, Closes(t.bars)))
            && r.day == d.day && r.latest == d.latest
  {
    PolledKeepsGuards(setup, d, t.now, t.world, false);
  }

  lemma TradingTickCarries(setup: Setup, s: Live, t: Tick)
    requires setup.trade.Valid() && Sound(s) && t.bars != map[] && !t.fails
    ensures Carries(s, EquityIn(setup, s, t), t, Ticked(setup, s, t))
  {
    BatchDoneCarries(setup, s, t);
    if t.crash.None? {
      BatchDoneEvolves(setup, s, t);
      FinishRaisesPeak(setup, BatchDone(setup, s, t), t);
    }
  }

  lemma TickCarries(setup: Setup, s: Live, t: Tick)
    requires setup.trade.Valid() && Sound(s)
    ensures if t.bars == map[] then SameGuards(s, Ticked(setup, s, t))
            else Carries(s, EquityIn(setup, s, t), t, Ticked(setup, s, t))
  {
    if t.bars != map[] {
      if t.fails {
        PreparedGuards(setup, s, t);
      } else {
        TradingTickCarries(setup, s, t);
      }
    }
  }

  /** The verdict stands until the next tick that compares: one without bars, or whose strategy raises, keeps the one
      before. */
  lemma VerdictStands(setup: Setup, s: Live, t: Tick)
    requires setup.trade.Valid() && Sound(s)
    ensures var r := Prepared(setup, s, t);
            Ticked(setup, s, t).reconciled == if t.bars == map[] || t.fails then s.reconciled
                                              else Reconciles(AccountOf(r, t.world), r.book, Closes(t.bars))
  {
    if t.bars != map[] && !t.fails {
      ReconciledMeans(setup, s, t);
      BatchKeepsGuards(setup, Prepared(setup, s, t), t, EventsOf(setup, s, t));
      BatchDoneEvolves(setup, s, t);
      PolledKeepsGuards(setup, BatchDone(setup, s, t), t.now, t.world, false);
    }
  }

  // ---- The fall from the peak ----------------------------------------------------------------

  /** The equity that tick `i` of a run assesses. */
  ghost function AssessedAt(setup: Setup, s: Live, ticks: seq<Tick>, i: nat): real
    requires setup.trade.Valid() && i < |ticks|
  {
    EquityIn(setup, Run(setup, s, ticks[..i]), ticks[i])
  }

  lemma AssessedInPrefix(setup: Setup, s: Live, ticks: seq<Tick>, i: nat)
    requires setup.trade.Valid() && i < |ticks| - 1
    ensures var init := ticks[..|ticks| - 1];
            AssessedAt(setup, s, init, i) == AssessedAt(setup, s, ticks, i)
            && Run(setup, s, init[..i]) == Run(setup, s, ticks[..i])
  {
    assert ticks[..|ticks| - 1][..i] == ticks[..i];
  }

  lemma LastTickCarries(setup: Setup, s: Live, ticks: seq<Tick>)
    requires setup.trade.Valid() && Sound(s) && ticks != []
    ensures var n := |ticks| - 1;
            var before, after := Run(setup, s, ticks[..n]), Run(setup, s, ticks);
            if ticks[n].bars == map[] then SameGuards(before, after)
            else Carries(before, AssessedAt(setup, s, ticks, n), ticks[n], after)
  {
    RunEvolves(setup, s, ticks[..|ticks| - 1]);
    TickCarries(setup, Run(setup, s, ticks[..|ticks| - 1]), ticks[|ticks| - 1]);
  }

  /** The equity is one that tick `i` has put to the gate: before its batch, or at its end if it completes. */
  ghost predicate ReportedBy(setup: Setup, s: Live, ticks: seq<Tick>, i: nat, equity: real)
    requires setup.trade.Valid()
  {
    && i < |ticks| && ticks[i].bars != map[]
    && (equity == AssessedAt(setup, s, ticks, i)
        || (ticks[i].Completes() && equity == EquityAt(Run(setup, s, ticks[..i + 1]).book, Closes(ticks[i].bars))))
  }

  lemma ReportedInPrefix(setup: Setup, s: Live, ticks: seq<Tick>, i: nat, equity: real)
    requires setup.trade.Valid() && ReportedBy(setup, s, ticks, i, equity) && i < |ticks| - 1
    ensures ReportedBy(setup, s, ticks[..|ticks| - 1], i, equity)
  {
    AssessedInPrefix(setup, s, ticks, i);
    assert ticks[..|ticks| - 1][..i + 1] == ticks[..i + 1];
  }

  lemma LastIsCovered(setup: Setup, s: Live, ticks: seq<Tick>, equity: real)
    requires setup.trade.Valid() && Sound(s) && ticks != [] && ReportedBy(setup, s, ticks, |ticks| - 1, equity)
    ensures Run(setup, s, ticks).gate.peak >= equity
  {
    LastTickCarries(setup, s, ticks);
    assert ticks[..|ticks|] == ticks;
  }

  lemma PeakStays(setup: Setup, s: Live, ticks: seq<Tick>)
    requires setup.trade.Valid() && Sound(s) && ticks != []
    ensures Run(setup, s, ticks).gate.peak >= Run(setup, s, ticks[..|ticks| - 1]).gate.peak
  {
    LastTickCarries(setup, s, ticks);
  }

  /** No equity put to the gate in a run lies above the peak at its end. */
  lemma {:induction false} PeakCoversRun(setup: Setup, s: Live, ticks: seq<Tick>, i: nat, equity: real)
    requires setup.trade.Valid() && Sound(s) && ReportedBy(setup, s, ticks, i, equity)
    ensures Run(setup, s, ticks).gate.peak >= equity
  {
    if i < |ticks| - 1 {
      ReportedInPrefix(setup, s, ticks, i, equity);
      PeakCoversRun(setup, s, ticks[..|ticks| - 1], i, equity);
      PeakStays(setup, s, ticks);
    } else {
      LastIsCovered(setup, s, ticks, equity);
    }
  }

  lemma FallenTickExits(setup: Setup, s: Live, t: Tick, high: real)
    requires setup.trade.Valid() && Sound(s) && 0.0 < high <= s.gate.peak
    requires setup.trade.limits.maxDrawdownPct >= 0.0 && Fallen(setup.trade.limits, high, EquityIn(setup, s, t))
    ensures OnlyExits(Prepared(setup, s, t).book, PassedIn(setup, s, t))
  {
    var r, events := Prepared(setup, s, t), EventsOf(setup, s, t);
    var d := DeskAt(r, t, events);
    var candidates := BatchPlan(setup, r, t, events).1;
    PreparedGuards(setup, s, t);
    HigherPeakFalls(setup.trade.limits, high, r.gate.peak, EquityIn(setup, s, t));
    CandidatesEnterOrExit(setup.trade, d, r.day, r.nextId, t.now);
    assert forall o :: o in UpTo(candidates, t.crash) ==> o in candidates;
    GateRefusesEntries(setup.trade, setup.sectors, r.gate, d, UpTo(candidates, t.crash));
  }

  /** Over every run with every broker: once the equity of a tick has fallen by more than the limit below one that any
      earlier tick has put to the gate, every order of the tick that passes is an exit. */
  lemma FallBuysNothing(setup: Setup, s: Live, ticks: seq<Tick>, i: nat, high: real, t: Tick)
    requires setup.trade.Valid() && Sound(s) && setup.trade.limits.maxDrawdownPct >= 0.0
    requires ReportedBy(setup, s, ticks, i, high) && high > 0.0
    requires Fallen(setup.trade.limits, high, EquityIn(setup, Run(setup, s, ticks), t))
    ensures OnlyExits(Prepared(setup, Run(setup, s, ticks), t).book, PassedIn(setup, Run(setup, s, ticks), t))
  {
    RunEvolves(setup, s, ticks);
    PeakCoversRun(setup, s, ticks, i, high);
    FallenTickExits(setup, Run(setup, s, ticks), t, high);
  }

  // ---- The day's loss ------------------------------------------------------------------------

  /** Tick `i` is the first of its date, and no later one has another. */
  ghost predicate DayBegins(setup: Setup, s: Live, ticks: seq<Tick>, i: nat)
    requires setup.trade.Valid()
  {
    && i < |ticks| && ticks[i].bars != map[]
    && Run(setup, s, ticks[..i]).day.date != Some(ticks[i].date)
    && forall j :: i <= j < |ticks| ==> ticks[j].date == ticks[i].date
  }

  /** The day keeps the equity that its first tick assessed. */
  lemma {:induction false} DayKeepsStart(setup: Setup, s: Live, ticks: seq<Tick>, i: nat)
    requires setup.trade.Valid() && Sound(s) && DayBegins(setup, s, ticks, i)
    ensures var day := Run(setup, s, ticks).day;
            day.date == Some(ticks[i].date) && day.start == Some(AssessedAt(setup, s, ticks, i))
  {
    LastTickCarries(setup, s, ticks);
    if i < |ticks| - 1 {
      BeginsInPrefix(setup, s, ticks, i);
      AssessedInPrefix(setup, s, ticks, i);
      DayKeepsStart(setup, s, ticks[..|ticks| - 1], i);
    }
  }

  lemma BeginsInPrefix(setup: Setup, s: Live, ticks: seq<Tick>, i: nat)
    requires setup.trade.Valid() && DayBegins(setup, s, ticks, i) && i < |ticks| - 1
    ensures DayBegins(setup, s, ticks[..|ticks| - 1], i)
  {
    AssessedInPrefix(setup, s, ticks, i);
    assert forall j :: i <= j < |ticks| - 1 ==> ticks[..|ticks| - 1][j] == ticks[j];
  }

  /** Over every run with every broker: in a tick whose equity has fallen by more than the limit below that of the first
      tick of its date, every order that passes the gate is an exit. */
  lemma LossBuysNothing(setup: Setup, s: Live, ticks: seq<Tick>, i: nat, t: Tick)
    requires setup.trade.Valid() && Sound(s) && DayBegins(setup, s, ticks, i) && t.date == ticks[i].date
    requires var start := AssessedAt(setup, s, ticks, i);
             && start > 0.0
             && EquityIn(setup, Run(setup, s, ticks), t) < start - Fraction(start, setup.trade.day.maxDailyLossPct)
    ensures OnlyExits(Prepared(setup, Run(setup, s, ticks), t).book, PassedIn(setup, Run(setup, s, ticks), t))
  {
    var before := Run(setup, s, ticks);
    RunEvolves(setup, s, ticks);
    DayKeepsStart(setup, s, ticks, i);
    PreparedGuards(setup, before, t);
    LostTickExits(setup, before, t);
  }

  lemma LostTickExits(setup: Setup, s: Live, t: Tick)
    requires setup.trade.Valid() && Lost(setup.trade.day, Prepared(setup, s, t).day, EquityIn(setup, s, t))
    ensures OnlyExits(Prepared(setup, s, t).book, PassedIn(setup, s, t))
  {
    var r := Prepared(setup, s, t);
    LossLeavesCloses(setup.trade, DeskAt(r, t, EventsOf(setup, s, t)), r.day, r.nextId, t.now);
    ClosesAlone(setup, s, t);
  }

  // ---- A batch that is cut short -------------------------------------------------------------

  /** A tick whose batch crashes after `n` orders puts exactly those of them past the gate that would have passed in the
      whole batch, in the same order. */
  lemma CrashPassesFirst(setup: Setup, s: Live, t: Tick, n: nat)
    requires setup.trade.Valid() && t.crash.None?
    ensures var all, cut, first := PassedIn(setup, s, t), PassedIn(setup, s, t.(crash := Some(n))),
                Prepared(setup, s, t).nextId;
            cut <= all && forall o :: o in all ==> (o in cut <==> o.id < first + n)
  {
    SameBeforeBatch(setup, s, t, n);
    CutPassing(setup, Prepared(setup, s, t), t, EventsOf(setup, s, t), n);
  }

  /** What the gate lets through of the first orders of a batch. */
  ghost function PassingOf(setup: Setup, r: Live, t: Tick, orders: seq<Order>): seq<Order> {
    Routed(setup.trade, setup.sectors, r.gate, r.book, orders, Closes(t.bars)).1
  }

  lemma PassingOfPlan(setup: Setup, r: Live, t: Tick, events: seq<Signal>, crash: Option<nat>)
    requires setup.trade.Valid()
    ensures Passing(setup, r, t.(crash := crash), events)
            == PassingOf(setup, r, t, UpTo(BatchPlan(setup, r, t, events).1, crash))
  {
  }

  lemma CutPassing(setup: Setup, r: Live, t: Tick, events: seq<Signal>, n: nat)
    requires setup.trade.Valid() && t.crash.None?
    ensures var all, cut := Passing(setup, r, t, events), Passing(setup, r, t.(crash := Some(n)), events);
            cut <= all && forall o :: o in all ==> (o in cut <==> o.id < r.nextId + n)
  {
    var orders := BatchPlan(setup, r, t, events).1;
    PassingOfPlan(setup, r, t, events, None);
    PassingOfPlan(setup, r, t, events, Some(n));
    CandidateIds(setup.trade, DeskAt(r, t, events), r.day, r.nextId, t.now);
    CutPassesFirst(setup.trade, setup.sectors, r.gate, r.book, orders, Closes(t.bars), r.nextId, Min(n, |orders|));
    assert t.(crash := None) == t && orders[..|orders|] == orders;
  }

  lemma SameBeforeBatch(setup: Setup, s: Live, t: Tick, n: nat)
    ensures var u := t.(crash := Some(n));
            Prepared(setup, s, u) == Prepared(setup, s, t) && EventsOf(setup, s, u) == EventsOf(setup, s, t)
  {
  }
}
