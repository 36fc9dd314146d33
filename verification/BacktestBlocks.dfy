/** What keeps the managed backtest from buying: its warm-up, a fall of equity from its peak, a day's loss. */
module BacktestBlocks {
  import opened Models
  import opened Portfolio
  import opened RiskEngine
  import opened SignalBatch
  import opened BatchBlocks
  import opened BacktestModel
  import opened BacktestRuns
  import opened BacktestFills
  import Exec = ExecutionEngine

  /** The orders that a bar puts into the queue of the execution engine. */
  ghost function Ordered(setup: Setup, s: Backtest, b: BarIn): seq<Order>
    requires setup.Valid()
  {
    BatchSends(setup, Executed(setup, s, b), b);
    BarDone(setup, s, b).exec.pending[|Executed(setup, s, b).exec.pending|..]
  }

  lemma OrderedIsSent(setup: Setup, s: Backtest, b: BarIn)
    requires setup.Valid()
    ensures Ordered(setup, s, b) == Sent(setup, Executed(setup, s, b), b)
  {
    BatchSends(setup, Executed(setup, s, b), b);
  }

  // ---- Warm-up -------------------------------------------------------------------------------

  lemma OpenKeepsGuards(setup: Setup, s: Backtest, b: BarIn)
    ensures var t := Executed(setup, s, b); t.index == s.index && t.gate == s.gate && t.day == s.day
  {
    var (e, r) := Exec.Processed(setup.costs, s.exec, b.bars, b.now);
    FillsReachBook(setup, s.(exec := e), r.fills);
  }

  lemma {:induction false} BarsAreCounted(setup: Setup, bars: seq<BarIn>)
    requires setup.Valid()
    ensures Run(setup, NewBacktest(setup), bars).index == |bars|
  {
    if bars != [] {
      BarsAreCounted(setup, bars[..|bars| - 1]);
      OpenKeepsGuards(setup, Before(setup, bars), bars[|bars| - 1]);
    }
  }

  /** Bars before the warm-up is over order nothing, so nothing is filled up to the first bar after it; every later bar
      orders what its batch puts past the gate. */
  lemma {:induction false} WarmupIsExact(setup: Setup, bars: seq<BarIn>, b: BarIn)
    requires setup.Valid()
    ensures var s := Run(setup, NewBacktest(setup), bars);
            && Ordered(setup, s, b) == (if |bars| < setup.warmup then []
                                        else QueuedOf(setup, Executed(setup, s, b), b))
            && (|bars| <= setup.warmup ==> s.exec.pending == [] && s.book.fills == [])
  {
    var s := Run(setup, NewBacktest(setup), bars);
    BarsAreCounted(setup, bars);
    OpenKeepsGuards(setup, s, b);
    OrderedIsSent(setup, s, b);
    if bars != [] && |bars| <= setup.warmup {
      WarmupIsExact(setup, bars[..|bars| - 1], b);
      QuietBar(setup, Before(setup, bars), bars[|bars| - 1]);
      BarsAreCounted(setup, bars[..|bars| - 1]);
    }
  }

  lemma QuietBar(setup: Setup, s: Backtest, b: BarIn)
    requires setup.Valid() && s.index < setup.warmup && s.exec.pending == [] && s.book.fills == []
    ensures var t := BarDone(setup, s, b); t.exec.pending == [] && t.book.fills == []
  {
    OpenShape(setup, s, b);
    BatchSends(setup, Executed(setup, s, b), b);
  }

  // ---- The fall from the peak ----------------------------------------------------------------

  /** The equity that a bar assesses once it has filled the waiting orders. */
  ghost function EquityIn(setup: Setup, s: Backtest, b: BarIn): real {
    EquityAt(Executed(setup, s, b).book, Closes(b.bars))
  }

  ghost function AssessedAt(setup: Setup, bars: seq<BarIn>, i: nat): real
    requires setup.Valid() && i < |bars|
  {
    EquityIn(setup, Run(setup, NewBacktest(setup), bars[..i]), bars[i])
  }

  lemma BatchKeepsGuards(setup: Setup, s: Backtest, b: BarIn, events: seq<Signal>)
    requires setup.Valid()
    ensures var t := Batched(setup, s, b, events);
            t.gate.peak >= s.gate.peak && SameDay(s.day, t.day) && t.book == s.book
  {
    if s.index >= setup.warmup {
      var candidates := PlanOf(setup, s, b, events).1;
      CandidatesKeepDay(setup.trade, DeskAt(s, b, events), s.day, s.nextId, b.now);
      RoutedRaisesPeak(setup.trade, setup.sectors, s.gate, s.book, candidates, Closes(b.bars));
    }
  }

  /** A bar raises the peak to its equity, and starts a day at it if its date is a new one. */
  lemma BarCarries(setup: Setup, s: Backtest, b: BarIn)
    requires setup.Valid()
    ensures var t, equity := BarDone(setup, s, b), EquityIn(setup, s, b);
            && t.gate.peak >= s.gate.peak && t.gate.peak >= equity
            && t.day.date == Some(b.date)
            && t.day.start == if s.day.date == Some(b.date) then s.day.start else Some(equity)
  {
    var e := Executed(setup, s, b);
    OpenKeepsGuards(setup, s, b);
    BatchKeepsGuards(setup, Guarded(e, b), b, EventsOf(e, b));
  }

  lemma AssessedInPrefix(setup: Setup, bars: seq<BarIn>, i: nat)
    requires setup.Valid() && i < |bars| - 1
    ensures AssessedAt(setup, bars[..|bars| - 1], i) == AssessedAt(setup, bars, i)
    ensures bars[..|bars| - 1][..i] == bars[..i]
  {
    assert bars[..|bars| - 1][..i] == bars[..i];
  }

  lemma {:induction false} PeakCoversRun(setup: Setup, bars: seq<BarIn>, i: nat)
    requires setup.Valid() && i < |bars|
    ensures Run(setup, NewBacktest(setup), bars).gate.peak >= AssessedAt(setup, bars, i)
  {
    BarCarries(setup, Before(setup, bars), bars[|bars| - 1]);
    if i < |bars| - 1 {
      AssessedInPrefix(setup, bars, i);
      PeakCoversRun(setup, bars[..|bars| - 1], i);
    }
  }

  lemma FallenBarExits(setup: Setup, s: Backtest, b: BarIn, high: real)
    requires setup.Valid() && 0.0 < high <= s.gate.peak
    requires setup.trade.limits.maxDrawdownPct >= 0.0 && Fallen(setup.trade.limits, high, EquityIn(setup, s, b))
    ensures OnlyExits(Executed(setup, s, b).book, Sent(setup, Executed(setup, s, b), b))
  {
    var e := Executed(setup, s, b);
    var g, events := Guarded(e, b), EventsOf(e, b);
    OpenKeepsGuards(setup, s, b);
    if e.index >= setup.warmup {
      HigherPeakFalls(setup.trade.limits, high, s.gate.peak, EquityIn(setup, s, b));
      CandidatesEnterOrExit(setup.trade, DeskAt(g, b, events), g.day, g.nextId, b.now);
      GateRefusesEntries(setup.trade, setup.sectors, g.gate, DeskAt(g, b, events), PlanOf(setup, g, b, events).1);
    }
  }

  /** Over every managed backtest: once the equity of a bar has fallen by more than the limit below that of any earlier
      one, every order of the bar is an exit. */
  lemma FallBuysNothing(setup: Setup, bars: seq<BarIn>, i: nat, b: BarIn)
    requires setup.Valid() && setup.trade.limits.maxDrawdownPct >= 0.0
    requires i < |bars| && AssessedAt(setup, bars, i) > 0.0
    requires Fallen(setup.trade.limits, AssessedAt(setup, bars, i),
                    EquityIn(setup, Run(setup, NewBacktest(setup), bars), b))
    ensures var s := Run(setup, NewBacktest(setup), bars);
            OnlyExits(Executed(setup, s, b).book, Ordered(setup, s, b))
  {
    var s := Run(setup, NewBacktest(setup), bars);
    PeakCoversRun(setup, bars, i);
    FallenBarExits(setup, s, b, AssessedAt(setup, bars, i));
    OrderedIsSent(setup, s, b);
  }

  // ---- The day's loss ------------------------------------------------------------------------

  /** Bar `i` is the first of its date, and no later one has another. */
  ghost predicate DayBegins(bars: seq<BarIn>, i: nat) {
    && i < |bars| && (i == 0 || bars[i - 1].date != bars[i].date)
    && forall j :: i <= j < |bars| ==> bars[j].date == bars[i].date
  }

  lemma {:induction false} DateOfRun(setup: Setup, bars: seq<BarIn>)
    requires setup.Valid()
    ensures Run(setup, NewBacktest(setup), bars).day.date
            == if bars == [] then None else Some(bars[|bars| - 1].date)
  {
    if bars != [] {
      BarCarries(setup, Before(setup, bars), bars[|bars| - 1]);
    }
  }

  /** The day keeps the equity that its first bar assessed. */
  lemma {:induction false} DayKeepsStart(setup: Setup, bars: seq<BarIn>, i: nat)
    requires setup.Valid() && DayBegins(bars, i)
    ensures Run(setup, NewBacktest(setup), bars).day.start == Some(AssessedAt(setup, bars, i))
  {
    var init := bars[..|bars| - 1];
    DateOfRun(setup, init);
    BarCarries(setup, Before(setup, bars), bars[|bars| - 1]);
    if i < |bars| - 1 {
      AssessedInPrefix(setup, bars, i);
      DayKeepsStart(setup, init, i);
    }
  }

  lemma LostBarExits(setup: Setup, s: Backtest, b: BarIn)
    requires setup.Valid() && s.day.date == Some(b.date) && Lost(setup.trade.day, s.day, EquityIn(setup, s, b))
    ensures OnlyExits(Executed(setup, s, b).book, Sent(setup, Executed(setup, s, b), b))
  {
    var e := Executed(setup, s, b);
    var g, events := Guarded(e, b), EventsOf(e, b);
    OpenKeepsGuards(setup, s, b);
    if e.index >= setup.warmup {
      var candidates := PlanOf(setup, g, b, events).1;
      LossLeavesCloses(setup.trade, DeskAt(g, b, events), g.day, g.nextId, b.now);
      BlockedBatchExits(setup.trade, setup.sectors, g.gate, DeskAt(g, b, events), g.day, g.nextId, b.now, candidates);
    }
  }

  /** Over every managed backtest: in a bar whose equity has fallen by more than the limit below that of the first bar
      of its date, every order is an exit. */
  lemma LossBuysNothing(setup: Setup, bars: seq<BarIn>, i: nat, b: BarIn)
    requires setup.Valid() && DayBegins(bars, i) && b.date == bars[i].date && AssessedAt(setup, bars, i) > 0.0
    requires var start := AssessedAt(setup, bars, i);
             EquityIn(setup, Run(setup, NewBacktest(setup), bars), b)
             < start - Fraction(start, setup.trade.day.maxDailyLossPct)
    ensures var s := Run(setup, NewBacktest(setup), bars);
            OnlyExits(Executed(setup, s, b).book, Ordered(setup, s, b))
  {
    var s := Run(setup, NewBacktest(setup), bars);
    DateOfRun(setup, bars);
    DayKeepsStart(setup, bars, i);
    LostBarExits(setup, s, b);
    OrderedIsSent(setup, s, b);
  }
}
