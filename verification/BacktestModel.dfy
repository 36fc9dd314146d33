/** The managed bar loop of cpat/backtest/engine.py as a transition system: one bar is a function of the state
    and the market input. */
module BacktestModel {
  import opened Models
  import opened Portfolio
  import opened StopLoss
  import opened StopExits
  import opened RiskEngine
  import opened SignalBatch
  import Exec = ExecutionEngine

  datatype Setup = Setup(trade: SignalBatch.Config, sectors: map<Symbol, string>, costs: Exec.Costs, trailing: bool,
                         warmup: nat, initialCapital: real)
  {
    predicate Valid() {
      trade.Valid() && trade.coverShorts && initialCapital > 0.0
    }
  }

  /** `submitted` are the orders by id, which a fill is looked up in. */
  datatype Backtest = Backtest(exec: Exec.Exec, book: Book, stops: Levels, gate: Gate, day: Day,
                               submitted: map<OrderId, Order>, nextId: OrderId, index: nat)

  /** One bar: `signals` is what the strategy emits on it, `fired` the stops in the tracker's order. */
  datatype BarIn = BarIn(now: Time, date: int, bars: StopLoss.Bars, sigmas: map<Symbol, real>, atrs: map<Symbol, real>,
                         signals: seq<Signal>, fired: seq<Symbol>)

  function NewBacktest(setup: Setup): Backtest {
    Backtest(Exec.Exec([], []), Replayed(setup.initialCapital, []), map[], Gate(setup.initialCapital, false), NO_DAY,
             map[], 0, 0)
  }

  // ---- Fills at the open ---------------------------------------------------------------------

  function FillBooked(setup: Setup, s: Backtest, f: Fill): Backtest {
    var book := Applied(s.book, f);
    s.(book := book,
       stops := if f.orderId in s.submitted
           then StopsFor(setup.trailing, s.stops, At(book, f.symbol), f, s.submitted[f.orderId])
                else s.stops)
  }

  function FillsBooked(setup: Setup, s: Backtest, fills: seq<Fill>): Backtest {
    if fills == [] then s else FillBooked(setup, FillsBooked(setup, s, fills[..|fills| - 1]), fills[|fills| - 1])
  }

  /** The orders of the bar before are filled at this bar's open. */
  function Executed(setup: Setup, s: Backtest, b: BarIn): Backtest {
    var (e, r) := Exec.Processed(setup.costs, s.exec, b.bars, b.now);
    FillsBooked(setup, s.(exec := e), r.fills)
  }

  // ---- The rest of the bar -------------------------------------------------------------------

  ghost function Guarded(s: Backtest, b: BarIn): Backtest {
    s.(day := DayUpdated(s.day, b.date, EquityAt(s.book, Closes(b.bars))), stops := LevelsAfter(s.stops, b.bars))
  }

  /** Stop exits come out of the event queue before what the strategy emits. */
  function EventsOf(s: Backtest, b: BarIn): seq<Signal> {
    StopSignals(b.fired, s.stops) + b.signals
  }

  function DeskAt(s: Backtest, b: BarIn, events: seq<Signal>): Desk {
    Desk(s.book, Tape(b.bars, b.sigmas, b.atrs), (set x | x in b.fired), events, true)
  }

  function ById(orders: seq<Order>): map<OrderId, Order> {
    if orders == [] then map[] else ById(orders[..|orders| - 1])[orders[|orders| - 1].id := orders[|orders| - 1]]
  }

  ghost function PlanOf(setup: Setup, s: Backtest, b: BarIn, events: seq<Signal>): (Day, seq<Order>)
    requires setup.Valid()
  {
    Candidates(setup.trade, DeskAt(s, b, events), s.day, s.nextId, b.now)
  }

  /** Signals of warm-up bars are dropped, stop exits among them. */
  ghost function Batched(setup: Setup, s: Backtest, b: BarIn, events: seq<Signal>): Backtest
    requires setup.Valid()
  {
    if s.index < setup.warmup then s
    else
      var (day, candidates) := PlanOf(setup, s, b, events);
      var (gate, passed) := Routed(setup.trade, setup.sectors, s.gate, s.book, candidates, Closes(b.bars));
      s.(day := day, gate := gate, nextId := s.nextId + |candidates|, submitted := s.submitted + ById(passed),
         exec := s.exec.(pending := s.exec.pending + passed))
  }

  ghost function Closed(s: Backtest, b: BarIn): Backtest {
    s.(gate := Raised(s.gate, EquityAt(s.book, Closes(b.bars))), index := s.index + 1)
  }

  ghost function BarDone(setup: Setup, s: Backtest, b: BarIn): Backtest
    requires setup.Valid()
  {
    var e := Executed(setup, s, b);
    Closed(Batched(setup, Guarded(e, b), b, EventsOf(e, b)), b)
  }

  ghost function Run(setup: Setup, s: Backtest, bars: seq<BarIn>): Backtest
    requires setup.Valid()
  {
    if bars == [] then s else BarDone(setup, Run(setup, s, bars[..|bars| - 1]), bars[|bars| - 1])
  }
}
