/** cpat/risk/engine.py, the pre-trade gate, and the daily guard of cpat/risk/risk_manager.py. */
module RiskEngine {
  import opened Models
  import opened Portfolio

  datatype Limits = Limits(
    maxPositionPct: real, maxSectorPct: real, maxGrossPct: real, maxDrawdownPct: real, minCashPct: real)

  datatype Gate = Gate(peak: real, halted: bool)

  datatype Decision = Approved(quantity: int) | Reduced(quantity: int) | Refused(constraint: string)

  function PriceOf(prices: Prices, s: Symbol): real {
    if s in prices then prices[s] else 0.0
  }

  predicate IsClosing(h: Holding, side: Side) {
    (side.Sell? && h.quantity > 0) || (side.Buy? && h.quantity < 0)
  }

  /** Does the order increase gross exposure? */
  predicate IsOpening(h: Holding, side: Side) {
    h.quantity == 0 || (side.Buy? && h.quantity > 0) || (side.Sell? && h.quantity < 0)
  }

  predicate DrawdownExceeded(limits: Limits, peak: real, equity: real) {
    peak > 0.0 && (equity - peak) / peak < -limits.maxDrawdownPct
  }

  function Raised(g: Gate, equity: real): Gate {
    g.(peak := MaxR(g.peak, equity))
  }

  predicate KeepsCash(limits: Limits, cash: real, equity: real, price: real, quantity: int) {
    cash - Worth(price, quantity) >= Fraction(equity, limits.minCashPct)
  }

  predicate WithinPosition(limits: Limits, held: real, equity: real, price: real, quantity: int) {
    held + Worth(price, quantity) <= Fraction(equity, limits.maxPositionPct)
  }

  predicate WithinSector(limits: Limits, sector: real, equity: real, price: real, quantity: int) {
    sector + Worth(price, quantity) <= Fraction(equity, limits.maxSectorPct)
  }

  predicate WithinGross(limits: Limits, gross: real, equity: real, price: real, quantity: int) {
    gross + Worth(price, quantity) <= Fraction(equity, limits.maxGrossPct)
  }

  /** The exposures the gate looks at; they are read before the order. */
  datatype Exposure = Exposure(equity: real, cash: real, held: real, sector: real, gross: real)

  ghost function ExposureAt(b: Book, sectors: map<Symbol, string>, prices: Prices, s: Symbol): Exposure {
    Exposure(EquityAt(b, prices), b.cash, AbsR(MarketValue(At(b, s), PriceOf(prices, s))),
             SectorAt(b, prices, sectors, SectorOf(sectors, s)), GrossAt(b, prices))
  }

  /** The opening checks in the source's order: the first violation decides, and a reduction returns at once. */
  function OpeningDecision(limits: Limits, e: Exposure, price: real, quantity: int): Decision {
    if price <= 0.0 then Approved(quantity)
    else if !KeepsCash(limits, e.cash, e.equity, price, quantity) then Refused("min_cash")
    else if !WithinPosition(limits, e.held, e.equity, price, quantity) then
      var available := MaxR(0.0, Fraction(e.equity, limits.maxPositionPct) - e.held);
      var fits := Shares(available, price);
      if fits < 1 then Refused("max_position_pct") else Reduced(fits)
    else if !WithinSector(limits, e.sector, e.equity, price, quantity) then Refused("max_sector_pct")
    else if !WithinGross(limits, e.gross, e.equity, price, quantity) then Refused("max_gross_exposure")
    else Approved(quantity)
  }

  function Decide(limits: Limits, g: Gate, e: Exposure, h: Holding, side: Side, price: real,
                  quantity: int): (Gate, Decision)
  {
    if e.equity <= 0.0 then (g, Refused("zero_equity"))
    else
      var r := Raised(g, e.equity);
      var over := DrawdownExceeded(limits, r.peak, e.equity);
      var s := if r.peak <= 0.0 then r else r.(halted := over);
      if over && !IsClosing(h, side) then (s, Refused("max_drawdown"))
      else if IsOpening(h, side) then (s, OpeningDecision(limits, e, price, quantity))
      else (s, Approved(quantity))
  }

  ghost function Checked(limits: Limits, sectors: map<Symbol, string>, g: Gate, b: Book, order: Order,
                         prices: Prices): (Gate, Decision) {
    Decide(limits, g, ExposureAt(b, sectors, prices, order.symbol), At(b, order.symbol),
           order.side, PriceOf(prices, order.symbol), order.quantity)
  }

  class RiskGate {
    const limits: Limits
    const portfolio: PortfolioManager
    var peak: real
    var halted: bool

    ghost function State(): Gate
      reads this
    {
      Gate(peak, halted)
    }

    constructor (portfolio: PortfolioManager, limits: Limits)
      ensures State() == Gate(portfolio.initialCapital, false)
      ensures this.portfolio == portfolio && this.limits == limits
    {
      this.portfolio, this.limits := portfolio, limits;
      peak, halted := portfolio.initialCapital, false;
    }

    method UpdateEquity(equity: real)
      modifies this
      ensures State() == Raised(old(State()), equity)
    {
      if equity > peak {
        peak := equity;
      }
    }

    method ReadExposure(symbol: Symbol, prices: Prices) returns (e: Exposure)
      requires portfolio.Valid()
      ensures e == ExposureAt(portfolio.State(), portfolio.sectors, prices, symbol)
    {
      ghost var b := portfolio.State();
      var equity := portfolio.TotalEquity(prices);
      assert portfolio.State() == b;
      var h := portfolio.GetPosition(symbol);
      assert portfolio.State() == b;
      var sector := portfolio.Exposure(prices, Some(SectorOf(portfolio.sectors, symbol)));
      assert portfolio.State() == b;
      var gross := portfolio.Exposure(prices, None);
      assert portfolio.State() == b;
      e := Exposure(equity, portfolio.cash, AbsR(MarketValue(h, PriceOf(prices, symbol))), sector, gross);
    }

    method Check(order: Order, prices: Prices) returns (decision: Decision)
      requires portfolio.Valid()
      modifies this
      ensures (State(), decision)
              == Checked(limits, portfolio.sectors, old(State()), old(portfolio.State()), order, prices)
    {
      ghost var b := portfolio.State();
      var e := ReadExposure(order.symbol, prices);
      assert portfolio.State() == b;
      var h := portfolio.GetPosition(order.symbol);
      decision := Rule(e, h, order.side, PriceOf(prices, order.symbol), order.quantity);
    }

    method Rule(e: Exposure, h: Holding, side: Side, price: real, quantity: int) returns (decision: Decision)
      modifies this
      ensures (State(), decision) == Decide(limits, old(State()), e, h, side, price, quantity)
    {
      if e.equity <= 0.0 {
        return Refused("zero_equity");
      }
      UpdateEquity(e.equity);
      if peak > 0.0 {
        halted := (e.equity - peak) / peak < -limits.maxDrawdownPct;
        if halted && !IsClosing(h, side) {
          return Refused("max_drawdown");
        }
      }
      if IsOpening(h, side) {
        return OpeningDecision(limits, e, price, quantity);
      }
      return Approved(quantity);
    }
  }

  // ---- What approval means -------------------------------------------------------------------

  /** What the order spends leaves the cash floor, and added to what is held of the symbol, of its sector and overall it
      stays within a share of equity each time. */
  predicate WithinAll(limits: Limits, e: Exposure, price: real, quantity: int) {
    var spent := Worth(price, quantity);
    && spent <= e.cash - Fraction(e.equity, limits.minCashPct)
    && spent <= Fraction(e.equity, limits.maxPositionPct) - e.held
    && spent <= Fraction(e.equity, limits.maxSectorPct) - e.sector
    && spent <= Fraction(e.equity, limits.maxGrossPct) - e.gross
  }

  lemma FallsBelow(peak: real, equity: real, pct: real)
    requires peak > 0.0
    ensures (equity - peak) / peak < -pct <==> equity < peak - Fraction(peak, pct)
  {
    RatioBelow(equity - peak, peak, -pct);
    assert -pct * peak == -Fraction(peak, pct);
  }

  lemma RatioBelow(a: real, b: real, x: real)
    requires b > 0.0
    ensures a / b < x <==> a < x * b
  {
    var y := a / b;
    assert y * b == a;
    assert y < x ==> y * b < x * b;
    assert y >= x ==> y * b >= x * b;
  }

  /** With positive equity every check compares it with its highest value so far: the halt is on after the check exactly
      when equity has fallen below that by more than the limit, and then whatever does not reduce a position is refused
      for it, and nothing else is. */
  lemma DrawdownHaltIsExact(limits: Limits, g: Gate, e: Exposure, h: Holding, side: Side, price: real, quantity: int)
    requires e.equity > 0.0
    ensures var (after, d) := Decide(limits, g, e, h, side, price, quantity);
            var peak := if e.equity > g.peak then e.equity else g.peak;
            var fallen := e.equity < peak - Fraction(peak, limits.maxDrawdownPct);
            && after == Gate(peak, fallen)
            && (d == Refused("max_drawdown") <==> fallen && if side.Sell? then h.quantity <= 0 else h.quantity >= 0)
  {
    FallsBelow(MaxR(g.peak, e.equity), e.equity, limits.maxDrawdownPct);
  }

  /** A priced opening order passes in full exactly when the books are positive, equity has not fallen from its peak by
      more than the limit, and all four limits hold after it. */
  lemma ApprovalIsExact(limits: Limits, g: Gate, e: Exposure, h: Holding, side: Side, price: real, quantity: int)
    requires price > 0.0 && IsOpening(h, side)
    ensures Decide(limits, g, e, h, side, price, quantity).1.Approved? <==>
              var peak := MaxR(g.peak, e.equity);
              && e.equity > 0.0 && e.equity >= peak - Fraction(peak, limits.maxDrawdownPct)
              && WithinAll(limits, e, price, quantity)
    ensures Decide(limits, g, e, h, side, price, quantity).1.Approved? ==>
              Decide(limits, g, e, h, side, price, quantity).1.quantity == quantity
  {
    if e.equity > 0.0 {
      FallsBelow(MaxR(g.peak, e.equity), e.equity, limits.maxDrawdownPct);
    }
  }

  /** An opening order that equity and drawdown let through is refused for the first limit it breaks, of cash, position,
      sector and gross exposure in that order. Where only the position limit is in the way it is reduced to what that
      leaves room for, unless that is not a single share. Without a price it is not checked at all. */
  lemma FirstLimitDecides(limits: Limits, g: Gate, e: Exposure, h: Holding, side: Side, price: real, quantity: int)
    requires e.equity > 0.0 && if side.Buy? then h.quantity >= 0 else h.quantity <= 0
    requires var peak := MaxR(g.peak, e.equity); e.equity >= peak - Fraction(peak, limits.maxDrawdownPct)
    ensures var d, spent := Decide(limits, g, e, h, side, price, quantity).1, Worth(price, quantity);
            var room := Fraction(e.equity, limits.maxPositionPct) - e.held;
            if price <= 0.0 then d == Approved(quantity)
            else if e.cash - spent < Fraction(e.equity, limits.minCashPct) then d == Refused("min_cash")
            else if spent > room then if price > room then d == Refused("max_position_pct") else d.Reduced?
            else if e.sector + spent > Fraction(e.equity, limits.maxSectorPct) then d == Refused("max_sector_pct")
            else if e.gross + spent > Fraction(e.equity, limits.maxGrossPct) then d == Refused("max_gross_exposure")
            else d == Approved(quantity)
  {
    FallsBelow(MaxR(g.peak, e.equity), e.equity, limits.maxDrawdownPct);
    if price > 0.0 {
      OneShareFits(MaxR(0.0, Fraction(e.equity, limits.maxPositionPct) - e.held), price);
    }
  }

  lemma OneShareFits(room: real, price: real)
    requires price > 0.0 && room >= 0.0
    ensures Shares(room, price) >= 1 <==> price <= room
  {
    var q := Shares(room, price);
    if q >= 1 {
      WorthMonotone(price, 1, q);
    } else {
      WorthMonotone(price, q + 1, 1);
    }
  }

  /** What the gate reads off the portfolio before an order: equity, cash, the size of the position in its symbol, and
      the exposure of its sector and of the whole book. */
  lemma ChecksAreOnTheBook(limits: Limits, sectors: map<Symbol, string>, g: Gate, b: Book, o: Order, prices: Prices)
    ensures var price := if o.symbol in prices then prices[o.symbol] else 0.0;
            var q := At(b, o.symbol).quantity;
            var own := if o.symbol in sectors then sectors[o.symbol] else "Unknown";
            var e := Exposure(EquityAt(b, prices), b.cash, AbsR(Worth(price, q)), SectorAt(b, prices, sectors, own),
                              GrossAt(b, prices));
            Checked(limits, sectors, g, b, o, prices)
            == Decide(limits, g, e, At(b, o.symbol), o.side, price, o.quantity)
  {
  }

  /** An order that reduces a position passes whenever equity is positive, halt or no halt. */
  lemma ClosingPasses(limits: Limits, g: Gate, e: Exposure, h: Holding, side: Side, price: real, quantity: int)
    requires h.quantity != 0 && IsClosing(h, side)
    ensures Decide(limits, g, e, h, side, price, quantity).1
            == if e.equity > 0.0 then Approved(quantity) else Refused("zero_equity")
  {
  }

  /** An order sized under the same single-name cap on a flat symbol is never reduced. */
  lemma SizedOrdersKeepQuantity(limits: Limits, g: Gate, e: Exposure, h: Holding, side: Side, price: real,
                                quantity: int)
    requires h.quantity == 0 && e.held == 0.0
    requires Worth(price, quantity) <= Fraction(e.equity, limits.maxPositionPct)
    ensures !Decide(limits, g, e, h, side, price, quantity).1.Reduced?
  {
  }

  /** A reduction fits the single-name cap and is the largest that does; it is smaller than the order. */
  lemma ReductionFits(limits: Limits, e: Exposure, price: real, quantity: int)
    requires price > 0.0 && OpeningDecision(limits, e, price, quantity).Reduced?
    ensures var fits := OpeningDecision(limits, e, price, quantity).quantity;
            && 1 <= fits < quantity
            && WithinPosition(limits, e.held, e.equity, price, fits)
            && !WithinPosition(limits, e.held, e.equity, price, fits + 1)
  {
    var fits := OpeningDecision(limits, e, price, quantity).quantity;
    WorthMonotone(price, 0, fits);
    if quantity <= fits {
      WorthMonotone(price, quantity, fits);
    }
  }

  /** The most shares that the single-name cap leaves room for. */
  function RoomFor(limits: Limits, e: Exposure, price: real): int
    requires price > 0.0
  {
    Shares(MaxR(0.0, Fraction(e.equity, limits.maxPositionPct) - e.held), price)
  }

  /** A reduction returns before the sector and gross checks. An opening order that passes meets all four limits
      at the quantity that passes exactly when it fitted the single-name cap as ordered, or the sector and gross
      limits happen to hold at what that cap leaves room for. */
  lemma PassedMeetsLimits(limits: Limits, g: Gate, e: Exposure, h: Holding, side: Side, price: real, quantity: int)
    requires price > 0.0 && IsOpening(h, side) && !Decide(limits, g, e, h, side, price, quantity).1.Refused?
    ensures WithinAll(limits, e, price, Decide(limits, g, e, h, side, price, quantity).1.quantity) <==>
              || WithinPosition(limits, e.held, e.equity, price, quantity)
              || (var fits := RoomFor(limits, e, price);
                  WithinSector(limits, e.sector, e.equity, price, fits)
                      && WithinGross(limits, e.gross, e.equity, price, fits))
  {
    var d := OpeningDecision(limits, e, price, quantity);
    if d.Reduced? {
      ReductionFits(limits, e, price, quantity);
      WorthMonotone(price, d.quantity, quantity);
    }
  }

  /** The case that fails: on a flat book a purchase of ten shares is cut to five, which break the sector limit. */
  lemma ReductionMayBreakSectorLimit(o: Order, sectors: map<Symbol, string>)
    requires o.side.Buy? && o.quantity == 10
    ensures var limits, b, prices :=
            Limits(0.05, 0.01, 1.0, 0.15, 0.0), Book(100.0, 100.0, map[], []), map[o.symbol := 1.0];
            && Checked(limits, sectors, Gate(100.0, false), b, o, prices).1 == Reduced(5)
            && !WithinSector(limits, ExposureAt(b, sectors, prices, o.symbol).sector, EquityAt(b, prices), 1.0, 5)
  {
    var b, prices := Book(100.0, 100.0, map[], []), map[o.symbol := 1.0];
    assert MarketValues(b, prices) == map[] && Magnitudes(map[]) == map[];
    assert InSector(map[], sectors, SectorOf(sectors, o.symbol)) == map[];
    var fits := Shares(5.0, 1.0);
    assert fits as real <= 5.0 < (fits + 1) as real;
  }

  // ---- The daily guard -----------------------------------------------------------------------

  datatype Day = Day(date: Option<int>, start: Option<real>, halted: bool)

  const NO_DAY := Day(None, None, false)

  datatype DayLimits = DayLimits(maxOpen: int, maxDailyLossPct: real)

  function DayUpdated(d: Day, date: int, equity: real): Day {
    if d.date == Some(date) then d else Day(Some(date), Some(equity), false)
  }

  predicate DailyLossExceeded(limits: DayLimits, d: Day, equity: real) {
    d.start.Some? && d.start.value > 0.0 && (equity - d.start.value) / d.start.value < -limits.maxDailyLossPct
  }

  function CanOpen(limits: DayLimits, d: Day, open: int, equity: real): (Day, bool) {
    if open >= limits.maxOpen || d.halted then (d, false)
    else if DailyLossExceeded(limits, d, equity) then (d.(halted := true), false)
    else (d, true)
  }

  class PortfolioRiskManager {
    const limits: DayLimits
    var date: Option<int>
    var start: Option<real>
    var halted: bool

    ghost function State(): Day
      reads this
    {
      Day(date, start, halted)
    }

    constructor (limits: DayLimits)
      ensures State() == NO_DAY && this.limits == limits
    {
      this.limits, date, start, halted := limits, None, None, false;
    }

    method UpdateDailyEquity(today: int, equity: real)
      modifies this
      ensures State() == DayUpdated(old(State()), today, equity)
    {
      if date != Some(today) {
        date, start, halted := Some(today), Some(equity), false;
      }
    }

    method CanOpenNewPosition(open: int, equity: real) returns (allowed: bool)
      modifies this
      ensures (State(), allowed) == CanOpen(limits, old(State()), open, equity)
    {
      if open >= limits.maxOpen || halted {
        return false;
      }
      if start.Some? && start.value > 0.0 && (equity - start.value) / start.value < -limits.maxDailyLossPct {
        halted := true;
        return false;
      }
      return true;
    }
  }

  /** What the engines ask of the guard: a bar's equity is reported, or a position is to be opened. */
  datatype Query = Update(date: int, equity: real) | Ask(open: int, equity: real)

  function Asked(limits: DayLimits, d: Day, queries: seq<Query>): Day {
    if queries == [] then d
    else
      var before := Asked(limits, d, queries[..|queries| - 1]);
      match queries[|queries| - 1]
      case Update(date, equity) => DayUpdated(before, date, equity)
      case Ask(open, equity) => CanOpen(limits, before, open, equity).0
  }

  /** The day started with equity, and more than the limit of it is lost. */
  predicate Lost(limits: DayLimits, d: Day, equity: real) {
    d.start.Some? && d.start.value > 0.0 && equity < d.start.value - Fraction(d.start.value, limits.maxDailyLossPct)
  }

  /** A position may be opened exactly when a slot is free, the day is not halted, and equity has not fallen below the
      start of the day by more than the limit. Only that last reason halts the day. */
  lemma DailyLossIsExact(limits: DayLimits, d: Day, open: int, equity: real)
    ensures var (after, allowed) := CanOpen(limits, d, open, equity);
            && (allowed <==> open < limits.maxOpen && !d.halted && !Lost(limits, d, equity))
            && after == d.(halted := d.halted || (open < limits.maxOpen && Lost(limits, d, equity)))
  {
    if d.start.Some? && d.start.value > 0.0 {
      FallsBelow(d.start.value, equity, limits.maxDailyLossPct);
    }
  }

  /** The question trips the loss limit: slots are free, and the day's loss is over the limit. */
  predicate Trips(limits: DayLimits, d: Day, q: Query) {
    q.Ask? && q.open < limits.maxOpen && Lost(limits, d, q.equity)
  }

  /** No query of a day is made on another date. */
  ghost predicate SameDate(date: int, queries: seq<Query>) {
    forall i :: 0 <= i < |queries| ==> queries[i].Update? ==> queries[i].date == date
  }

  /** Over any updates and questions of one day, trading is halted exactly when it was to begin with or one of the
      questions tripped the limit at the equity the day started with. */
  lemma {:induction false} HaltLastsTheDay(limits: DayLimits, d: Day, date: int, queries: seq<Query>)
    requires d.date == Some(date) && SameDate(date, queries)
    ensures var after := Asked(limits, d, queries);
            && after.date == d.date && after.start == d.start
            && (after.halted <==> d.halted || exists i :: 0 <= i < |queries| && Trips(limits, d, queries[i]))
            && (after.halted ==> forall open, equity :: !CanOpen(limits, after, open, equity).1)
  {
    if queries != [] {
      var init := queries[..|queries| - 1];
      HaltLastsTheDay(limits, d, date, init);
      if queries[|queries| - 1].Ask? {
        DailyLossIsExact(limits, Asked(limits, d, init), queries[|queries| - 1].open, queries[|queries| - 1].equity);
      }
      assert (exists i :: 0 <= i < |queries| && Trips(limits, d, queries[i]))
        <==> (exists i :: 0 <= i < |init| && Trips(limits, d, init[i])) || Trips(limits, d, queries[|queries| - 1]) by {
        assert forall i :: 0 <= i < |init| ==> init[i] == queries[i];
      }
    }
  }

  /** The next date starts afresh, at the equity it is first reported with. */
  lemma NextDateStartsAfresh(limits: DayLimits, d: Day, date: int, equity: real)
    requires d.date != Some(date)
    ensures DayUpdated(d, date, equity) == Day(Some(date), Some(equity), false)
  {
  }
}
