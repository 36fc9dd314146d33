/** cpat/risk/position_sizing.py: from a capital budget to a whole number of shares and a stop. */
module PositionSizing {
  import opened Models

  datatype StopMethod = AtrStop | FixedStop
  datatype Kind = FixedFractional | InverseVolatility | Kelly

  datatype Config = Config(
    kind: Kind, riskPct: real, stopMethod: StopMethod, fixedStopPct: real, atrMultiplier: real,
    takeProfitMult: Option<real>, maxPositionPct: real, minTradeValue: real,
    winRate: real, avgWin: real, avgLoss: real, maxKelly: real)
  {
    /** The ranges of the configuration schema. */
    predicate Valid() {
      && 0.0 < riskPct <= 0.1 && 0.0 < fixedStopPct <= 0.5 && 0.0 < atrMultiplier <= 10.0
      && 0.0 < maxPositionPct <= 1.0 && minTradeValue >= 0.0
      && 0.0 < winRate < 1.0 && avgWin > 0.0 && avgLoss > 0.0 && 0.0 < maxKelly <= 0.5
    }
  }

  datatype PositionSize = PositionSize(
    quantity: int, entry: real, stop: real, takeProfit: Option<real>, riskPerShare: real, totalRisk: real)
  {
    predicate IsValid() {
      quantity >= 1 && stop > 0.0 && riskPerShare > 0.0
    }
  }

  function ZeroSize(price: real): PositionSize {
    PositionSize(0, price, 0.0, None, 0.0, 0.0)
  }

  function StopPrice(price: real, distance: real, dir: Direction): real {
    if dir.Short? then price + distance else price - distance
  }

  function TakeProfit(price: real, distance: real, mult: Option<real>, dir: Direction): Option<real> {
    if mult.None? then None
    else if dir.Short? then Some(price - mult.value * distance)
    else Some(price + mult.value * distance)
  }

  function StopDistance(cfg: Config, price: real, atr: real): real {
    if cfg.stopMethod.AtrStop? then cfg.atrMultiplier * atr else price * cfg.fixedStopPct
  }

  function TooSmall(cfg: Config, price: real, q: int): bool {
    q < 1 || Worth(price, q) < cfg.minTradeValue
  }

  function Sized(price: real, q: int, stop: real, distance: real, mult: Option<real>, dir: Direction): PositionSize {
    PositionSize(q, price, stop, TakeProfit(price, distance, mult, dir), distance, Worth(distance, q))
  }

  function FixedFractionalSize(cfg: Config, price: real, equity: real, atr: real, budget: Option<real>,
                               dir: Direction): PositionSize {
    if price <= 0.0 || equity <= 0.0 then ZeroSize(price)
    else if cfg.stopMethod.AtrStop? && atr <= 0.0 then ZeroSize(price)
    else
      var distance := StopDistance(cfg, price, atr);
      var stop := StopPrice(price, distance, dir);
      if stop <= 0.0 then ZeroSize(price)
      else
        var fixed := Fraction(equity, cfg.riskPct);
        var capped := MinR(MinR(fixed, if budget.Some? then budget.value else fixed),
                           Fraction(equity, cfg.maxPositionPct));
        var q := Shares(capped, price);
        if TooSmall(cfg, price, q) then ZeroSize(price)
        else Sized(price, q, stop, distance, cfg.takeProfitMult, dir)
  }

  function InverseVolatilitySize(cfg: Config, price: real, equity: real, atr: real, budget: Option<real>,
                                 dir: Direction): PositionSize
    requires cfg.Valid()
  {
    if price <= 0.0 || equity <= 0.0 then ZeroSize(price)
    else if cfg.stopMethod.AtrStop? && atr <= 0.0 then ZeroSize(price)
    else
      var distance := StopDistance(cfg, price, atr);
      var stop := StopPrice(price, distance, dir);
      if stop <= 0.0 then ZeroSize(price)
      else
        DistanceIsPositive(cfg, price, atr);
        var most := Fraction(equity, cfg.maxPositionPct);
        var cap := if budget.Some? then budget.value else most;
        var q := Floor3(Fraction(equity, cfg.riskPct) / distance, cap / price, most / price);
        if TooSmall(cfg, price, q) then ZeroSize(price)
        else Sized(price, q, stop, distance, cfg.takeProfitMult, dir)
  }

  function Floor3(a: real, b: real, c: real): int {
    MinR(MinR(a, b), c).Floor
  }

  lemma DistanceIsPositive(cfg: Config, price: real, atr: real)
    requires cfg.Valid() && price > 0.0 && (cfg.stopMethod.AtrStop? ==> atr > 0.0)
    ensures StopDistance(cfg, price, atr) > 0.0
  {
  }

  function KellyFraction(cfg: Config): real
    requires cfg.avgWin > 0.0
  {
    (cfg.winRate * cfg.avgWin - (1.0 - cfg.winRate) * cfg.avgLoss) / cfg.avgWin
  }

  function KellySize(cfg: Config, price: real, equity: real, atr: real, budget: Option<real>,
                     dir: Direction): PositionSize {
    if price <= 0.0 || equity <= 0.0 then ZeroSize(price)
    else if cfg.avgWin <= 0.0 then ZeroSize(price)
    else
      var fraction := KellyFraction(cfg);
      if fraction <= 0.0 then ZeroSize(price)
      else
        var most := Fraction(equity, cfg.maxPositionPct);
        var cap := if budget.Some? then budget.value else most;
        var q := Shares(MinR(MinR(Fraction(equity, MinR(0.5 * fraction, cfg.maxKelly)), cap), most), price);
        if TooSmall(cfg, price, q) then ZeroSize(price)
        else
          var distance := if cfg.stopMethod.AtrStop? && atr <= 0.0 then price * 0.02 else StopDistance(cfg, price, atr);
          Sized(price, q, MaxR(StopPrice(price, distance, dir), 0.01), distance, Some(3.0), dir)
  }

  function Compute(cfg: Config, price: real, equity: real, atr: real, budget: Option<real>,
                   dir: Direction): PositionSize
    requires cfg.Valid()
  {
    match cfg.kind
    case FixedFractional => FixedFractionalSize(cfg, price, equity, atr, budget, dir)
    case InverseVolatility => InverseVolatilitySize(cfg, price, equity, atr, budget, dir)
    case Kelly => KellySize(cfg, price, equity, atr, budget, dir)
  }

  // ---- What the floors guarantee -------------------------------------------------------------

  lemma FloorFits(a: real, b: real, c: real, q: int)
    requires q == Floor3(a, b, c)
    ensures q as real <= a && q as real <= b && q as real <= c
    ensures (q + 1) as real > a || (q + 1) as real > b || (q + 1) as real > c
  {
  }

  /** How far from the entry the stop is planned: a multiple of the ATR, or a share of the price. The Kelly sizer
      falls back on 2 percent where there is no ATR. */
  function PlannedWidth(cfg: Config, price: real, atr: real): real {
    if cfg.stopMethod.FixedStop? then Fraction(price, cfg.fixedStopPct)
    else if cfg.kind.Kelly? && atr <= 0.0 then Fraction(price, 0.02)
    else Fraction(atr, cfg.atrMultiplier)
  }

  /** The Kelly criterion on the odds of the configuration. */
  function Edge(cfg: Config): real
    requires cfg.Valid()
  {
    cfg.winRate - (1.0 - cfg.winRate) / (cfg.avgWin / cfg.avgLoss)
  }

  lemma EdgeIsKellyFraction(cfg: Config)
    requires cfg.Valid()
    ensures KellyFraction(cfg) == Edge(cfg)
  {
    var w, a, l := cfg.winRate, cfg.avgWin, cfg.avgLoss;
    var odds, f := a / l, KellyFraction(cfg);
    assert odds * l == a && odds > 0.0;
    var x := (1.0 - w) / odds;
    assert x * odds == 1.0 - w;
    assert x * a == (1.0 - w) * l;
    assert f * a == w * a - (1.0 - w) * l == (w - x) * a;
  }

  lemma WidthIsDistance(cfg: Config, price: real, atr: real)
    ensures PlannedWidth(cfg, price, atr)
            == if cfg.kind.Kelly? && cfg.stopMethod.AtrStop? && atr <= 0.0 then price * 0.02
               else StopDistance(cfg, price, atr)
  {
  }

  /** What every limit the sizer works under allows: the slice, the single-name cap, and the sizer's own budget, which
      is a share of equity to spend, to lose at the stop, or half the Kelly share up to its maximum. */
  predicate Allowed(cfg: Config, price: real, equity: real, atr: real, budget: real, n: int)
    requires cfg.Valid()
  {
    && Worth(price, n) <= budget
    && Worth(price, n) <= Fraction(equity, cfg.maxPositionPct)
    && match cfg.kind
       case FixedFractional => Worth(price, n) <= Fraction(equity, cfg.riskPct)
       case InverseVolatility => Worth(PlannedWidth(cfg, price, atr), n) <= Fraction(equity, cfg.riskPct)
       case Kelly => Worth(price, n) <= Fraction(equity, MinR(0.5 * Edge(cfg), cfg.maxKelly))
  }

  /** A sized trade is the largest one that the capital slice, the single-name cap and the sizer's own budget
      all allow, and is worth at least the minimum. */
  lemma SizeIsLargestAllowed(cfg: Config, price: real, equity: real, atr: real, budget: real, dir: Direction)
    requires cfg.Valid() && Compute(cfg, price, equity, atr, Some(budget), dir).quantity != 0
    ensures var r := Compute(cfg, price, equity, atr, Some(budget), dir);
            && r.quantity >= 1 && price > 0.0 && equity > 0.0
            && Worth(price, r.quantity) >= cfg.minTradeValue
            && Allowed(cfg, price, equity, atr, budget, r.quantity)
            && !Allowed(cfg, price, equity, atr, budget, r.quantity + 1)
            && r.totalRisk == Worth(r.riskPerShare, r.quantity)
            && r.stop > 0.0
  {
    var r := Compute(cfg, price, equity, atr, Some(budget), dir);
    if cfg.kind.Kelly? {
      EdgeIsKellyFraction(cfg);
    } else if cfg.kind.InverseVolatility? {
      WidthIsDistance(cfg, price, atr);
      var distance := StopDistance(cfg, price, atr);
      DistanceIsPositive(cfg, price, atr);
      var risk, most := Fraction(equity, cfg.riskPct), Fraction(equity, cfg.maxPositionPct);
      FloorFits(risk / distance, budget / price, most / price, r.quantity);
      QuotientFits(risk, distance, r.quantity);
      QuotientFits(budget, price, r.quantity);
      QuotientFits(most, price, r.quantity);
      QuotientFits(risk, distance, r.quantity + 1);
      QuotientFits(budget, price, r.quantity + 1);
      QuotientFits(most, price, r.quantity + 1);
    }
  }

  /** A trade can be planned: its stop is above zero, or the odds are worth a bet. */
  predicate Plannable(cfg: Config, price: real, atr: real, dir: Direction)
    requires cfg.Valid()
  {
    if cfg.kind.Kelly? then Edge(cfg) > 0.0
    else (cfg.stopMethod.AtrStop? ==> atr > 0.0) && (dir.Short? || PlannedWidth(cfg, price, atr) < price)
  }

  /** Some whole number of shares is allowed and worth the minimum. */
  ghost predicate Affords(cfg: Config, price: real, equity: real, atr: real, budget: real)
    requires cfg.Valid()
  {
    exists n :: n >= 1 && Allowed(cfg, price, equity, atr, budget, n) && Worth(price, n) >= cfg.minTradeValue
  }

  /** A trade gets a size exactly when price and equity are positive, it can be planned, and some whole number of shares
      is allowed and worth the minimum. */
  lemma SizedExactly(cfg: Config, price: real, equity: real, atr: real, budget: real, dir: Direction)
    requires cfg.Valid()
    ensures Compute(cfg, price, equity, atr, Some(budget), dir).quantity != 0 <==>
              price > 0.0 && equity > 0.0 && Plannable(cfg, price, atr, dir)
              && Affords(cfg, price, equity, atr, budget)
  {
    PlanOf(cfg, price, atr, dir);
    if Compute(cfg, price, equity, atr, Some(budget), dir).quantity != 0 {
      SizeIsLargestAllowed(cfg, price, equity, atr, budget, dir);
    } else if price > 0.0 && equity > 0.0 && Plannable(cfg, price, atr, dir) {
      forall n | n >= 1 && Allowed(cfg, price, equity, atr, budget, n) ensures Worth(price, n) < cfg.minTradeValue {
        UnsizedIsTooSmall(cfg, price, equity, atr, budget, dir, n);
      }
    }
  }

  lemma PlanOf(cfg: Config, price: real, atr: real, dir: Direction)
    requires cfg.Valid()
    ensures if cfg.kind.Kelly? then Plannable(cfg, price, atr, dir) <==> KellyFraction(cfg) > 0.0
            else Plannable(cfg, price, atr, dir) <==>
              (cfg.stopMethod.AtrStop? ==> atr > 0.0) && (dir.Short? || StopDistance(cfg, price, atr) < price)
  {
    EdgeIsKellyFraction(cfg);
    WidthIsDistance(cfg, price, atr);
  }

  lemma UnsizedIsTooSmall(cfg: Config, price: real, equity: real, atr: real, budget: real, dir: Direction, n: int)
    requires cfg.Valid() && price > 0.0 && equity > 0.0 && Plannable(cfg, price, atr, dir)
    requires Compute(cfg, price, equity, atr, Some(budget), dir).quantity == 0
    requires n >= 1 && Allowed(cfg, price, equity, atr, budget, n)
    ensures Worth(price, n) < cfg.minTradeValue
  {
    PlanOf(cfg, price, atr, dir);
    var most := Fraction(equity, cfg.maxPositionPct);
    match cfg.kind {
      case FixedFractional =>
        BelowShares(MinR(MinR(Fraction(equity, cfg.riskPct), budget), most), price, n);
      case Kelly =>
        EdgeIsKellyFraction(cfg);
        BelowShares(MinR(MinR(Fraction(equity, MinR(0.5 * KellyFraction(cfg), cfg.maxKelly)), budget), most), price, n);
      case InverseVolatility =>
        var distance, risk := StopDistance(cfg, price, atr), Fraction(equity, cfg.riskPct);
        DistanceIsPositive(cfg, price, atr);
        WidthIsDistance(cfg, price, atr);
        var q := Floor3(risk / distance, budget / price, most / price);
        FloorFits(risk / distance, budget / price, most / price, q);
        QuotientFits(risk, distance, n);
        QuotientFits(budget, price, n);
        QuotientFits(most, price, n);
        WorthMonotone(price, n, q);
    }
  }

  lemma BelowShares(budget: real, price: real, n: int)
    requires price > 0.0 && Worth(price, n) <= budget
    ensures n <= Shares(budget, price) && Worth(price, n) <= Worth(price, Shares(budget, price))
  {
    var q := Shares(budget, price);
    if n > q {
      WorthMonotone(price, q + 1, n);
    } else {
      WorthMonotone(price, n, q);
    }
  }

  /** The documentation promises that the fixed-fractional sizer risks exactly the configured fraction.
      The code spends that fraction as capital, so a long trade always risks less than it. */
  lemma FixedFractionalRisksLess(cfg: Config, price: real, equity: real, atr: real, budget: Option<real>)
    requires cfg.Valid() && FixedFractionalSize(cfg, price, equity, atr, budget, Long).quantity != 0
    ensures FixedFractionalSize(cfg, price, equity, atr, budget, Long).totalRisk < Fraction(equity, cfg.riskPct)
  {
    var r := FixedFractionalSize(cfg, price, equity, atr, budget, Long);
    WorthDiffers(price, r.riskPerShare, r.quantity);
    WorthMonotone(price - r.riskPerShare, 0, r.quantity);
  }

  /** A long trade that leaves at its stop loses exactly the planned risk, and at its target gains that risk times
      the multiple. The Kelly sizer keeps the stop at or above 0.01, which can only lower the loss. */
  lemma StopLosesPlannedRisk(cfg: Config, price: real, equity: real, atr: real, budget: Option<real>)
    requires cfg.Valid() && Compute(cfg, price, equity, atr, budget, Long).quantity != 0
    ensures var r := Compute(cfg, price, equity, atr, budget, Long);
            var loss, mult := Worth(price - r.stop, r.quantity), if cfg.kind.Kelly? then Some(3.0)
                else cfg.takeProfitMult;
            && r.riskPerShare == PlannedWidth(cfg, price, atr) > 0.0 && r.entry == price
            && (cfg.kind.Kelly? ==> r.stop >= 0.01 && loss <= r.totalRisk
                                    && (loss == r.totalRisk <==> price - r.riskPerShare >= 0.01))
            && (!cfg.kind.Kelly? ==> 0.0 < r.stop < price && loss == r.totalRisk)
            && (mult.Some? <==> r.takeProfit.Some?)
            && (mult.Some? ==> r.takeProfit.value - price == Fraction(mult.value, r.riskPerShare))
  {
    var distance := PlannedDistance(cfg, price, equity, atr, budget, Long);
    var r := Compute(cfg, price, equity, atr, budget, Long);
    var loss := price - r.stop;
    if loss != distance {
      WorthDiffers(distance, loss, r.quantity);
      WorthMonotone(distance - loss, 0, r.quantity);
    }
    TargetDistance(price, distance, if cfg.kind.Kelly? then Some(3.0) else cfg.takeProfitMult);
  }

  /** In either direction the stop of a sized trade lies the planned width beyond the entry, no lower than 0.01 for the
      Kelly sizer, and the target a multiple of that width on the other side. */
  lemma StopAndTarget(cfg: Config, price: real, equity: real, atr: real, budget: Option<real>, dir: Direction)
    requires cfg.Valid() && Compute(cfg, price, equity, atr, budget, dir).quantity != 0
    ensures var r, width := Compute(cfg, price, equity, atr, budget, dir), PlannedWidth(cfg, price, atr);
            var mult := if cfg.kind.Kelly? then Some(3.0) else cfg.takeProfitMult;
            var stop := if dir.Short? then price + width else price - width;
            && r.entry == price && r.riskPerShare == width && r.totalRisk == Worth(width, r.quantity)
            && r.stop == (if cfg.kind.Kelly? && stop < 0.01 then 0.01 else stop)
            && r.takeProfit == match mult
                               case None => None
                               case Some(m) => Some(if dir.Short? then price - m * width else price + m * width)
  {
    var distance := PlannedDistance(cfg, price, equity, atr, budget, dir);
  }

  lemma TargetDistance(price: real, distance: real, mult: Option<real>)
    ensures var target := TakeProfit(price, distance, mult, Long);
            (mult.Some? <==> target.Some?) && (mult.Some? ==> target.value - price == Fraction(mult.value, distance))
  {
  }

  /** The stop distance that a trade is planned with. */
  lemma PlannedDistance(cfg: Config, price: real, equity: real, atr: real, budget: Option<real>, dir: Direction)
    returns (distance: real)
    requires cfg.Valid() && Compute(cfg, price, equity, atr, budget, dir).quantity != 0
    ensures var r := Compute(cfg, price, equity, atr, budget, dir);
            var mult := if cfg.kind.Kelly? then Some(3.0) else cfg.takeProfitMult;
            var stop := StopPrice(price, distance, dir);
            && distance == PlannedWidth(cfg, price, atr) > 0.0 && r.quantity >= 1 && (!cfg.kind.Kelly? ==> stop > 0.0)
            && r == Sized(price, r.quantity, if cfg.kind.Kelly? then MaxR(stop, 0.01) else stop, distance, mult, dir)
  {
    WidthIsDistance(cfg, price, atr);
    match cfg.kind {
      case Kelly =>
        distance := if cfg.stopMethod.AtrStop? && atr <= 0.0 then price * 0.02 else StopDistance(cfg, price, atr);
      case _ =>
        distance := StopDistance(cfg, price, atr);
    }
    if !(cfg.stopMethod.AtrStop? && atr <= 0.0) {
      DistanceIsPositive(cfg, price, atr);
    }
  }
}
