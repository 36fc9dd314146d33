/** cpat/portfolio/allocator.py: how deployable capital is split over the opening signals. */
module Allocator {
  import opened Models
  import opened Totals

  type Amounts = map<Symbol, real>

  const TOLERANCE := 0.000000001

  // ---- One round of redistribution -----------------------------------------------------------

  function Room(cap: real, held: real): real {
    MaxR(0.0, cap - held)
  }

  function Desired(left: real, weight: real, weightTotal: real): real
    requires weightTotal > 0.0
  {
    left * (weight / weightTotal)
  }

  function Given(left: real, weight: real, weightTotal: real, cap: real, held: real): real
    requires weightTotal > 0.0
  {
    MinR(Desired(left, weight, weightTotal), Room(cap, held))
  }

  predicate Capped(left: real, weight: real, weightTotal: real, cap: real, held: real)
    requires weightTotal > 0.0
  {
    Room(cap, held) - Given(left, weight, weightTotal, cap, held) <= TOLERANCE
  }

  function Round(weights: Amounts, cap: real, held: Amounts, remaining: set<Symbol>, left: real,
                 weightTotal: real): Amounts
    requires remaining <= weights.Keys == held.Keys && weightTotal > 0.0
  {
    map s | s in held :: if s in remaining then held[s] + Given(left, weights[s], weightTotal, cap, held[s])
        else held[s]
  }

  function CappedIn(weights: Amounts, cap: real, held: Amounts, remaining: set<Symbol>, left: real,
                    weightTotal: real): set<Symbol>
    requires remaining <= weights.Keys == held.Keys && weightTotal > 0.0
  {
    set s | s in remaining && Capped(left, weights[s], weightTotal, cap, held[s])
  }

  ghost function LeftOver(deployable: real, held: Amounts): real {
    MaxR(0.0, deployable - Total(held))
  }

  /** The rounds from a given state to the end. Every round removes a symbol or is the last. */
  ghost function Filled(weights: Amounts, deployable: real, cap: real, held: Amounts, remaining: set<Symbol>): Amounts
    requires remaining <= weights.Keys == held.Keys
    decreases |remaining|
  {
    var left := LeftOver(deployable, held);
    var weightTotal := Total(Only(weights, remaining));
    if remaining == {} || left <= TOLERANCE || weightTotal <= 0.0 then held
    else
      var next := Round(weights, cap, held, remaining, left, weightTotal);
      var capped := CappedIn(weights, cap, held, remaining, left, weightTotal);
      if capped == {} then next
      else
        assert remaining - capped < remaining;
        CardinalityDrops(remaining, capped);
        Filled(weights, deployable, cap, next, remaining - capped)
  }

  lemma CardinalityDrops(all: set<Symbol>, gone: set<Symbol>)
    requires gone <= all && gone != {}
    ensures |all - gone| < |all|
  {
    assert |all - gone| + |gone| == |all| by {
      assert all == (all - gone) + gone;
    }
  }

  function Nothing(weights: Amounts): Amounts {
    map s | s in weights :: 0.0
  }

  ghost function CapsApplied(weights: Amounts, deployable: real, cap: real): Amounts {
    if deployable <= 0.0 || weights == map[] then Nothing(weights)
    else Filled(weights, deployable, cap, Nothing(weights), weights.Keys)
  }

  /** The loops of `_apply_caps`. The inner loop takes the symbols in any order. */
  method ApplyCaps(weights: Amounts, deployable: real, cap: real) returns (held: Amounts)
    ensures held == CapsApplied(weights, deployable, cap)
  {
    held := Nothing(weights);
    if deployable <= 0.0 || weights == map[] {
      return;
    }
    var remaining, left := weights.Keys, deployable;
    ghost var goal := CapsApplied(weights, deployable, cap);
    NothingIsZero(weights);
    while remaining != {} && left > TOLERANCE
      invariant remaining <= weights.Keys == held.Keys
      invariant left == LeftOver(deployable, held)
      invariant Filled(weights, deployable, cap, held, remaining) == goal
      decreases |remaining|
    {
      var weightTotal := SumOver(weights, remaining);
      if weightTotal <= 0.0 {
        break;
      }
      var next, capped := PlayRound(weights, cap, held, remaining, left, weightTotal);
      OneRound(weights, deployable, cap, held, remaining, weightTotal, next, capped);
      held := next;
      left := CapitalLeft(deployable, held);
      if capped == {} {
        return;
      }
      CardinalityDrops(remaining, capped);
      remaining := remaining - capped;
    }
  }

  lemma OneRound(weights: Amounts, deployable: real, cap: real, held: Amounts, remaining: set<Symbol>,
                 weightTotal: real, next: Amounts, capped: set<Symbol>)
    requires remaining <= weights.Keys == held.Keys && remaining != {}
    requires LeftOver(deployable, held) > TOLERANCE && weightTotal == Total(Only(weights, remaining)) > 0.0
    requires next == Round(weights, cap, held, remaining, LeftOver(deployable, held), weightTotal)
    requires capped == CappedIn(weights, cap, held, remaining, LeftOver(deployable, held), weightTotal)
    ensures next.Keys == weights.Keys && capped <= remaining
    ensures Filled(weights, deployable, cap, held, remaining)
            == if capped == {} then next else Filled(weights, deployable, cap, next, remaining - capped)
  {
  }

  /** The inner loop. */
  method PlayRound(weights: Amounts, cap: real, held: Amounts, remaining: set<Symbol>, left: real, weightTotal: real)
    returns (next: Amounts, capped: set<Symbol>)
    requires remaining <= weights.Keys == held.Keys && weightTotal > 0.0
    ensures next == Round(weights, cap, held, remaining, left, weightTotal)
    ensures capped == CappedIn(weights, cap, held, remaining, left, weightTotal)
  {
    next, capped := held, {};
    var todo := remaining;
    while todo != {}
      invariant todo <= remaining
      invariant next == Round(weights, cap, held, remaining - todo, left, weightTotal)
      invariant capped == CappedIn(weights, cap, held, remaining - todo, left, weightTotal)
      decreases todo
    {
      var s :| s in todo;
      var room := Room(cap, next[s]);
      var share := Given(left, weights[s], weightTotal, cap, next[s]);
      if room - share <= TOLERANCE {
        capped := capped + {s};
      }
      next := next[s := next[s] + share];
      todo := todo - {s};
    }
    assert remaining - todo == remaining;
  }

  method SumOver(m: Amounts, keys: set<Symbol>) returns (total: real)
    requires keys <= m.Keys
    ensures total == Total(Only(m, keys))
  {
    total := 0.0;
    var left := keys;
    while left != {}
      invariant left <= keys
      invariant total + Total(Only(m, left)) == Total(Only(m, keys))
      decreases left
    {
      var s :| s in left;
      OnlyPeel(m, left, s);
      total := total + m[s];
      left := left - {s};
    }
    OnlyNone(m);
  }

  method CapitalLeft(deployable: real, held: Amounts) returns (left: real)
    ensures left == LeftOver(deployable, held)
  {
    var placed := SumOver(held, held.Keys);
    OnlyAll(held, held.Keys);
    left := MaxR(0.0, deployable - placed);
  }

  lemma NothingIsZero(weights: Amounts)
    ensures Total(Nothing(weights)) == 0.0
  {
    TotalIgnoresZeros(Nothing(weights), {});
    OnlyNone(Nothing(weights));
  }

  // ---- Water-filling -------------------------------------------------------------------------

  ghost predicate PositiveWeights(weights: Amounts) {
    forall s :: s in weights ==> weights[s] > 0.0
  }

  /** At level `level` every symbol holds its share of the level up to the cap, within the tolerance. */
  ghost predicate AtLevel(weights: Amounts, cap: real, held: Amounts, level: real)
    requires weights.Keys == held.Keys
  {
    forall s :: s in weights ==>
      MinR(cap, Times(level, weights[s])) - TOLERANCE <= held[s] <= MinR(cap, Times(level, weights[s]))
  }

  /** The loop invariant: symbols still in play sit exactly at the level, the others at the cap. */
  ghost predicate Rising(weights: Amounts, cap: real, held: Amounts, remaining: set<Symbol>, level: real)
    requires weights.Keys == held.Keys
  {
    && level >= 0.0
    && forall s :: s in weights ==>
         && 0.0 <= held[s] <= cap && held[s] <= Times(level, weights[s])
         && (if s in remaining then held[s] == Times(level, weights[s]) else held[s] >= cap - TOLERANCE)
  }

  /** The share each remaining symbol is offered in a round. */
  function Offers(weights: Amounts, remaining: set<Symbol>, left: real, weightTotal: real): Amounts
    requires weightTotal > 0.0
  {
    map s | s in weights :: if s in remaining then Desired(left, weights[s], weightTotal) else 0.0
  }

  lemma DesiredIsProportional(left: real, weight: real, weightTotal: real)
    requires weightTotal > 0.0
    ensures Desired(left, weight, weightTotal) == Times(left / weightTotal, weight)
    ensures left >= 0.0 && weight >= 0.0 ==> Desired(left, weight, weightTotal) >= 0.0
  {
    assert left * (weight / weightTotal) == left * weight / weightTotal;
    assert left / weightTotal * weight == left * weight / weightTotal;
    if left >= 0.0 && weight >= 0.0 {
      assert weight / weightTotal >= 0.0;
    }
  }

  /** The offers of one round add up to what is left. */
  lemma OffersAddUp(weights: Amounts, remaining: set<Symbol>, left: real)
    requires remaining <= weights.Keys && Total(Only(weights, remaining)) > 0.0
    ensures Total(Offers(weights, remaining, left, Total(Only(weights, remaining)))) == left
  {
    var part := Only(weights, remaining);
    var weightTotal := Total(part);
    var offers := Offers(weights, remaining, left, weightTotal);
    TotalIgnoresZeros(offers, remaining);
    forall s | s in part ensures Only(offers, remaining)[s] == Times(left / weightTotal, part[s]) {
      DesiredIsProportional(left, weights[s], weightTotal);
    }
    TotalScale(part, left / weightTotal, Only(offers, remaining));
    WholeShare(left, weightTotal);
  }

  lemma WholeShare(left: real, weightTotal: real)
    requires weightTotal > 0.0
    ensures Times(left / weightTotal, weightTotal) == left
  {
  }

  lemma LevelRises(level: real, step: real, weight: real)
    requires step >= 0.0 && weight > 0.0
    ensures Times(level + step, weight) == Times(level, weight) + Times(step, weight)
    ensures Times(step, weight) >= 0.0
  {
  }

  lemma RoundRaisesLevel(weights: Amounts, cap: real, held: Amounts, remaining: set<Symbol>, left: real, level: real)
    returns (higher: real)
    requires PositiveWeights(weights) && remaining <= weights.Keys == held.Keys
    requires Rising(weights, cap, held, remaining, level) && left >= 0.0
    requires Total(Only(weights, remaining)) > 0.0
    ensures var weightTotal := Total(Only(weights, remaining));
            && higher >= level
            && Rising(weights, cap, Round(weights, cap, held, remaining, left, weightTotal),
                      remaining - CappedIn(weights, cap, held, remaining, left, weightTotal), higher)
  {
    var weightTotal := Total(Only(weights, remaining));
    var step := left / weightTotal;
    assert step >= 0.0;
    higher := level + step;
    var next := Round(weights, cap, held, remaining, left, weightTotal);
    var after := remaining - CappedIn(weights, cap, held, remaining, left, weightTotal);
    forall s | s in weights
      ensures 0.0 <= next[s] <= cap && next[s] <= Times(level + step, weights[s])
      ensures if s in after then next[s] == Times(level + step, weights[s]) else next[s] >= cap - TOLERANCE
    {
      LevelRises(level, step, weights[s]);
      DesiredIsProportional(left, weights[s], weightTotal);
    }
  }

  lemma RoundConserves(weights: Amounts, deployable: real, cap: real, held: Amounts, remaining: set<Symbol>)
    requires remaining <= weights.Keys == held.Keys && Total(Only(weights, remaining)) > 0.0
    requires Total(held) <= deployable
    ensures var weightTotal, left := Total(Only(weights, remaining)), LeftOver(deployable, held);
            var next := Round(weights, cap, held, remaining, left, weightTotal);
            && Total(next) <= deployable
            && (CappedIn(weights, cap, held, remaining, left, weightTotal) == {} ==> Total(next) == deployable)
  {
    var weightTotal, left := Total(Only(weights, remaining)), LeftOver(deployable, held);
    var next := Round(weights, cap, held, remaining, left, weightTotal);
    var offers := Offers(weights, remaining, left, weightTotal);
    var most := map s | s in held :: held[s] + offers[s];
    OffersAddUp(weights, remaining, left);
    TotalSum(held, offers, most);
    TotalMonotone(next, most);
    if CappedIn(weights, cap, held, remaining, left, weightTotal) == {} {
      forall s | s in remaining ensures next[s] == most[s] {
        assert s !in CappedIn(weights, cap, held, remaining, left, weightTotal);
      }
      assert next == most;
    }
  }

  lemma RisingIsAtLevel(weights: Amounts, cap: real, held: Amounts, remaining: set<Symbol>, level: real)
    requires weights.Keys == held.Keys && Rising(weights, cap, held, remaining, level)
    ensures AtLevel(weights, cap, held, level)
  {
  }

  lemma StartIsRising(weights: Amounts, cap: real)
    requires cap >= 0.0
    ensures Rising(weights, cap, Nothing(weights), weights.Keys, 0.0)
    ensures Total(Nothing(weights)) == 0.0
  {
    NothingIsZero(weights);
    forall s | s in weights ensures Times(0.0, weights[s]) == 0.0 {
    }
  }

  /** The result of the rounds: one level for all, never more than there is, and all of it unless every
      symbol is full. */
  ghost predicate WaterFilled(weights: Amounts, deployable: real, cap: real, r: Amounts, level: real) {
    && r.Keys == weights.Keys && level >= 0.0 && AtLevel(weights, cap, r, level)
    && (forall s :: s in r ==> 0.0 <= r[s] <= cap)
    && Total(r) <= deployable
    && (Total(r) >= deployable - TOLERANCE || forall s :: s in r ==> r[s] >= cap - TOLERANCE)
  }

  lemma {:induction false} FilledIsWaterFilling(weights: Amounts, deployable: real, cap: real, held: Amounts,
                                                remaining: set<Symbol>, level: real) returns (top: real)
    requires PositiveWeights(weights) && remaining <= weights.Keys == held.Keys
    requires Rising(weights, cap, held, remaining, level) && Total(held) <= deployable
    ensures WaterFilled(weights, deployable, cap, Filled(weights, deployable, cap, held, remaining), top)
    decreases |remaining|
  {
    var left := LeftOver(deployable, held);
    var weightTotal := Total(Only(weights, remaining));
    if remaining == {} || left <= TOLERANCE {
      top := level;
      RisingIsAtLevel(weights, cap, held, remaining, level);
    } else {
      SomeWeightIsPositive(weights, remaining);
      var next := Round(weights, cap, held, remaining, left, weightTotal);
      var capped := CappedIn(weights, cap, held, remaining, left, weightTotal);
      var higher := RoundRaisesLevel(weights, cap, held, remaining, left, level);
      RoundConserves(weights, deployable, cap, held, remaining);
      if capped == {} {
        assert remaining - capped == remaining;
        top := higher;
        RisingIsAtLevel(weights, cap, next, remaining, top);
      } else {
        CardinalityDrops(remaining, capped);
        top := FilledIsWaterFilling(weights, deployable, cap, next, remaining - capped, higher);
      }
    }
  }

  lemma SomeWeightIsPositive(weights: Amounts, keys: set<Symbol>)
    requires PositiveWeights(weights) && keys <= weights.Keys && keys != {}
    ensures Total(Only(weights, keys)) > 0.0
  {
    var s :| s in keys;
    OnlyPeel(weights, keys, s);
    TotalNonNegative(Only(weights, keys - {s}));
  }

  /** `_apply_caps` fills every symbol to one common level of capital per unit of weight, cut off at the cap;
      it never places more than it has, and places all of it unless every symbol is full. */
  lemma CapsAreWaterFilling(weights: Amounts, deployable: real, cap: real) returns (level: real)
    requires PositiveWeights(weights) && cap >= 0.0
    ensures WaterFilled(weights, MaxR(0.0, deployable), cap, CapsApplied(weights, deployable, cap), level)
  {
    var zero := Nothing(weights);
    StartIsRising(weights, cap);
    if deployable <= 0.0 || weights == map[] {
      level := 0.0;
      RisingIsAtLevel(weights, cap, zero, weights.Keys, 0.0);
    } else {
      level := FilledIsWaterFilling(weights, deployable, cap, zero, weights.Keys, 0.0);
    }
  }

  /** The capital placed is the smaller of what there is and what the caps allow, up to one tolerance a symbol. */
  lemma CapsPlaceAll(weights: Amounts, deployable: real, cap: real)
    requires PositiveWeights(weights) && cap >= 0.0
    ensures var most := MinR(MaxR(0.0, deployable), Times(|weights| as real, cap));
            var placed := Total(CapsApplied(weights, deployable, cap));
            most - Times(|weights| as real + 1.0, TOLERANCE) <= placed <= most
  {
    var r := CapsApplied(weights, deployable, cap);
    var level := CapsAreWaterFilling(weights, deployable, cap);
    var n := |weights| as real;
    assert |r.Keys| == |weights.Keys|;
    TotalBetween(r, 0.0, cap);
    TolerancesAddUp(n, cap);
    if forall s :: s in r ==> r[s] >= cap - TOLERANCE {
      TotalBetween(r, cap - TOLERANCE, cap);
    }
  }

  lemma TolerancesAddUp(n: real, cap: real)
    requires n >= 0.0
    ensures Times(n, cap - TOLERANCE) == Times(n, cap) - Times(n, TOLERANCE)
    ensures Times(n + 1.0, TOLERANCE) == Times(n, TOLERANCE) + TOLERANCE && Times(n, TOLERANCE) >= 0.0
  {
  }

  // ---- The two allocators --------------------------------------------------------------------

  datatype Weighting = EqualWeight | VolatilityAdjusted

  datatype Config = Config(weighting: Weighting, maxPositionPct: real, minCashPct: real)
  {
    /** The ranges of the configuration schema. */
    predicate Valid() {
      0.0 < maxPositionPct <= 1.0 && 0.0 <= minCashPct <= 0.5
    }
  }

  datatype Slice = Slice(symbol: Symbol, target: real, weight: real, sigma: real)

  /** The volatility estimate of a symbol; zero when there is too little history. */
  function SigmaOf(sigmas: Amounts, s: Symbol): real {
    if s in sigmas then sigmas[s] else 0.0
  }

  function KnownSigmas(signals: seq<Symbol>, sigmas: Amounts): Amounts {
    map s | s in signals && SigmaOf(sigmas, s) > 0.0 :: SigmaOf(sigmas, s)
  }

  ghost function FallbackSigma(signals: seq<Symbol>, sigmas: Amounts): real {
    var known := KnownSigmas(signals, sigmas);
    if known == map[] then 1.0 else Total(known) / |known| as real
  }

  function Reciprocal(x: real): real {
    if x == 0.0 then 0.0 else 1.0 / x
  }

  function InverseSigmas(signals: seq<Symbol>, sigmas: Amounts, fallback: real): Amounts {
    map s | s in signals :: Reciprocal(MaxR(SigmaOf(sigmas, s), fallback))
  }

  function Normalised(m: Amounts, total: real): Amounts
    requires total != 0.0
  {
    map s | s in m :: m[s] / total
  }

  ghost function Weights(weighting: Weighting, signals: seq<Symbol>, sigmas: Amounts): Amounts
  {
    match weighting
    case EqualWeight => map s | s in signals :: Reciprocal(|signals| as real)
    case VolatilityAdjusted =>
      var inverse := InverseSigmas(signals, sigmas, FallbackSigma(signals, sigmas));
      if Total(inverse) == 0.0 then map[] else Normalised(inverse, Total(inverse))
  }

  function Deployable(cfg: Config, cash: real): real {
    MaxR(0.0, Fraction(cash, 1.0 - cfg.minCashPct))
  }

  lemma CapIsPositive(cfg: Config, equity: real)
    requires cfg.Valid() && equity > 0.0
    ensures Fraction(equity, cfg.maxPositionPct) > 0.0
  {
  }

  ghost function Targets(cfg: Config, signals: seq<Symbol>, equity: real, cash: real, sigmas: Amounts): Amounts {
    if equity <= 0.0 then map[]
    else CapsApplied(Weights(cfg.weighting, signals, sigmas), Deployable(cfg, cash),
                     Fraction(equity, cfg.maxPositionPct))
  }

  lemma KnownSigmasPositive(signals: seq<Symbol>, sigmas: Amounts)
    ensures FallbackSigma(signals, sigmas) > 0.0
  {
    var known := KnownSigmas(signals, sigmas);
    if known != map[] {
      var s :| s in known;
      TotalPeel(known, s);
      TotalNonNegative(known - {s});
      assert |known| > 0;
      PositiveQuotient(Total(known), |known| as real);
    }
  }

  lemma PositiveQuotient(a: real, b: real)
    requires a > 0.0 && b > 0.0
    ensures a / b > 0.0
  {
  }

  /** Every signal gets a positive weight, whatever the volatility data. */
  lemma WeightsArePositive(weighting: Weighting, signals: seq<Symbol>, sigmas: Amounts)
    ensures PositiveWeights(Weights(weighting, signals, sigmas))
    ensures Weights(weighting, signals, sigmas).Keys == set s | s in signals
  {
    if weighting.EqualWeight? {
      if signals != [] {
        PositiveQuotient(1.0, |signals| as real);
      }
    } else {
      var fallback := FallbackSigma(signals, sigmas);
      KnownSigmasPositive(signals, sigmas);
      var inverse := InverseSigmas(signals, sigmas, fallback);
      forall s | s in inverse ensures inverse[s] > 0.0 {
        PositiveQuotient(1.0, MaxR(SigmaOf(sigmas, s), fallback));
      }
      if signals == [] {
        assert inverse == map[];
      } else {
        var s := signals[0];
        TotalPeel(inverse, s);
        TotalNonNegative(inverse - {s});
        forall t | t in inverse ensures inverse[t] / Total(inverse) > 0.0 {
          PositiveQuotient(inverse[t], Total(inverse));
        }
      }
    }
  }

  /** The weights of distinct signals add up to one. */
  lemma WeightsAddUp(weighting: Weighting, signals: seq<Symbol>, sigmas: Amounts)
    requires signals != [] && Distinct(signals)
    ensures Total(Weights(weighting, signals, sigmas)) == 1.0
  {
    WeightsArePositive(weighting, signals, sigmas);
    if weighting.EqualWeight? {
      DistinctCount(signals);
      EqualAddsUp(Weights(weighting, signals, sigmas), |signals|);
    } else {
      assert signals[0] in Weights(weighting, signals, sigmas);
      NormalisedAddsUp(InverseSigmas(signals, sigmas, FallbackSigma(signals, sigmas)));
    }
  }

  lemma EqualAddsUp(m: Amounts, n: nat)
    requires |m.Keys| == n > 0 && forall s :: s in m ==> m[s] == 1.0 / n as real
    ensures Total(m) == 1.0
  {
    var share := 1.0 / n as real;
    assert |m| == n;
    QuotientIsProduct(n as real, n as real);
    AllTheSame(m, n, share);
  }

  lemma AllTheSame(m: Amounts, n: nat, share: real)
    requires |m| == n && (forall s :: s in m ==> m[s] == share) && Times(share, n as real) == 1.0
    ensures Total(m) == 1.0
  {
    TotalBetween(m, share, share);
    assert Times(n as real, share) == Times(share, n as real);
  }

  lemma NormalisedAddsUp(m: Amounts)
    requires Total(m) != 0.0
    ensures Total(Normalised(m, Total(m))) == 1.0
  {
    var total := Total(m);
    forall s | s in m ensures Normalised(m, total)[s] == Times(1.0 / total, m[s]) {
      QuotientIsProduct(m[s], total);
    }
    TotalScale(m, 1.0 / total, Normalised(m, total));
    QuotientIsProduct(total, total);
  }

  lemma QuotientIsProduct(a: real, b: real)
    requires b != 0.0
    ensures a / b == Times(1.0 / b, a) && b / b == 1.0
  {
    var r := 1.0 / b;
    assert r * b == 1.0;
    assert a / b * b == a;
    assert r * a * b == a;
  }

  /** Equal weighting gives every symbol the same, up to the tolerance: its share of the capital, or the cap. */
  lemma EqualWeightSplitsEvenly(signals: seq<Symbol>, deployable: real, cap: real, s: Symbol)
    requires Distinct(signals) && s in signals && deployable >= 0.0 && cap >= 0.0
    ensures var r := CapsApplied(Weights(EqualWeight, signals, map[]), deployable, cap);
            s in r && AbsR(r[s] - MinR(deployable / |signals| as real, cap)) <= 2.0 * TOLERANCE
  {
    var weights, n := Weights(EqualWeight, signals, map[]), |signals| as real;
    var r := CapsApplied(weights, deployable, cap);
    WeightsArePositive(EqualWeight, signals, map[]);
    var level := CapsAreWaterFilling(weights, deployable, cap);
    var even := MinR(cap, Times(level, weights[s]));
    DistinctCount(signals);
    EvenPlaced(weights, deployable, cap, r, level, even, n);
    EvenShare(n, Total(r), deployable, even, cap, TOLERANCE);
  }

  lemma EvenPlaced(weights: Amounts, deployable: real, cap: real, r: Amounts, level: real, even: real, n: real)
    requires WaterFilled(weights, deployable, cap, r, level) && weights != map[] && |weights.Keys| as real == n
    requires forall x :: x in weights ==> MinR(cap, Times(level, weights[x])) == even
    ensures forall x :: x in r ==> even - TOLERANCE <= r[x] <= even
    ensures Times(n, even - TOLERANCE) <= Total(r) <= Times(n, even)
    ensures Total(r) >= deployable - TOLERANCE || even >= cap - TOLERANCE
  {
    assert |r.Keys| == |weights.Keys|;
    TotalBetween(r, even - TOLERANCE, even);
    var x :| x in weights;
    assert x in r;
  }

  lemma DistinctCount(signals: seq<Symbol>)
    requires Distinct(signals)
    ensures |set s | s in signals| == |signals|
  {
    if signals != [] {
      var init, last := signals[..|signals| - 1], signals[|signals| - 1];
      assert signals == init + [last];
      DistinctCount(init);
      assert (set s | s in signals) == (set s | s in init) + {last};
    }
  }

  lemma EvenShare(n: real, total: real, deployable: real, even: real, cap: real, tolerance: real)
    requires n >= 1.0 && tolerance >= 0.0 && even <= cap && total <= deployable
    requires Times(n, even - tolerance) <= total <= Times(n, even)
    requires total >= deployable - tolerance || even >= cap - tolerance
    ensures even <= deployable / n + tolerance
    ensures even >= MinR(deployable / n, cap) - tolerance
  {
    var share := deployable / n;
    assert Times(n, share) == deployable;
    assert Times(n, share) - Times(n, even) == Times(n, share - even);
    assert Times(n, even - tolerance) == Times(n, even) - Times(n, tolerance);
    TimesAtLeast(n, share - even);
    TimesAtLeast(n, even - tolerance - share);
  }

  lemma TimesAtLeast(n: real, x: real)
    requires n >= 1.0
    ensures x >= 0.0 ==> Times(n, x) >= x
  {
  }

  /** The documentation weights by 1/sigma; the code divides by the larger of sigma and the fallback, which is the
      mean sigma. The products of weight and sigma of two symbols agree, as documented, exactly when the sigmas are
      equal or neither is below the fallback. */
  lemma WeightsAreInverseSigmas(signals: seq<Symbol>, sigmas: Amounts, a: Symbol, b: Symbol)
    requires a in signals && b in signals && SigmaOf(sigmas, a) > 0.0 && SigmaOf(sigmas, b) > 0.0
    ensures var w, low := Weights(VolatilityAdjusted, signals, sigmas), FallbackSigma(signals, sigmas);
            var x, y := SigmaOf(sigmas, a), SigmaOf(sigmas, b);
            && a in w && b in w
            && (Times(w[a], x) == Times(w[b], y) <==> x == y || (x >= low && y >= low))
  {
    var low := FallbackSigma(signals, sigmas);
    var total := Total(InverseSigmas(signals, sigmas, low));
    WeightsArePositive(VolatilityAdjusted, signals, sigmas);
    KnownSigmasPositive(signals, sigmas);
    WeightTimesSigma(low, total, SigmaOf(sigmas, a));
    WeightTimesSigma(low, total, SigmaOf(sigmas, b));
    SameShare(low, SigmaOf(sigmas, a), SigmaOf(sigmas, b));
    if SigmaShare(low, SigmaOf(sigmas, a)) != SigmaShare(low, SigmaOf(sigmas, b)) {
      SmallerQuotient(SigmaShare(low, SigmaOf(sigmas, a)), SigmaShare(low, SigmaOf(sigmas, b)), total);
    }
  }

  /** How much of the larger of sigma and the fallback a sigma is. */
  function SigmaShare(low: real, sigma: real): real
    requires low > 0.0
  {
    sigma / MaxR(sigma, low)
  }

  lemma WeightTimesSigma(low: real, total: real, sigma: real)
    requires low > 0.0 && total != 0.0
    ensures Times(Reciprocal(MaxR(sigma, low)) / total, sigma) == SigmaShare(low, sigma) / total
  {
    var r := 1.0 / MaxR(sigma, low);
    assert r * sigma == sigma / MaxR(sigma, low);
    assert (r / total) * sigma == (r * sigma) / total;
  }

  lemma SameShare(low: real, x: real, y: real)
    requires low > 0.0 && x > 0.0 && y > 0.0
    ensures SigmaShare(low, x) == SigmaShare(low, y) <==> x == y || (x >= low && y >= low)
  {
    ShareOf(low, x);
    ShareOf(low, y);
  }

  lemma ShareOf(low: real, x: real)
    requires low > 0.0 && x > 0.0
    ensures x >= low ==> SigmaShare(low, x) == 1.0
    ensures x < low ==> SigmaShare(low, x) < 1.0 && SigmaShare(low, x) * low == x
  {
    var q, most := SigmaShare(low, x), MaxR(x, low);
    assert q * most == x;
    assert q >= 1.0 ==> q * most >= most;
  }

  /** A case that fails: sigmas 1 and 3 have the mean 2, so the quieter symbol gets less than its documented weight. */
  lemma QuietSymbolWeighsLess(a: Symbol, b: Symbol)
    requires a != b
    ensures var w := Weights(VolatilityAdjusted, [a, b], map[a := 1.0, b := 3.0]);
            a in w && b in w && Times(w[a], 1.0) != Times(w[b], 3.0)
  {
    var sigmas := map[a := 1.0, b := 3.0];
    assert [a, b][0] == a && [a, b][1] == b;
    assert KnownSigmas([a, b], sigmas) == sigmas;
    TotalPeel(sigmas, a);
    assert sigmas - {a} == map[b := 3.0];
    TotalPeel(map[b := 3.0], b);
    assert map[b := 3.0] - {b} == map[];
    assert sigmas.Keys == {a, b};
    assert |sigmas| == 2;
    WeightsAreInverseSigmas([a, b], sigmas, a, b);
  }

  lemma SmallerQuotient(a: real, b: real, total: real)
    requires a != b && total != 0.0
    ensures a / total != b / total
  {
    assert a / total * total == a && b / total * total == b;
  }

  /** What the sizing step may rely on. */
  lemma TargetsAreBounded(cfg: Config, signals: seq<Symbol>, equity: real, cash: real, sigmas: Amounts)
    requires cfg.Valid() && equity > 0.0
    ensures var t := Targets(cfg, signals, equity, cash, sigmas);
            && t.Keys == (set s | s in signals)
            && (forall s :: s in t ==> 0.0 <= t[s] <= Fraction(equity, cfg.maxPositionPct))
            && Total(t) <= Deployable(cfg, cash)
  {
    var weights := Weights(cfg.weighting, signals, sigmas);
    WeightsArePositive(cfg.weighting, signals, sigmas);
    CapIsPositive(cfg, equity);
    var level := CapsAreWaterFilling(weights, Deployable(cfg, cash), Fraction(equity, cfg.maxPositionPct));
  }

  /** The capital that the cash reserve leaves is filled over the signals in the ratio of their weights, each up to the
      single-name share of equity. */
  lemma TargetsAreWaterFilled(cfg: Config, signals: seq<Symbol>, equity: real, cash: real, sigmas: Amounts)
    returns (level: real)
    requires cfg.Valid() && equity > 0.0
    ensures WaterFilled(Weights(cfg.weighting, signals, sigmas),
                        if cash > 0.0 then cash - Fraction(cash, cfg.minCashPct) else 0.0,
                        Fraction(equity, cfg.maxPositionPct), Targets(cfg, signals, equity, cash, sigmas), level)
  {
    WeightsArePositive(cfg.weighting, signals, sigmas);
    CapIsPositive(cfg, equity);
    DeployableIsRest(cfg, cash);
    level := CapsAreWaterFilling(Weights(cfg.weighting, signals, sigmas), Deployable(cfg, cash),
                                 Fraction(equity, cfg.maxPositionPct));
  }

  lemma DeployableIsRest(cfg: Config, cash: real)
    requires cfg.Valid()
    ensures Deployable(cfg, cash) == if cash > 0.0 then cash - Fraction(cash, cfg.minCashPct) else 0.0
  {
    var rest := 1.0 - cfg.minCashPct;
    assert Fraction(cash, rest) == cash - Fraction(cash, cfg.minCashPct);
    if cash > 0.0 {
      assert cash * rest >= 0.0;
    } else {
      assert -cash * rest >= 0.0;
    }
  }

  /** The equal-weight slice carries no volatility estimate. */
  function SliceFor(weighting: Weighting, s: Symbol, target: real, deployable: real, sigmas: Amounts): Slice {
    Slice(s, target, if deployable > 0.0 then target / deployable else 0.0,
          if weighting.EqualWeight? then 0.0 else SigmaOf(sigmas, s))
  }

  /** A slice says how much of the deployable capital it is, and the volatility it was weighted with. */
  lemma SliceIsShare(weighting: Weighting, s: Symbol, target: real, deployable: real, sigmas: Amounts)
    ensures var x := SliceFor(weighting, s, target, deployable, sigmas);
            && x.symbol == s && x.target == target
            && (if deployable > 0.0 then Times(x.weight, deployable) == target else x.weight == 0.0)
            && x.sigma == if weighting.VolatilityAdjusted? && s in sigmas then sigmas[s] else 0.0
  {
    if deployable > 0.0 {
      assert target / deployable * deployable == target;
    }
  }

  /** Both `allocate` methods: one slice for each signal, in order. */
  method Allocate(cfg: Config, signals: seq<Symbol>, equity: real, cash: real, sigmas: Amounts)
    returns (slices: seq<Slice>)
    ensures signals == [] || equity <= 0.0 ==> slices == []
    ensures signals != [] && equity > 0.0 ==>
              var targets := Targets(cfg, signals, equity, cash, sigmas);
              && |slices| == |signals|
              && forall i :: 0 <= i < |signals| ==>
                   signals[i] in targets &&
                   slices[i] == SliceFor(cfg.weighting, signals[i], targets[signals[i]], Deployable(cfg, cash), sigmas)
  {
    if signals == [] || equity <= 0.0 {
      return [];
    }
    var deployable := Deployable(cfg, cash);
    var weights := RawWeights(cfg.weighting, signals, sigmas);
    var held := ApplyCaps(weights, deployable, Fraction(equity, cfg.maxPositionPct));
    WeightsArePositive(cfg.weighting, signals, sigmas);
    CapsKeepKeys(weights, deployable, Fraction(equity, cfg.maxPositionPct));
    slices := ToSlices(cfg.weighting, signals, held, deployable, sigmas);
  }

  method ToSlices(weighting: Weighting, signals: seq<Symbol>, held: Amounts, deployable: real, sigmas: Amounts)
    returns (slices: seq<Slice>)
    requires forall s :: s in signals ==> s in held
    ensures |slices| == |signals|
    ensures forall i :: 0 <= i < |signals| ==>
              slices[i] == SliceFor(weighting, signals[i], held[signals[i]], deployable, sigmas)
  {
    slices := [];
    for i := 0 to |signals|
      invariant |slices| == i
      invariant forall k :: 0 <= k < i ==>
                  slices[k] == SliceFor(weighting, signals[k], held[signals[k]], deployable, sigmas)
    {
      slices := slices + [SliceFor(weighting, signals[i], held[signals[i]], deployable, sigmas)];
    }
  }

  lemma CapsKeepKeys(weights: Amounts, deployable: real, cap: real)
    ensures CapsApplied(weights, deployable, cap).Keys == weights.Keys
  {
    if deployable > 0.0 && weights != map[] {
      FilledKeepsKeys(weights, deployable, cap, Nothing(weights), weights.Keys);
    }
  }

  lemma {:induction false} FilledKeepsKeys(weights: Amounts, deployable: real, cap: real, held: Amounts,
                                           remaining: set<Symbol>)
    requires remaining <= weights.Keys == held.Keys
    ensures Filled(weights, deployable, cap, held, remaining).Keys == weights.Keys
    decreases |remaining|
  {
    var left := LeftOver(deployable, held);
    var weightTotal := Total(Only(weights, remaining));
    if remaining != {} && left > TOLERANCE && weightTotal > 0.0 {
      var capped := CappedIn(weights, cap, held, remaining, left, weightTotal);
      if capped != {} {
        CardinalityDrops(remaining, capped);
        FilledKeepsKeys(weights, deployable, cap, Round(weights, cap, held, remaining, left, weightTotal),
                        remaining - capped);
      }
    }
  }

  method RawWeights(weighting: Weighting, signals: seq<Symbol>, sigmas: Amounts) returns (weights: Amounts)
    requires signals != []
    ensures weights == Weights(weighting, signals, sigmas)
  {
    WeightsArePositive(weighting, signals, sigmas);
    if weighting.EqualWeight? {
      weights := map s | s in signals :: 1.0 / |signals| as real;
    } else {
      var known := KnownSigmas(signals, sigmas);
      var total := SumOver(known, known.Keys);
      OnlyAll(known, known.Keys);
      var fallback := if known == map[] then 1.0 else total / |known| as real;
      KnownSigmasPositive(signals, sigmas);
      var inverse := InverseSigmas(signals, sigmas, fallback);
      var totalInverse := SumOver(inverse, inverse.Keys);
      OnlyAll(inverse, inverse.Keys);
      assert signals[0] in Weights(weighting, signals, sigmas);
      weights := Normalised(inverse, totalInverse);
    }
  }
}
