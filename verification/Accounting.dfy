/** What the average-cost ledger of cpat/portfolio/manager.py and cpat/core/models.py conserves. */
module Accounting {
  import opened Models
  import opened Totals
  import opened Portfolio

  /** Does the fill open a position or add to one, rather than reduce it? */
  predicate Opens(h: Holding, f: Fill) {
    h.quantity == 0 || SameSign(h.quantity, SignedQuantity(f))
  }

  /** The commissions that never reach realised P&L: those of opening and adding fills. */
  function OpeningFees(initial: real, fills: seq<Fill>): real {
    if fills == [] then 0.0
    else
      var before, f := fills[..|fills| - 1], fills[|fills| - 1];
      OpeningFees(initial, before)
      + (if Opens(At(Replayed(initial, before), f.symbol), f) then f.commission else 0.0)
  }

  function CostOf(h: Holding): real {
    Worth(h.avgCost, h.quantity)
  }

  function CostBasis(b: Book): map<Symbol, real> {
    map s | s in b.positions :: CostOf(b.positions[s])
  }

  /** The cost of open positions that have no usable price. */
  function UnpricedCost(b: Book, prices: Prices): map<Symbol, real> {
    map s | s in b.positions && b.positions[s].quantity != 0 && !Marked(prices, s) :: CostOf(b.positions[s])
  }

  lemma MixedCostKeepsValue(avgCost: real, held: int, price: real, added: int)
    requires SameSign(held, added)
    ensures MixedCost(avgCost, held, price, added) * (held + added) as real
            == avgCost * held as real + price * added as real
  {
    var total := avgCost * Abs(held) as real + price * Abs(added) as real;
    var n := Abs(held + added) as real;
    assert total / n * n == total;
    if held > 0 {
      assert Abs(held) == held && Abs(added) == added;
    } else {
      assert Abs(held) as real == -(held as real) && Abs(added) as real == -(added as real);
      assert avgCost * -(held as real) == -(avgCost * held as real);
      assert price * -(added as real) == -(price * added as real);
    }
  }

  lemma CashEffectSigned(f: Fill)
    ensures CashEffect(f) == -(f.fillPrice * SignedQuantity(f) as real) - f.commission
  {
    var q := f.quantity as real;
    assert f.fillPrice * -q == -(f.fillPrice * q);
  }

  /** Every fill, including one that flips the sign, moves value between cash, cost and realised P&L;
      only an opening commission leaves the three. */
  lemma FillConserves(h: Holding, f: Fill)
    ensures var n := AfterFill(h, f);
            CashEffect(f) == (n.realised - h.realised) - (CostOf(n) - CostOf(h))
                             - (if Opens(h, f) then f.commission else 0.0)
  {
    var s := SignedQuantity(f);
    var n := AfterFill(h, f);
    CashEffectSigned(f);
    if h.quantity == 0 {
      assert CostOf(h) == 0.0;
    } else if SameSign(h.quantity, s) {
      MixedCostKeepsValue(h.avgCost, h.quantity, f.fillPrice, s);
    } else {
      ClosingBalances(h.avgCost, h.quantity, f.fillPrice, s);
    }
  }

  /** The gain on the closed shares is what the trade brings in, less what those shares cost,
      less the cost of shares opened by a flip. */
  lemma ClosingBalances(avgCost: real, held: int, price: real, traded: int)
    requires held != 0 && !SameSign(held, traded)
    ensures var left := held + traded;
            var cost := if left == 0 then 0.0 else if SameSign(left, traded) then price else avgCost;
            ClosingPnl(avgCost, held, price, traded)
            == -(price * traded as real) + cost * left as real - avgCost * held as real
  {
    var left := held + traded;
    if Abs(traded) <= Abs(held) {
      if held > 0 {
        assert Min(Abs(traded), Abs(held)) == -traded;
      } else {
        assert Min(Abs(traded), Abs(held)) == traded;
      }
    } else {
      assert SameSign(left, traded);
      if held > 0 {
        assert Min(Abs(traded), Abs(held)) == held;
      } else {
        assert Min(Abs(traded), Abs(held)) == -held;
      }
    }
  }

  /** Cash, cost basis, realised P&L and opening commissions always add up to the initial capital. */
  lemma {:induction false} CashIsConserved(initial: real, fills: seq<Fill>)
    ensures var b := Replayed(initial, fills);
            b.cash == initial + Total(RealisedGains(b)) - Total(CostBasis(b)) - OpeningFees(initial, fills)
  {
    var b := Replayed(initial, fills);
    if fills == [] {
      assert RealisedGains(b) == map[] && CostBasis(b) == map[];
    } else {
      var before, f := fills[..|fills| - 1], fills[|fills| - 1];
      CashIsConserved(initial, before);
      var a := Replayed(initial, before);
      var h, n := At(a, f.symbol), AfterFill(At(a, f.symbol), f);
      FillConserves(h, f);
      assert RealisedGains(b) == RealisedGains(a)[f.symbol := n.realised];
      assert CostBasis(b) == CostBasis(a)[f.symbol := CostOf(n)];
      TotalUpdate(RealisedGains(a), f.symbol, n.realised);
      TotalUpdate(CostBasis(a), f.symbol, CostOf(n));
    }
  }

  /** The equity identity with no assumption on prices: what an unpriced position cost is missing. */
  lemma EquityIdentity(initial: real, fills: seq<Fill>, prices: Prices)
    ensures var b := Replayed(initial, fills);
            EquityAt(b, prices) == initial + Total(RealisedGains(b)) + Total(PaperGains(b, prices))
                                   - OpeningFees(initial, fills) - Total(UnpricedCost(b, prices))
  {
    var b := Replayed(initial, fills);
    CashIsConserved(initial, fills);
    var values, gains, cost := MarketValues(b, prices), PaperGains(b, prices), CostBasis(b);
    var priced := Only(cost, values.Keys);
    ValuesAreGainsPlusCost(b, prices);
    TotalSum(gains, priced, values);
    TotalSplit(cost, values.Keys);
    UnpricedIsTheRest(b, prices);
  }

  lemma ValuesAreGainsPlusCost(b: Book, prices: Prices)
    ensures var values, gains := MarketValues(b, prices), PaperGains(b, prices);
            var priced := Only(CostBasis(b), values.Keys);
            && values.Keys == gains.Keys == priced.Keys
            && forall s :: s in values ==> values[s] == gains[s] + priced[s]
  {
    forall s | s in MarketValues(b, prices)
      ensures MarketValue(b.positions[s], prices[s])
              == UnrealisedGain(b.positions[s], prices[s]) + CostOf(b.positions[s])
    {
      var h, price := b.positions[s], prices[s];
      var q := h.quantity as real;
      assert (price - h.avgCost) * q == price * q - h.avgCost * q;
    }
  }

  lemma UnpricedIsTheRest(b: Book, prices: Prices)
    ensures var cost, priced := CostBasis(b), MarketValues(b, prices).Keys;
            Total(Only(cost, cost.Keys - priced)) == Total(UnpricedCost(b, prices))
  {
    var cost := CostBasis(b);
    var rest := Only(cost, cost.Keys - MarketValues(b, prices).Keys);
    var unpriced := UnpricedCost(b, prices);
    forall s | s in rest && s !in unpriced ensures rest[s] == 0.0 {
      assert b.positions[s].quantity == 0;
      assert b.positions[s].avgCost * 0.0 == 0.0;
    }
    TotalIgnoresZeros(rest, unpriced.Keys);
    assert Only(rest, unpriced.Keys) == unpriced;
  }

  /** The identity the documentation promises holds exactly when what the unpriced positions cost adds up to
      nothing, in particular whenever every open position has a positive price. */
  lemma EquityIdentityWhenPriced(initial: real, fills: seq<Fill>, prices: Prices)
    ensures var b := Replayed(initial, fills);
            EquityAt(b, prices) == initial + Total(RealisedGains(b)) + Total(PaperGains(b, prices))
                                   - OpeningFees(initial, fills)
            <==> Total(UnpricedCost(b, prices)) == 0.0
    ensures var b := Replayed(initial, fills);
            (forall s :: s in OpenSymbols(b) ==> Marked(prices, s)) ==> Total(UnpricedCost(b, prices)) == 0.0
  {
    EquityIdentity(initial, fills, prices);
    var b := Replayed(initial, fills);
    if forall s :: s in OpenSymbols(b) ==> Marked(prices, s) {
      assert forall s :: s in UnpricedCost(b, prices) ==> s in OpenSymbols(b);
      assert UnpricedCost(b, prices) == map[];
    }
  }

  // ---- Since when a position is held ---------------------------------------------------------

  ghost predicate RealFills(fills: seq<Fill>) {
    forall f :: f in fills ==> f.quantity > 0
  }

  function HeldAfter(initial: real, fills: seq<Fill>, x: Symbol): int {
    At(Replayed(initial, fills), x).quantity
  }

  /** Fill `i` took the symbol from flat, and it has been held ever since. */
  ghost predicate OpenedBy(initial: real, fills: seq<Fill>, x: Symbol, i: nat) {
    && i < |fills| && fills[i].symbol == x && HeldAfter(initial, fills[..i], x) == 0
    && forall j :: i < j <= |fills| ==> HeldAfter(initial, fills[..j], x) != 0
  }

  /** Over every fill sequence a position is dated from the fill that last took it from flat, also when it has flipped
      since, and a flat one has no date and no cost. */
  lemma {:induction false} HeldSince(initial: real, fills: seq<Fill>, x: Symbol) returns (i: nat)
    requires RealFills(fills)
    ensures var h := At(Replayed(initial, fills), x);
            if h.quantity == 0 then h.openedAt.None? && h.avgCost == 0.0
            else OpenedBy(initial, fills, x, i) && h.openedAt == Some(fills[i].timestamp)
  {
    i := 0;
    if fills != [] {
      var init, f := fills[..|fills| - 1], fills[|fills| - 1];
      assert fills == init + [f] && f in fills;
      i := HeldSince(initial, init, x);
      if HeldAfter(initial, init, x) == 0 {
        i := |init|;
      }
      if HeldAfter(initial, fills, x) != 0 {
        StillHeld(initial, fills, x, i);
      }
    }
  }

  lemma StillHeld(initial: real, fills: seq<Fill>, x: Symbol, i: nat)
    requires fills != [] && HeldAfter(initial, fills, x) != 0
    requires var init := fills[..|fills| - 1];
             if HeldAfter(initial, init, x) == 0 then i == |init| && fills[i].symbol == x
             else OpenedBy(initial, init, x, i)
    ensures OpenedBy(initial, fills, x, i)
  {
    var init := fills[..|fills| - 1];
    forall j | i < j <= |fills| ensures HeldAfter(initial, fills[..j], x) != 0 {
      if j <= |init| {
        assert init[..j] == fills[..j];
      } else {
        assert fills[..j] == fills;
      }
    }
    assert i <= |init| && init[..i] == fills[..i];
  }

  // ---- Exposure ------------------------------------------------------------------------------

  lemma PeelOrSame(m: map<Symbol, real>, rest: map<Symbol, real>, x: Symbol)
    requires rest == m - {x}
    ensures Total(m) == Total(rest) + (if x in m then m[x] else 0.0)
  {
    if x in m {
      TotalPeel(m, x);
    } else {
      assert m - {x} == m;
    }
  }

  /** The book without one of its positions. */
  function Without(b: Book, x: Symbol): Book {
    b.(positions := b.positions - {x})
  }

  /** Each position with a usable price adds its value to equity, and the size of its value to gross exposure and to the
      exposure of its own sector, which is "Unknown" for a symbol without one; any other position adds nothing. */
  lemma PositionAddsExposure(b: Book, prices: Prices, sectors: map<Symbol, string>, x: Symbol, sector: string)
    requires x in b.positions
    ensures var value := if x in prices && prices[x] > 0.0 then Worth(prices[x], b.positions[x].quantity) else 0.0;
            var own := if x in sectors then sectors[x] else "Unknown";
            && EquityAt(b, prices) == EquityAt(Without(b, x), prices) + value
            && GrossAt(b, prices) == GrossAt(Without(b, x), prices) + AbsR(value)
            && SectorAt(b, prices, sectors, sector)
               == SectorAt(Without(b, x), prices, sectors, sector) + (if sector == own then AbsR(value) else 0.0)
  {
    var values, rest := MarketValues(b, prices), MarketValues(Without(b, x), prices);
    assert rest == values - {x};
    PeelOrSame(values, rest, x);
    SizesPeel(values, sectors, x, sector);
  }

  lemma SizesPeel(values: map<Symbol, real>, sectors: map<Symbol, string>, x: Symbol, sector: string)
    ensures var sizes, rest := Magnitudes(values), Magnitudes(values - {x});
            var size := if x in values then AbsR(values[x]) else 0.0;
            && Total(sizes) == Total(rest) + size
            && Total(InSector(sizes, sectors, sector))
               == Total(InSector(rest, sectors, sector)) + (if SectorOf(sectors, x) == sector then size else 0.0)
  {
    var sizes, rest := Magnitudes(values), Magnitudes(values - {x});
    assert rest == sizes - {x};
    PeelOrSame(sizes, rest, x);
    assert InSector(rest, sectors, sector) == InSector(sizes, sectors, sector) - {x};
    PeelOrSame(InSector(sizes, sectors, sector), InSector(rest, sectors, sector), x);
  }

  /** Cash alone is no exposure. */
  lemma CashIsNoExposure(b: Book, prices: Prices, sectors: map<Symbol, string>, sector: string)
    requires b.positions == map[]
    ensures EquityAt(b, prices) == b.cash && GrossAt(b, prices) == 0.0 && SectorAt(b, prices, sectors, sector) == 0.0
  {
    assert MarketValues(b, prices) == map[] && Magnitudes(map[]) == map[];
    assert InSector(map[], sectors, sector) == map[];
  }
}
