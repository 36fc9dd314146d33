/** cpat/analytics/performance.py: first-in-first-out matching of each symbol's fills, compared with the average-cost
    ledger of cpat/core/models.py. */
module TradeMatching {
  import opened Models
  import opened Totals
  import opened Portfolio

  datatype Lot = Lot(price: real, quantity: nat)

  /** The lots still held and the P&L entries emitted so far. */
  datatype Matching = Matching(queue: seq<Lot>, pnl: seq<real>)

  function EntryPnl(price: real, cost: real, matched: int, commission: real): real {
    Worth(price - cost, matched) - commission
  }

  /** One pass of the inner loop: the oldest lot absorbs what it can of the sale. */
  function MatchOne(m: Matching, wanted: nat, price: real, commission: real): (r: (Matching, nat))
    requires wanted > 0 && m.queue != []
    ensures |r.0.queue| < |m.queue| || (|r.0.queue| == |m.queue| && r.1 == 0)
  {
    var lot := m.queue[0];
    var matched := Min(wanted, lot.quantity);
    var left := lot.quantity - matched;
    var queue := if left == 0 then m.queue[1..] else [Lot(lot.price, left)] + m.queue[1..];
    (Matching(queue, m.pnl + [EntryPnl(price, lot.price, matched, commission)]), wanted - matched)
  }

  function Sell(m: Matching, wanted: nat, price: real, commission: real): Matching
    decreases |m.queue| + (if wanted > 0 then 1 else 0)
  {
    if wanted > 0 && m.queue != [] then
      var (next, left) := MatchOne(m, wanted, price, commission);
      Sell(next, left, price, commission)
    else m
  }

  function Step(m: Matching, f: Fill): Matching {
    if f.side.Buy? then Matching(m.queue + [Lot(f.fillPrice, f.quantity)], m.pnl)
    else Sell(m, f.quantity, f.fillPrice, f.commission)
  }

  function Matched(fills: seq<Fill>): Matching {
    if fills == [] then Matching([], [])
    else Step(Matched(fills[..|fills| - 1]), fills[|fills| - 1])
  }

  /** The inner loops, over the fills of one symbol. */
  method MatchFills(fills: seq<Fill>) returns (pnl: seq<real>, queue: seq<Lot>)
    ensures Matching(queue, pnl) == Matched(fills)
  {
    queue, pnl := [], [];
    for i := 0 to |fills|
      invariant Matching(queue, pnl) == Matched(fills[..i])
    {
      var f := fills[i];
      assert fills[..i + 1][..i] == fills[..i];
      if f.side.Buy? {
        queue := queue + [Lot(f.fillPrice, f.quantity)];
      } else {
        var wanted := f.quantity;
        while wanted > 0 && queue != []
          invariant wanted >= 0
          invariant Sell(Matching(queue, pnl), wanted, f.fillPrice, f.commission)
                    == Sell(Matched(fills[..i]), f.quantity, f.fillPrice, f.commission)
          decreases |queue| + (if wanted > 0 then 1 else 0)
        {
          var lot := queue[0];
          var matched := Min(wanted, lot.quantity);
          pnl := pnl + [EntryPnl(f.fillPrice, lot.price, matched, f.commission)];
          wanted := wanted - matched;
          if lot.quantity - matched == 0 {
            queue := queue[1..];
          } else {
            queue := [Lot(lot.price, lot.quantity - matched)] + queue[1..];
          }
        }
      }
    }
    assert fills[..|fills|] == fills;
  }

  // ---- Symbol by symbol ----------------------------------------------------------------------

  function FillsOf(fills: seq<Fill>, s: Symbol): seq<Fill> {
    if fills == [] then []
    else
      var before, f := FillsOf(fills[..|fills| - 1], s), fills[|fills| - 1];
      if f.symbol == s then before + [f] else before
  }

  /** The symbols in the order of their first fills. */
  function SymbolsIn(fills: seq<Fill>): seq<Symbol> {
    if fills == [] then []
    else
      var before, f := SymbolsIn(fills[..|fills| - 1]), fills[|fills| - 1];
      if f.symbol in before then before else before + [f.symbol]
  }

  lemma {:induction false} OthersHaveNoFills(fills: seq<Fill>, s: Symbol)
    ensures s in SymbolsIn(fills) <==> FillsOf(fills, s) != []
  {
    if fills != [] {
      OthersHaveNoFills(fills[..|fills| - 1], s);
    }
  }

  function PnlOf(fills: seq<Fill>, names: seq<Symbol>): seq<real> {
    if names == [] then []
    else PnlOf(fills, names[..|names| - 1]) + Matched(FillsOf(fills, names[|names| - 1])).pnl
  }

  method GroupBySymbol(fills: seq<Fill>) returns (names: seq<Symbol>, groups: map<Symbol, seq<Fill>>)
    ensures names == SymbolsIn(fills) && groups == map s | s in names :: FillsOf(fills, s)
  {
    names, groups := [], map[];
    for i := 0 to |fills|
      invariant names == SymbolsIn(fills[..i]) && groups == map s | s in names :: FillsOf(fills[..i], s)
    {
      var f := fills[i];
      assert fills[..i + 1][..i] == fills[..i];
      OthersHaveNoFills(fills[..i], f.symbol);
      if f.symbol !in groups {
        names, groups := names + [f.symbol], groups[f.symbol := []];
      }
      groups := groups[f.symbol := groups[f.symbol] + [f]];
    }
    assert fills[..|fills|] == fills;
  }

  /** `_compute_trade_pnl`: the entries of all symbols, in the order of their first fills. */
  method ComputeTradePnl(fills: seq<Fill>) returns (pnl: seq<real>)
    ensures pnl == PnlOf(fills, SymbolsIn(fills))
  {
    var names, groups := GroupBySymbol(fills);
    pnl := [];
    for i := 0 to |names|
      invariant pnl == PnlOf(fills, names[..i])
    {
      assert names[..i + 1][..i] == names[..i];
      var entries, _ := MatchFills(groups[names[i]]);
      pnl := pnl + entries;
    }
    assert names[..|names|] == names;
  }

  // ---- The order of the entries --------------------------------------------------------------

  /** The first symbol has a fill before the second one ever has. */
  ghost predicate TradedBefore(fills: seq<Fill>, x: Symbol, y: Symbol) {
    exists i :: 0 <= i < |fills| && fills[i].symbol == x && forall j :: 0 <= j <= i ==> fills[j].symbol != y
  }

  ghost predicate InTimeOrder(fills: seq<Fill>, names: seq<Symbol>) {
    forall a, b :: 0 <= a < b < |names| ==> TradedBefore(fills, names[a], names[b])
  }

  predicate Traded(fills: seq<Fill>, x: Symbol) {
    exists f :: f in fills && f.symbol == x
  }

  /** Every symbol that was traded is listed, in the order of the first fills. */
  lemma {:induction false} SymbolsAreInOrder(fills: seq<Fill>)
    ensures forall x :: x in SymbolsIn(fills) <==> Traded(fills, x)
    ensures InTimeOrder(fills, SymbolsIn(fills))
  {
    if fills != [] {
      var init, f := fills[..|fills| - 1], fills[|fills| - 1];
      assert fills == init + [f];
      SymbolsAreInOrder(init);
      forall x ensures Traded(fills, x) <==> Traded(init, x) || x == f.symbol {
        assert f in fills && forall g :: g in init ==> g in fills;
      }
      var before, names := SymbolsIn(init), SymbolsIn(fills);
      forall a, b | 0 <= a < b < |names| ensures TradedBefore(fills, names[a], names[b]) {
        if b < |before| {
          assert TradedBefore(init, before[a], before[b]);
          BeforeStays(init, f, names[a], names[b]);
        } else {
          assert names[a] == before[a] && before[a] in before && f.symbol !in before;
          NewIsLast(init, f, names[a]);
        }
      }
    }
  }

  lemma BeforeStays(fills: seq<Fill>, f: Fill, x: Symbol, y: Symbol)
    requires TradedBefore(fills, x, y)
    ensures TradedBefore(fills + [f], x, y)
  {
    var i :| 0 <= i < |fills| && fills[i].symbol == x && forall j :: 0 <= j <= i ==> fills[j].symbol != y;
    assert (fills + [f])[i] == fills[i];
  }

  lemma NewIsLast(fills: seq<Fill>, f: Fill, x: Symbol)
    requires Traded(fills, x) && !Traded(fills, f.symbol)
    ensures TradedBefore(fills + [f], x, f.symbol)
  {
    var g :| g in fills && g.symbol == x;
    var i :| 0 <= i < |fills| && fills[i] == g;
    assert (fills + [f])[i] == g;
    forall j | 0 <= j <= i ensures (fills + [f])[j].symbol != f.symbol {
      assert fills[j] in fills;
    }
  }

  /** How many entries the first symbols have. */
  function EntriesOf(fills: seq<Fill>, names: seq<Symbol>): nat {
    if names == [] then 0
    else EntriesOf(fills, names[..|names| - 1]) + |Matched(FillsOf(fills, names[|names| - 1])).pnl|
  }

  /** The entries of a symbol come right after those of the symbols listed before it, and nothing else is there. */
  lemma {:induction false} EntriesAreInOrder(fills: seq<Fill>, names: seq<Symbol>, k: nat)
    requires k < |names|
    ensures var pnl, own := PnlOf(fills, names), Matched(FillsOf(fills, names[k])).pnl;
            var start := EntriesOf(fills, names[..k]);
            && |pnl| == EntriesOf(fills, names) && start + |own| <= |pnl| && pnl[start..start + |own|] == own
  {
    var init := names[..|names| - 1];
    EntriesCount(fills, init);
    if k < |init| {
      assert init[..k] == names[..k];
      EntriesAreInOrder(fills, init, k);
    }
  }

  lemma {:induction false} EntriesCount(fills: seq<Fill>, names: seq<Symbol>)
    ensures |PnlOf(fills, names)| == EntriesOf(fills, names)
  {
    if names != [] {
      EntriesCount(fills, names[..|names| - 1]);
    }
  }

  // ---- The average-cost ledger of the same fills ---------------------------------------------

  function Ledger(fills: seq<Fill>): Holding {
    if fills == [] then FLAT else AfterFill(Ledger(fills[..|fills| - 1]), fills[|fills| - 1])
  }

  /** What the two methods are compared on: real trades, never selling more than is held. */
  predicate NeverShort(fills: seq<Fill>) {
    fills == [] ||
    var before, f := fills[..|fills| - 1], fills[|fills| - 1];
    && NeverShort(before)
    && f.quantity > 0
    && Ledger(before).quantity + SignedQuantity(f) >= 0
  }

  function QueueQuantity(queue: seq<Lot>): nat {
    if queue == [] then 0 else queue[0].quantity + QueueQuantity(queue[1..])
  }

  function LotCost(lot: Lot): real {
    Worth(lot.price, lot.quantity)
  }

  function QueueCost(queue: seq<Lot>): real {
    if queue == [] then 0.0 else LotCost(queue[0]) + QueueCost(queue[1..])
  }

  /** The entries the last sale emits, one for each lot it touches. */
  function LotsTouched(m: Matching, f: Fill): int {
    if f.side.Buy? then 0 else |Step(m, f).pnl| - |m.pnl|
  }

  /** Commission as the matching charges it: once for each lot a sale touches. */
  function FeesPerLot(fills: seq<Fill>): real {
    if fills == [] then 0.0
    else
      var before, f := fills[..|fills| - 1], fills[|fills| - 1];
      FeesPerLot(before) + Worth(f.commission, LotsTouched(Matched(before), f))
  }

  /** Commission as it was paid: once for each sale. */
  function FeesPerSale(fills: seq<Fill>): real {
    if fills == [] then 0.0
    else
      var before, f := fills[..|fills| - 1], fills[|fills| - 1];
      FeesPerSale(before) + (if f.side.Sell? then f.commission else 0.0)
  }

  function FifoGross(fills: seq<Fill>): real {
    Sum(Matched(fills).pnl) + FeesPerLot(fills)
  }

  function AverageCostGross(fills: seq<Fill>): real {
    Ledger(fills).realised + FeesPerSale(fills)
  }

  /** Sales bring in, purchases cost: cash moved before any commission. */
  function NetProceeds(fills: seq<Fill>): real {
    if fills == [] then 0.0
    else
      var before, f := fills[..|fills| - 1], fills[|fills| - 1];
      NetProceeds(before) - Worth(f.fillPrice, SignedQuantity(f))
  }

  lemma {:induction false} QueuePush(queue: seq<Lot>, lot: Lot)
    ensures QueueQuantity(queue + [lot]) == QueueQuantity(queue) + lot.quantity
    ensures QueueCost(queue + [lot]) == QueueCost(queue) + LotCost(lot)
  {
    if queue == [] {
      assert queue + [lot] == [lot];
      assert QueueCost([lot][1..]) == 0.0;
    } else {
      assert (queue + [lot])[1..] == queue[1..] + [lot];
      QueuePush(queue[1..], lot);
    }
  }

  predicate LotsHeld(queue: seq<Lot>) {
    forall i :: 0 <= i < |queue| ==> queue[i].quantity > 0
  }

  lemma HeldLotsArePositive(queue: seq<Lot>)
    requires LotsHeld(queue)
    ensures QueueQuantity(queue) == 0 <==> queue == []
  {
    if queue != [] {
      assert queue[0].quantity > 0;
    }
  }

  /** What a sale of `sold` shares does: the entries it emits carry the proceeds, less the cost that
      leaves the queue, less one commission each. */
  predicate SaleBalanced(m: Matching, n: Matching, sold: int, price: real, commission: real) {
    && LotsHeld(n.queue)
    && |n.pnl| >= |m.pnl|
    && (sold > 0 ==> |n.pnl| > |m.pnl|)
    && QueueQuantity(n.queue) == QueueQuantity(m.queue) - sold
    && Sum(n.pnl) - Sum(m.pnl) == Worth(price, sold) + QueueCost(n.queue) - QueueCost(m.queue)
                                  - Worth(commission, |n.pnl| - |m.pnl|)
  }

  lemma SaleBalancedTwice(l: Matching, m: Matching, n: Matching, a: int, b: int, price: real, commission: real)
    requires a >= 0 && b >= 0
    requires SaleBalanced(l, m, a, price, commission) && SaleBalanced(m, n, b, price, commission)
    ensures SaleBalanced(l, n, a + b, price, commission)
  {
    WorthAdds(price, a, b);
    WorthAdds(commission, |n.pnl| - |m.pnl|, |m.pnl| - |l.pnl|);
  }

  lemma MatchOneBalances(m: Matching, wanted: nat, price: real, commission: real)
    requires wanted > 0 && m.queue != [] && LotsHeld(m.queue)
    ensures var (n, left) := MatchOne(m, wanted, price, commission);
            SaleBalanced(m, n, wanted - left, price, commission)
  {
    var lot, tail := m.queue[0], m.queue[1..];
    var matched := Min(wanted, lot.quantity);
    var left := lot.quantity - matched;
    var (n, _) := MatchOne(m, wanted, price, commission);
    var entry := EntryPnl(price, lot.price, matched, commission);
    SumAppend(m.pnl, [entry]);
    assert Sum([entry]) == entry by {
      assert [entry][..0] == [];
    }
    WorthDiffers(price, lot.price, matched);
    WorthAdds(lot.price, left, matched);
    if left != 0 {
      assert n.queue[1..] == tail;
    }
  }

  lemma {:induction false} SellBalances(m: Matching, wanted: nat, price: real, commission: real)
    requires LotsHeld(m.queue) && wanted <= QueueQuantity(m.queue)
    ensures SaleBalanced(m, Sell(m, wanted, price, commission), wanted, price, commission)
    decreases |m.queue| + (if wanted > 0 then 1 else 0)
  {
    if wanted > 0 && m.queue != [] {
      var (next, left) := MatchOne(m, wanted, price, commission);
      MatchOneBalances(m, wanted, price, commission);
      SellBalances(next, left, price, commission);
      SaleBalancedTwice(m, next, Sell(next, left, price, commission), wanted - left, left, price, commission);
    }
  }

  /** The queue always holds exactly the shares of the position, and the gross P&L of the two methods
      differs by exactly the difference in the cost they assign to those shares. */
  lemma {:induction false} FifoAgainstAverageCost(fills: seq<Fill>)
    requires NeverShort(fills)
    ensures var m, h := Matched(fills), Ledger(fills);
            && LotsHeld(m.queue)
            && QueueQuantity(m.queue) == h.quantity
            && FifoGross(fills) == NetProceeds(fills) + QueueCost(m.queue)
            && FifoGross(fills) - AverageCostGross(fills)
               == QueueCost(m.queue) - Worth(h.avgCost, h.quantity)
  {
    FifoBalances(fills);
    LedgerBalances(fills);
  }

  predicate Balanced(m: Matching, held: int, fees: real, proceeds: real) {
    && LotsHeld(m.queue)
    && QueueQuantity(m.queue) == held
    && Sum(m.pnl) + fees == proceeds + QueueCost(m.queue)
  }

  lemma StepBalances(m: Matching, f: Fill, held: int, fees: real, proceeds: real)
    requires Balanced(m, held, fees, proceeds)
    requires f.quantity > 0 && held + SignedQuantity(f) >= 0
    ensures Balanced(Step(m, f), held + SignedQuantity(f), fees + Worth(f.commission, LotsTouched(m, f)),
                     proceeds - Worth(f.fillPrice, SignedQuantity(f)))
  {
    if f.side.Buy? {
      QueuePush(m.queue, Lot(f.fillPrice, f.quantity));
    } else {
      SellBalances(m, f.quantity, f.fillPrice, f.commission);
      WorthNegates(f.fillPrice, f.quantity);
    }
  }

  lemma {:induction false} FifoBalances(fills: seq<Fill>)
    requires NeverShort(fills)
    ensures Balanced(Matched(fills), Ledger(fills).quantity, FeesPerLot(fills), NetProceeds(fills))
  {
    if fills != [] {
      var before, f := fills[..|fills| - 1], fills[|fills| - 1];
      FifoBalances(before);
      LedgerQuantity(Ledger(before), f);
      StepBalances(Matched(before), f, Ledger(before).quantity, FeesPerLot(before), NetProceeds(before));
    }
  }

  lemma LedgerQuantity(h: Holding, f: Fill)
    ensures AfterFill(h, f).quantity == h.quantity + SignedQuantity(f)
  {
  }

  lemma {:induction false} LedgerBalances(fills: seq<Fill>)
    requires NeverShort(fills)
    ensures var h := Ledger(fills);
            && h.quantity >= 0
            && h.realised + FeesPerSale(fills) == NetProceeds(fills) + Worth(h.avgCost, h.quantity)
  {
    if fills != [] {
      var before, f := fills[..|fills| - 1], fills[|fills| - 1];
      LedgerBalances(before);
      LedgerStep(Ledger(before), f);
    }
  }

  lemma LedgerStep(h: Holding, f: Fill)
    requires h.quantity >= 0 && f.quantity > 0 && h.quantity + SignedQuantity(f) >= 0
    ensures var n := AfterFill(h, f);
            && n.quantity >= 0
            && n.realised - h.realised + (if f.side.Sell? then f.commission else 0.0)
               == -Worth(f.fillPrice, SignedQuantity(f)) + Worth(n.avgCost, n.quantity)
                  - Worth(h.avgCost, h.quantity)
  {
    var s := SignedQuantity(f);
    var n := AfterFill(h, f);
    if h.quantity == 0 {
    } else if f.side.Buy? {
      var total := Worth(h.avgCost, h.quantity) + Worth(f.fillPrice, s);
      assert total / n.quantity as real * n.quantity as real == total;
    } else {
      assert Min(Abs(s), Abs(h.quantity)) == -s;
      WorthDiffers(f.fillPrice, h.avgCost, -s);
      WorthNegates(f.fillPrice, s);
      WorthNegates(h.avgCost, s);
      WorthAdds(h.avgCost, h.quantity, s);
    }
  }

  /** Whenever the position is flat the two gross figures agree. The net figures then differ by the
      commission that matching charges for every lot of a sale beyond the first, so with
      non-negative commissions FIFO never reports more. */
  lemma FlatFiguresAgree(fills: seq<Fill>)
    requires NeverShort(fills) && Ledger(fills).quantity == 0
    ensures FifoGross(fills) == AverageCostGross(fills)
    ensures Ledger(fills).realised - Sum(Matched(fills).pnl) == FeesPerLot(fills) - FeesPerSale(fills)
  {
    FifoAgainstAverageCost(fills);
    HeldLotsArePositive(Matched(fills).queue);
  }

  /** Every sale that is charged a commission is no larger than the oldest lot held at the time. */
  predicate ChargedOnce(fills: seq<Fill>) {
    fills == [] ||
    var before, f := fills[..|fills| - 1], fills[|fills| - 1];
    && ChargedOnce(before)
    && (f.side.Buy? || f.commission == 0.0 || OldestCovers(Matched(before).queue, f.quantity))
  }

  predicate OldestCovers(queue: seq<Lot>, wanted: nat) {
    queue != [] && wanted <= queue[0].quantity
  }

  /** A sale is matched in one entry exactly when the oldest lot covers it. */
  lemma OneEntryOnly(m: Matching, wanted: nat, price: real, commission: real)
    requires LotsHeld(m.queue) && 0 < wanted <= QueueQuantity(m.queue)
    ensures |Sell(m, wanted, price, commission).pnl| == |m.pnl| + 1 <==> OldestCovers(m.queue, wanted)
  {
    var (next, left) := MatchOne(m, wanted, price, commission);
    MatchOneBalances(m, wanted, price, commission);
    SellBalances(next, left, price, commission);
  }

  /** The per-lot charge is never below the commission paid, and equals it exactly when no charged sale is larger
      than the oldest lot held. */
  lemma {:induction false} PerLotFeesOvercharge(fills: seq<Fill>)
    requires NeverShort(fills)
    requires forall i :: 0 <= i < |fills| ==> fills[i].commission >= 0.0
    ensures FeesPerLot(fills) >= FeesPerSale(fills)
    ensures FeesPerLot(fills) == FeesPerSale(fills) <==> ChargedOnce(fills)
  {
    if fills != [] {
      var before, f := fills[..|fills| - 1], fills[|fills| - 1];
      PerLotFeesOvercharge(before);
      FifoBalances(before);
      LedgerQuantity(Ledger(before), f);
      if f.side.Sell? {
        SaleFee(Matched(before), f);
      }
    }
  }

  /** What one sale is charged for its lots. */
  lemma SaleFee(m: Matching, f: Fill)
    requires f.side.Sell? && f.commission >= 0.0 && LotsHeld(m.queue) && 0 < f.quantity <= QueueQuantity(m.queue)
    ensures Worth(f.commission, LotsTouched(m, f)) >= f.commission
    ensures Worth(f.commission, LotsTouched(m, f)) == f.commission <==>
            f.commission == 0.0 || OldestCovers(m.queue, f.quantity)
  {
    SellBalances(m, f.quantity, f.fillPrice, f.commission);
    OneEntryOnly(m, f.quantity, f.fillPrice, f.commission);
    WorthMonotone(f.commission, 1, LotsTouched(m, f));
  }

  /** The case that fails: a sale that needs a second lot is charged twice. */
  lemma TwoLotSaleIsChargedTwice(a: Fill, b: Fill, c: Fill)
    requires a.side.Buy? && b.side.Buy? && c.side.Sell? && a.commission == b.commission == 0.0 && c.commission > 0.0
    requires 0 < a.quantity < c.quantity <= a.quantity + b.quantity && b.quantity > 0
    ensures FeesPerLot([a, b, c]) > FeesPerSale([a, b, c])
  {
    var one, two, all := [a], [a, b], [a, b, c];
    assert one[..0] == [] && two[..1] == one && all[..2] == two;
    assert Matched(one).queue == [Lot(a.fillPrice, a.quantity)];
    assert Matched(two).queue[0] == Lot(a.fillPrice, a.quantity);
    LedgerQuantity(FLAT, a);
    LedgerQuantity(Ledger(one), b);
    assert NeverShort(one) && NeverShort(two);
    assert all[2] == c && SignedQuantity(c) == -(c.quantity as int);
    assert NeverShort(all);
    assert !ChargedOnce(all);
    PerLotFeesOvercharge(all);
  }

  // ---- The portfolio's own figures -----------------------------------------------------------

  /** The portfolio's position in a symbol is the ledger of that symbol's fills, whatever lies between them. */
  lemma {:induction false} PositionIsLedger(initial: real, fills: seq<Fill>, s: Symbol)
    ensures At(Replayed(initial, fills), s) == Ledger(FillsOf(fills, s))
  {
    if fills != [] {
      var before, f := fills[..|fills| - 1], fills[|fills| - 1];
      PositionIsLedger(initial, before, s);
      if f.symbol == s {
        assert FillsOf(fills, s)[..|FillsOf(fills, s)| - 1] == FillsOf(before, s);
      }
    }
  }

  /** So after any trading of any symbols, the matched P&L of a symbol never sold short that is flat again differs from
      what the portfolio has realised on it by exactly the commissions of its sales beyond their first lots. */
  lemma FlatPortfolioAgrees(initial: real, fills: seq<Fill>, s: Symbol)
    requires NeverShort(FillsOf(fills, s)) && At(Replayed(initial, fills), s).quantity == 0
    ensures At(Replayed(initial, fills), s).realised - Sum(Matched(FillsOf(fills, s)).pnl)
            == FeesPerLot(FillsOf(fills, s)) - FeesPerSale(FillsOf(fills, s))
  {
    PositionIsLedger(initial, fills, s);
    FlatFiguresAgree(FillsOf(fills, s));
  }

  // ---- First in, first out -------------------------------------------------------------------

  /** All purchases, oldest first. */
  function Bought(fills: seq<Fill>): seq<Lot> {
    if fills == [] then []
    else
      var before, f := Bought(fills[..|fills| - 1]), fills[|fills| - 1];
      if f.side.Buy? then before + [Lot(f.fillPrice, f.quantity)] else before
  }

  function SharesSold(fills: seq<Fill>): nat {
    if fills == [] then 0
    else
      var f := fills[|fills| - 1];
      SharesSold(fills[..|fills| - 1]) + (if f.side.Sell? then f.quantity else 0)
  }

  /** The lots without their first `n` shares. */
  function AfterFirst(lots: seq<Lot>, n: nat): seq<Lot> {
    if n == 0 || lots == [] then lots
    else if lots[0].quantity <= n then AfterFirst(lots[1..], n - lots[0].quantity)
    else [Lot(lots[0].price, lots[0].quantity - n)] + lots[1..]
  }

  lemma {:induction false} SellTakesFirst(m: Matching, wanted: nat, price: real, commission: real)
    requires LotsHeld(m.queue)
    ensures Sell(m, wanted, price, commission).queue == AfterFirst(m.queue, wanted)
    decreases |m.queue| + (if wanted > 0 then 1 else 0)
  {
    if wanted > 0 && m.queue != [] {
      var (next, left) := MatchOne(m, wanted, price, commission);
      MatchOneBalances(m, wanted, price, commission);
      SellTakesFirst(next, left, price, commission);
    }
  }

  lemma {:induction false} FirstOfMore(lots: seq<Lot>, lot: Lot, n: nat)
    requires n <= QueueQuantity(lots)
    ensures AfterFirst(lots + [lot], n) == AfterFirst(lots, n) + [lot]
  {
    if n > 0 {
      assert (lots + [lot])[0] == lots[0] && (lots + [lot])[1..] == lots[1..] + [lot];
      if lots[0].quantity <= n {
        FirstOfMore(lots[1..], lot, n - lots[0].quantity);
      }
    }
  }

  lemma {:induction false} FirstTwice(lots: seq<Lot>, a: nat, b: nat)
    requires LotsHeld(lots)
    ensures AfterFirst(AfterFirst(lots, a), b) == AfterFirst(lots, a + b)
  {
    if a > 0 && lots != [] {
      if lots[0].quantity <= a {
        FirstTwice(lots[1..], a - lots[0].quantity, b);
      } else {
        var rest := AfterFirst(lots, a);
        assert rest[1..] == lots[1..];
      }
    }
  }

  lemma {:induction false} BoughtQuantity(fills: seq<Fill>)
    requires NeverShort(fills)
    ensures LotsHeld(Bought(fills)) && QueueQuantity(Bought(fills)) - SharesSold(fills) == Ledger(fills).quantity
  {
    if fills != [] {
      var init, f := fills[..|fills| - 1], fills[|fills| - 1];
      BoughtQuantity(init);
      if f.side.Buy? {
        QueuePush(Bought(init), Lot(f.fillPrice, f.quantity));
      }
    }
  }

  /** With holdings never negative the queue is always what the purchases leave when as many shares as were sold are
      taken from the oldest of them. */
  lemma {:induction false} QueueIsRest(fills: seq<Fill>)
    requires NeverShort(fills)
    ensures Matched(fills).queue == AfterFirst(Bought(fills), SharesSold(fills))
  {
    if fills != [] {
      var init, f := fills[..|fills| - 1], fills[|fills| - 1];
      QueueIsRest(init);
      SoldWasBought(init);
      OneFillMore(fills);
      StepLeavesRest(Matched(init), f, Bought(init), SharesSold(init));
    }
  }

  lemma OneFillMore(fills: seq<Fill>)
    requires fills != []
    ensures var (init, f) := (fills[..|fills| - 1], fills[|fills| - 1]);
            && Matched(fills) == Step(Matched(init), f)
            && Bought(fills) == Bought(init) + (if f.side.Buy? then [Lot(f.fillPrice, f.quantity)] else [])
            && SharesSold(fills) == SharesSold(init) + (if f.side.Sell? then f.quantity else 0)
  {
  }

  lemma SoldWasBought(fills: seq<Fill>)
    requires NeverShort(fills)
    ensures LotsHeld(Matched(fills).queue) && LotsHeld(Bought(fills))
    ensures SharesSold(fills) <= QueueQuantity(Bought(fills))
  {
    BoughtQuantity(fills);
    LedgerStays(fills);
    FifoBalances(fills);
  }

  lemma StepLeavesRest(m: Matching, f: Fill, lots: seq<Lot>, sold: nat)
    requires LotsHeld(m.queue) && LotsHeld(lots) && sold <= QueueQuantity(lots) && m.queue == AfterFirst(lots, sold)
    ensures Step(m, f).queue == if f.side.Buy? then AfterFirst(lots + [Lot(f.fillPrice, f.quantity)], sold)
                                else AfterFirst(lots, sold + f.quantity)
  {
    if f.side.Buy? {
      FirstOfMore(lots, Lot(f.fillPrice, f.quantity), sold);
    } else {
      SellTakesFirst(m, f.quantity, f.fillPrice, f.commission);
      FirstTwice(lots, sold, f.quantity);
    }
  }

  lemma LedgerStays(fills: seq<Fill>)
    requires NeverShort(fills)
    ensures Ledger(fills).quantity >= 0
  {
  }
}
