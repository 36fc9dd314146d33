/** The domain entities of cpat/core: enumerations, orders, fills, bars, positions and costs.
    Money is `real`; a share quantity is a whole number. */
module Models {

  type Symbol = string
  type Time = int        // an instant, in whole seconds
  type OrderId = nat     // stands for a UUID

  datatype Option<+T> = None | Some(value: T)
  datatype Result<+T, +E> = Ok(value: T) | Err(error: E)

  datatype Side = Buy | Sell
  datatype OrderType = Market | Limit | Stop | StopLimit
  datatype Direction = Long | Flat | Short
  datatype OrderStatus = Pending | Submitted | PartiallyFilled | Filled | Cancelled | Rejected | Expired
  {
    predicate IsTerminal() {
      Filled? || Cancelled? || Rejected? || Expired?
    }
  }

  function Abs(x: int): int {
    if x < 0 then -x else x
  }

  function AbsR(x: real): real {
    if x < 0.0 then -x else x
  }

  function Min(a: int, b: int): int {
    if a < b then a else b
  }

  function MinR(a: real, b: real): real {
    if b < a then b else a
  }

  /** No element occurs twice. */
  ghost predicate Distinct<T>(xs: seq<T>) {
    forall i, j :: 0 <= i < j < |xs| ==> xs[i] != xs[j]
  }

  lemma DistinctAppend<T>(xs: seq<T>, x: T)
    requires Distinct(xs) && x !in xs
    ensures Distinct(xs + [x])
  {
  }

  function MaxR(a: real, b: real): real {
    if b > a then b else a
  }

  /** The value of `n` shares. The lemmas beside it are all the arithmetic that callers need. */
  function Worth(price: real, n: int): real {
    price * n as real
  }

  lemma WorthAdds(price: real, a: int, b: int)
    ensures Worth(price, a + b) == Worth(price, a) + Worth(price, b)
  {
  }

  lemma WorthNegates(price: real, n: int)
    ensures Worth(price, -n) == -Worth(price, n)
  {
  }

  lemma WorthDiffers(p: real, q: real, n: int)
    ensures Worth(p - q, n) == Worth(p, n) - Worth(q, n)
  {
  }

  lemma WorthMonotone(p: real, a: int, b: int)
    requires p >= 0.0 && a <= b
    ensures Worth(p, a) <= Worth(p, b)
    ensures p > 0.0 && a < b ==> Worth(p, a) < Worth(p, b)
  {
    var d := (b - a) as real;
    assert Worth(p, b) - Worth(p, a) == p * d;
    assert p > 0.0 && d > 0.0 ==> p * d > 0.0;
  }

  lemma QuotientFits(budget: real, price: real, n: int)
    requires price > 0.0
    ensures n as real <= budget / price <==> Worth(price, n) <= budget
  {
    var x := budget / price;
    assert x * price == budget;
    assert n as real <= x ==> n as real * price <= x * price;
    assert n as real > x ==> n as real * price > x * price;
  }

  /** The largest whole number of shares a budget pays for. */
  function Shares(budget: real, price: real): (q: int)
    requires price > 0.0
    ensures Worth(price, q) <= budget < Worth(price, q + 1)
  {
    var q := (budget / price).Floor;
    SharesFit(budget, price, q);
    q
  }

  lemma SharesFit(budget: real, price: real, q: int)
    requires price > 0.0 && q == (budget / price).Floor
    ensures Worth(price, q) <= budget < Worth(price, q + 1)
  {
    QuotientFits(budget, price, q);
    QuotientFits(budget, price, q + 1);
  }

  /** A fraction of a sum of money. */
  function Fraction(amount: real, pct: real): real {
    amount * pct
  }

  /** The metadata keys the engines read back from an order. */
  datatype Tags = Tags(stopPrice: Option<real>, takeProfit: Option<real>, closing: bool)

  datatype OrderData = OrderData(
    id: OrderId, symbol: Symbol, side: Side, kind: OrderType, quantity: int,
    limitPrice: Option<real>, stopPrice: Option<real>,
    timestamp: Time, strategyId: string, signalId: Option<nat>, tags: Tags)
  {
    /** What the order's own constructor enforces. */
    predicate Valid() {
      && quantity > 0
      && (kind.Limit? || kind.StopLimit? ==> limitPrice.Some?)
      && (kind.Stop? || kind.StopLimit? ==> stopPrice.Some?)
    }
  }

  const SAMPLE_ORDER := OrderData(0, "", Buy, Market, 1, None, None, 0, "", None, Tags(None, None, false))

  type Order = o: OrderData | o.Valid() witness SAMPLE_ORDER

  datatype Fill = Fill(
    fillId: nat, orderId: OrderId, symbol: Symbol, side: Side, quantity: nat,
    fillPrice: real, commission: real, slippage: real, timestamp: Time)

  /** The fill is what the order asked for, in full. */
  predicate Fulfils(f: Fill, o: Order) {
    f.orderId == o.id && f.symbol == o.symbol && f.side == o.side && f.quantity == o.quantity
  }

  /** No order has two fills. */
  ghost predicate OneFillEach(fills: seq<Fill>) {
    forall i, j :: 0 <= i < j < |fills| ==> fills[i].orderId != fills[j].orderId
  }

  datatype BarData = BarData(open: real, high: real, low: real, close: real, volume: real)
  {
    /** What the bar's own constructor enforces. */
    predicate Valid() {
      high >= low && open > 0.0 && high > 0.0 && low > 0.0 && close > 0.0 && volume >= 0.0
    }
  }

  type Bar = b: BarData | b.Valid() witness BarData(1.0, 1.0, 1.0, 1.0, 0.0)

  // ---- Positions -----------------------------------------------------------------------------

  datatype Holding = Holding(quantity: int, avgCost: real, realised: real, openedAt: Option<Time>)

  const FLAT := Holding(0, 0.0, 0.0, None)

  function SignedQuantity(f: Fill): int {
    if f.side.Buy? then f.quantity else -(f.quantity as int)
  }

  /** Buys cost money, sells bring it in, both pay the commission. */
  function CashEffect(f: Fill): real {
    if f.side.Buy? then -Worth(f.fillPrice, f.quantity) - f.commission
    else Worth(f.fillPrice, f.quantity) - f.commission
  }

  predicate SameSign(a: int, b: int) {
    (a > 0 && b > 0) || (a < 0 && b < 0)
  }

  /** The volume-weighted cost after adding `added` shares to `held` of the same sign. */
  function MixedCost(avgCost: real, held: int, price: real, added: int): real
    requires SameSign(held, added)
  {
    (Worth(avgCost, Abs(held)) + Worth(price, Abs(added))) / Abs(held + added) as real
  }

  /** The gross gain on the shares that a trade of the opposite sign closes. */
  function ClosingPnl(avgCost: real, held: int, price: real, traded: int): real {
    Worth((price - avgCost) * (if held > 0 then 1.0 else -1.0), Min(Abs(traded), Abs(held)))
  }

  /** One fill on one position: open, add at the weighted average cost, or reduce and perhaps flip.
      The residue test `abs(quantity) < 1e-9` is exact on whole shares. */
  function AfterFill(h: Holding, f: Fill): Holding {
    var s := SignedQuantity(f);
    if h.quantity == 0 then
      Holding(s, f.fillPrice, h.realised, Some(f.timestamp))
    else if SameSign(h.quantity, s) then
      Holding(h.quantity + s, MixedCost(h.avgCost, h.quantity, f.fillPrice, s), h.realised, h.openedAt)
    else
      var realised := h.realised + (ClosingPnl(h.avgCost, h.quantity, f.fillPrice, s) - f.commission);
      var left := h.quantity + s;
      if left == 0 then Holding(0, 0.0, realised, None)
      else if SameSign(left, s) then Holding(left, f.fillPrice, realised, h.openedAt)
      else Holding(left, h.avgCost, realised, h.openedAt)
  }

  function MarketValue(h: Holding, price: real): real {
    Worth(price, h.quantity)
  }

  function UnrealisedGain(h: Holding, price: real): real {
    if h.quantity == 0 then 0.0 else Worth(price - h.avgCost, h.quantity)
  }

  class Position {
    var quantity: int
    var avgCost: real
    var realisedPnl: real
    var openedAt: Option<Time>

    ghost function Value(): Holding
      reads this
    {
      Holding(quantity, avgCost, realisedPnl, openedAt)
    }

    constructor ()
      ensures Value() == FLAT
    {
      quantity, avgCost, realisedPnl, openedAt := 0, 0.0, 0.0, None;
    }

    method ApplyFill(fill: Fill)
      modifies this
      ensures Value() == AfterFill(old(Value()), fill)
    {
      var signed := SignedQuantity(fill);
      if quantity == 0 {
        quantity, avgCost, openedAt := signed, fill.fillPrice, Some(fill.timestamp);
      } else if SameSign(quantity, signed) {
        avgCost := MixedCost(avgCost, quantity, fill.fillPrice, signed);
        quantity := quantity + signed;
      } else {
        realisedPnl := realisedPnl + (ClosingPnl(avgCost, quantity, fill.fillPrice, signed) - fill.commission);
        quantity := quantity + signed;
        if quantity == 0 {
          avgCost, openedAt := 0.0, None;
        } else if SameSign(quantity, signed) {
          avgCost := fill.fillPrice;
        }
      }
    }
  }

  // ---- Costs ---------------------------------------------------------------------------------

  datatype CommissionModel = NoCommission | PerShare | Percentage

  datatype CostConfig = CostConfig(model: CommissionModel, value: real, minimum: real)
  {
    function Commission(quantity: int, price: real): real {
      match model
      case NoCommission => 0.0
      case PerShare => MaxR(value * quantity as real, minimum)
      case Percentage => MaxR(value * quantity as real * price, minimum)
    }
  }
}
