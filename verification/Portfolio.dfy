/** cpat/portfolio/manager.py: cash, positions and the fill trail. */
module Portfolio {
  import opened Models
  import opened Totals

  type Prices = map<Symbol, real>

  datatype Book = Book(initial: real, cash: real, positions: map<Symbol, Holding>, fills: seq<Fill>)

  /** A symbol never traded is held flat. */
  function At(b: Book, s: Symbol): Holding {
    if s in b.positions then b.positions[s] else FLAT
  }

  function Applied(b: Book, f: Fill): Book {
    Book(b.initial, b.cash + CashEffect(f),
         b.positions[f.symbol := AfterFill(At(b, f.symbol), f)], b.fills + [f])
  }

  /** The book a fill sequence leads to. */
  function Replayed(initial: real, fills: seq<Fill>): Book
  {
    if fills == [] then Book(initial, initial, map[], [])
    else Applied(Replayed(initial, fills[..|fills| - 1]), fills[|fills| - 1])
  }

  predicate Marked(prices: Prices, s: Symbol) {
    s in prices && prices[s] > 0.0
  }

  /** The symbols with an open position. */
  function OpenSymbols(b: Book): set<Symbol> {
    set s | s in b.positions && b.positions[s].quantity != 0
  }

  /** The open positions that have a usable price, with their market values. */
  function MarketValues(b: Book, prices: Prices): map<Symbol, real> {
    map s | s in b.positions && b.positions[s].quantity != 0 && Marked(prices, s)
      :: MarketValue(b.positions[s], prices[s])
  }

  function Magnitudes(m: map<Symbol, real>): map<Symbol, real> {
    map s | s in m :: AbsR(m[s])
  }

  function PaperGains(b: Book, prices: Prices): map<Symbol, real> {
    map s | s in b.positions && b.positions[s].quantity != 0 && Marked(prices, s)
      :: UnrealisedGain(b.positions[s], prices[s])
  }

  function RealisedGains(b: Book): map<Symbol, real> {
    map s | s in b.positions :: b.positions[s].realised
  }

  function InSector(m: map<Symbol, real>, sectors: map<Symbol, string>, sector: string): map<Symbol, real> {
    map s | s in m && SectorOf(sectors, s) == sector :: m[s]
  }

  function SectorOf(sectors: map<Symbol, string>, s: Symbol): string {
    if s in sectors then sectors[s] else "Unknown"
  }

  ghost function EquityAt(b: Book, prices: Prices): real {
    b.cash + Total(MarketValues(b, prices))
  }

  ghost function GrossAt(b: Book, prices: Prices): real {
    Total(Magnitudes(MarketValues(b, prices)))
  }

  ghost function SectorAt(b: Book, prices: Prices, sectors: map<Symbol, string>, sector: string): real {
    Total(InSector(Magnitudes(MarketValues(b, prices)), sectors, sector))
  }

  class PortfolioManager {
    const initialCapital: real
    const sectors: map<Symbol, string>
    var cash: real
    var positions: map<Symbol, Position>
    var fills: seq<Fill>

    ghost function Repr(): set<object>
      reads this
    {
      {this} + positions.Values
    }

    /** Two symbols never share a position object. */
    ghost predicate Valid()
      reads this
    {
      forall s, t :: s in positions && t in positions && s != t ==> positions[s] != positions[t]
    }

    ghost function State(): Book
      reads Repr()
    {
      Book(initialCapital, cash, map s | s in positions :: positions[s].Value(), fills)
    }

    constructor (initialCapital: real, sectors: map<Symbol, string>)
      requires initialCapital > 0.0
      ensures Valid() && fresh(Repr())
      ensures State() == Replayed(initialCapital, [])
      ensures this.sectors == sectors
    {
      this.initialCapital, this.sectors := initialCapital, sectors;
      cash, positions, fills := initialCapital, map[], [];
    }

    method ApplyFill(fill: Fill)
      requires Valid()
      modifies Repr()
      ensures Valid() && fresh(Repr() - old(Repr()))
      ensures State() == Applied(old(State()), fill)
    {
      ghost var before := State();
      cash := cash + CashEffect(fill);
      if fill.symbol !in positions {
        var position := new Position();
        positions := positions[fill.symbol := position];
      }
      var position := positions[fill.symbol];
      assert position.Value() == At(before, fill.symbol);
      position.ApplyFill(fill);
      fills := fills + [fill];
      assert State().positions == before.positions[fill.symbol := position.Value()];
    }

    method TotalEquity(prices: Prices) returns (equity: real)
      requires Valid()
      ensures equity == EquityAt(State(), prices)
    {
      ghost var b := State();
      ghost var values := MarketValues(b, prices);
      equity := cash;
      var left := positions.Keys;
      OnlyAll(values, left);
      while left != {}
        invariant State() == b && left <= positions.Keys
        invariant equity + Total(Only(values, left)) == cash + Total(values)
        decreases left
      {
        var s :| s in left;
        OnlyPeel(values, left, s);
        var h := GetPosition(s);
        if h.quantity != 0 && s in prices && prices[s] > 0.0 {
          equity := equity + MarketValue(h, prices[s]);
        }
        left := left - {s};
      }
      OnlyNone(values);
    }

    /** Sum of absolute position values, optionally of one sector only. */
    method Exposure(prices: Prices, sector: Option<string>) returns (total: real)
      requires Valid()
      ensures sector.None? ==> total == GrossAt(State(), prices)
      ensures sector.Some? ==> total == SectorAt(State(), prices, sectors, sector.value)
    {
      ghost var b := State();
      ghost var all := Magnitudes(MarketValues(b, prices));
      ghost var values := if sector.None? then all else InSector(all, sectors, sector.value);
      total := 0.0;
      var left := positions.Keys;
      OnlyAll(values, left);
      while left != {}
        invariant State() == b && left <= positions.Keys
        invariant total + Total(Only(values, left)) == Total(values)
        decreases left
      {
        var s :| s in left;
        OnlyPeel(values, left, s);
        var h := GetPosition(s);
        if h.quantity != 0 && s in prices && prices[s] > 0.0 {
          if sector.None? || SectorOf(sectors, s) == sector.value {
            total := total + AbsR(MarketValue(h, prices[s]));
          }
        }
        left := left - {s};
      }
      OnlyNone(values);
    }

    method RealisedPnl() returns (total: real)
      requires Valid()
      ensures total == Total(RealisedGains(State()))
    {
      ghost var b := State();
      ghost var values := RealisedGains(b);
      total := 0.0;
      var left := positions.Keys;
      OnlyAll(values, left);
      while left != {}
        invariant State() == b && left <= positions.Keys
        invariant total + Total(Only(values, left)) == Total(values)
        decreases left
      {
        var s :| s in left;
        OnlyPeel(values, left, s);
        var h := GetPosition(s);
        total := total + h.realised;
        left := left - {s};
      }
      OnlyNone(values);
    }

    method UnrealisedPnl(prices: Prices) returns (total: real)
      requires Valid()
      ensures total == Total(PaperGains(State(), prices))
    {
      ghost var b := State();
      ghost var values := PaperGains(b, prices);
      total := 0.0;
      var left := positions.Keys;
      OnlyAll(values, left);
      while left != {}
        invariant State() == b && left <= positions.Keys
        invariant total + Total(Only(values, left)) == Total(values)
        decreases left
      {
        var s :| s in left;
        OnlyPeel(values, left, s);
        var h := GetPosition(s);
        if h.quantity != 0 && s in prices && prices[s] > 0.0 {
          total := total + UnrealisedGain(h, prices[s]);
        }
        left := left - {s};
      }
      OnlyNone(values);
    }

    method OpenPositions() returns (open: set<Symbol>)
      requires Valid()
      ensures open == OpenSymbols(State())
    {
      open := set s | s in positions && positions[s].quantity != 0;
    }

    method GetPosition(symbol: Symbol) returns (h: Holding)
      requires Valid()
      ensures h == At(State(), symbol)
    {
      if symbol in positions {
        var p := positions[symbol];
        h := Holding(p.quantity, p.avgCost, p.realisedPnl, p.openedAt);
      } else {
        h := FLAT;
      }
    }
  }
}
