/** cpat/risk/risk_manager.py: per-position stop levels with an optional trailing ratchet. */
module StopLoss {
  import opened Models

  datatype Level = Level(
    entry: real, stop: real, takeProfit: Option<real>, trailing: bool, distance: real,
    highWater: real, strategyId: string, triggered: bool)

  function NewLevel(entry: real, stop: real, takeProfit: Option<real>, trailing: bool, strategyId: string): Level {
    Level(entry, stop, takeProfit, trailing, MaxR(entry - stop, 0.01), entry, strategyId, false)
  }

  function Ratchet(l: Level, price: real): Level {
    if !l.trailing || l.triggered || price <= l.highWater then l
    else l.(highWater := price, stop := MaxR(l.stop, price - l.distance))
  }

  predicate Breached(l: Level, bar: Bar) {
    !l.triggered && (bar.low <= l.stop || (l.takeProfit.Some? && bar.high >= l.takeProfit.value))
  }

  /** One bar on one level: first the ratchet at the high, then the test of low and high. */
  function Watched(l: Level, bar: Bar): Level {
    var r := Ratchet(l, bar.high);
    r.(triggered := r.triggered || Breached(r, bar))
  }

  class StopLevel {
    const entry: real
    var stop: real
    const takeProfit: Option<real>
    const trailing: bool
    const distance: real
    var highWater: real
    const strategyId: string
    var triggered: bool

    ghost function Value(): Level
      reads this
    {
      Level(entry, stop, takeProfit, trailing, distance, highWater, strategyId, triggered)
    }

    constructor (entry: real, stop: real, takeProfit: Option<real>, trailing: bool, strategyId: string)
      ensures Value() == NewLevel(entry, stop, takeProfit, trailing, strategyId)
    {
      this.entry, this.stop, this.takeProfit, this.trailing := entry, stop, takeProfit, trailing;
      this.distance := MaxR(entry - stop, 0.01);
      this.highWater, this.strategyId, this.triggered := entry, strategyId, false;
    }

    method UpdateTrailing(price: real)
      modifies this
      ensures Value() == Ratchet(old(Value()), price)
    {
      if !trailing || triggered {
        return;
      }
      if price > highWater {
        highWater := price;
        var newStop := highWater - distance;
        if newStop > stop {
          stop := newStop;
        }
      }
    }

    /** The body of the tracker's loop: does this bar stop out or take profit? */
    method Watch(bar: Bar) returns (hit: bool)
      modifies this
      ensures Value() == Watched(old(Value()), bar)
      ensures hit <==> !old(triggered) && triggered
    {
      if triggered {
        return false;
      }
      UpdateTrailing(bar.high);
      if bar.low <= stop {
        triggered := true;
      } else if takeProfit.Some? && bar.high >= takeProfit.value {
        triggered := true;
      }
      hit := triggered;
    }
  }

  // ---- The tracker ---------------------------------------------------------------------------

  type Levels = map<Symbol, Level>
  type Bars = map<Symbol, Bar>

  predicate Fires(ls: Levels, bars: Bars, s: Symbol) {
    s in ls && s in bars && !ls[s].triggered && Watched(ls[s], bars[s]).triggered
  }

  function Seen(l: Level, bars: Bars, s: Symbol): Level {
    if s in bars then Watched(l, bars[s]) else l
  }

  /** The levels that fire are dropped, the others have seen the bar. */
  function LevelsAfter(ls: Levels, bars: Bars): Levels {
    map s | s in ls && !Fires(ls, bars, s) :: Seen(ls[s], bars, s)
  }

  /** The symbols that fire, each once. The order is that of the dictionary, which the model leaves open. */
  ghost predicate IsFired(fired: seq<Symbol>, ls: Levels, bars: Bars) {
    && Distinct(fired)
    && forall s :: s in fired <==> Fires(ls, bars, s)
  }

  /** All levels but those `left` have seen the bars. */
  function SeenBut(ls: Levels, left: set<Symbol>, bars: Bars): Levels {
    map s | s in ls :: if s in left then ls[s] else Seen(ls[s], bars, s)
  }

  lemma SeeOne(ls: Levels, left: set<Symbol>, bars: Bars, s: Symbol)
    requires s in left && s in ls
    ensures var part := SeenBut(ls, left, bars);
            && SeenBut(ls, left - {s}, bars) == part[s := Seen(part[s], bars, s)]
            && (Fires(part, bars, s) <==> Fires(ls, bars, s))
  {
  }

  class StopLossTracker {
    const defaultTrailing: bool
    var levels: map<Symbol, StopLevel>

    ghost function Repr(): set<object>
      reads this
    {
      {this} + levels.Values
    }

    ghost predicate Valid()
      reads this
    {
      forall s, t :: s in levels && t in levels && s != t ==> levels[s] != levels[t]
    }

    ghost function State(): Levels
      reads Repr()
    {
      map s | s in levels :: levels[s].Value()
    }

    constructor (trailing: bool)
      ensures Valid() && fresh(Repr()) && State() == map[]
      ensures defaultTrailing == trailing
    {
      defaultTrailing, levels := trailing, map[];
    }

    method Register(symbol: Symbol, entry: real, stop: real, strategyId: string, takeProfit: Option<real>,
                    trailing: Option<bool>)
      requires Valid()
      modifies this
      ensures Valid() && fresh(Repr() - old(Repr()))
      ensures var use := if trailing.Some? then trailing.value else defaultTrailing;
              State() == old(State())[symbol := NewLevel(entry, stop, takeProfit, use, strategyId)]
    {
      var use := if trailing.Some? then trailing.value else defaultTrailing;
      var level := new StopLevel(entry, stop, takeProfit, use, strategyId);
      levels := levels[symbol := level];
    }

    method Deregister(symbol: Symbol)
      requires Valid()
      modifies this
      ensures Valid() && Repr() <= old(Repr())
      ensures State() == old(State()) - {symbol}
    {
      levels := levels - {symbol};
    }

    method Drop(gone: seq<Symbol>)
      requires Valid()
      modifies this
      ensures Valid() && Repr() <= old(Repr())
      ensures State() == map s | s in old(State()) && s !in gone :: old(State())[s]
    {
      levels := map s | s in levels && s !in gone :: levels[s];
    }

    method WatchOne(symbol: Symbol, bars: Bars) returns (hit: bool)
      requires Valid() && symbol in levels
      modifies Repr()
      ensures Valid() && levels == old(levels)
      ensures State() == old(State())[symbol := Seen(old(State())[symbol], bars, symbol)]
      ensures hit <==> Fires(old(State()), bars, symbol)
    {
      hit := false;
      if symbol in bars {
        hit := levels[symbol].Watch(bars[symbol]);
      }
      assert levels[symbol].Value() == Seen(old(State())[symbol], bars, symbol);
    }

    method WatchAll(bars: Bars) returns (fired: seq<Symbol>)
      requires Valid()
      modifies Repr()
      ensures Valid() && Repr() == old(Repr())
      ensures IsFired(fired, old(State()), bars)
      ensures State() == map s | s in old(State()) :: Seen(old(State())[s], bars, s)
    {
      ghost var before := State();
      fired := [];
      var left := levels.Keys;
      while left != {}
        invariant Valid() && levels == old(levels) && left <= levels.Keys
        invariant Distinct(fired) && forall s :: s in fired <==> s !in left && Fires(before, bars, s)
        invariant State() == SeenBut(before, left, bars)
        decreases left
      {
        var symbol :| symbol in left;
        SeeOne(before, left, bars, symbol);
        var hit := WatchOne(symbol, bars);
        left := left - {symbol};
        if hit {
          DistinctAppend(fired, symbol);
          fired := fired + [symbol];
        }
      }
    }

    method CheckStops(bars: Bars) returns (fired: seq<Symbol>)
      requires Valid()
      modifies Repr()
      ensures Valid() && Repr() <= old(Repr())
      ensures IsFired(fired, old(State()), bars)
      ensures State() == LevelsAfter(old(State()), bars)
    {
      fired := WatchAll(bars);
      Drop(fired);
    }
  }

  // ---- The ratchet in closed form ------------------------------------------------------------

  function HighestSince(entry: real, bars: seq<Bar>): real {
    if bars == [] then entry else MaxR(HighestSince(entry, bars[..|bars| - 1]), bars[|bars| - 1].high)
  }

  function WatchedAll(l: Level, bars: seq<Bar>): Level {
    if bars == [] then l else Watched(WatchedAll(l, bars[..|bars| - 1]), bars[|bars| - 1])
  }

  /** The stop in force after `bars`, from the initial level alone. */
  function StopAfter(l: Level, bars: seq<Bar>): real {
    if l.trailing then MaxR(l.stop, HighestSince(l.entry, bars) - MaxR(l.entry - l.stop, 0.01)) else l.stop
  }

  /** Bar `k` reaches the stop in force at it, or the target. */
  predicate Exits(l: Level, bars: seq<Bar>, k: nat)
    requires k < |bars|
  {
    bars[k].low <= StopAfter(l, bars[..k + 1]) || (l.takeProfit.Some? && bars[k].high >= l.takeProfit.value)
  }

  predicate Fresh(l: Level) {
    !l.triggered && l.highWater == l.entry && l.distance == MaxR(l.entry - l.stop, 0.01)
  }

  /** As long as no bar has exited, a registered level holds its closed form; the level fires at the first
      bar that exits, and never again. */
  lemma {:induction false} RatchetClosedForm(l: Level, bars: seq<Bar>)
    requires Fresh(l)
    ensures var w := WatchedAll(l, bars);
            && (w.triggered <==> exists k :: 0 <= k < |bars| && Exits(l, bars, k))
            && (!w.triggered ==> w.stop == StopAfter(l, bars))
            && (!w.triggered && l.trailing ==> w.highWater == HighestSince(l.entry, bars))
            && w.(stop := l.stop, highWater := l.highWater, triggered := false) == l
  {
    if bars != [] {
      var n := |bars| - 1;
      RatchetClosedForm(l, bars[..n]);
      assert bars[..n + 1] == bars;
      forall k | 0 <= k < n ensures Exits(l, bars, k) <==> Exits(l, bars[..n], k) {
        assert bars[..n][..k + 1] == bars[..k + 1];
      }
      HighestCoversEntry(l.entry, bars[..n]);
      var before := WatchedAll(l, bars[..n]);
      if !before.triggered {
        assert Ratchet(before, bars[n].high).stop == StopAfter(l, bars);
        assert WatchedAll(l, bars).triggered <==> Exits(l, bars, n);
      }
    }
  }

  lemma {:induction false} HighestCoversEntry(entry: real, bars: seq<Bar>)
    ensures HighestSince(entry, bars) >= entry
  {
    if bars != [] {
      HighestCoversEntry(entry, bars[..|bars| - 1]);
    }
  }

  /** More bars never lower the stop, and a level that has fired stays fired. */
  lemma {:induction false} StopNeverFalls(l: Level, bars: seq<Bar>, more: seq<Bar>)
    ensures WatchedAll(l, bars).stop <= WatchedAll(l, bars + more).stop
    ensures WatchedAll(l, bars).triggered ==> WatchedAll(l, bars + more) == WatchedAll(l, bars)
  {
    if more == [] {
      assert bars + more == bars;
    } else {
      assert (bars + more)[..|bars + more| - 1] == bars + more[..|more| - 1];
      StopNeverFalls(l, bars, more[..|more| - 1]);
    }
  }

  // ---- A registration over the life of the tracker -------------------------------------------

  datatype Event = Registration(symbol: Symbol, level: Level) | Removal(symbol: Symbol) | Check(bars: Bars)

  /** The levels after any use of the tracker. */
  function Tracked(ls: Levels, events: seq<Event>): Levels {
    if events == [] then ls
    else
      var before := Tracked(ls, events[..|events| - 1]);
      match events[|events| - 1]
      case Registration(s, l) => before[s := l]
      case Removal(s) => before - {s}
      case Check(bars) => LevelsAfter(before, bars)
  }

  /** Check `i` lists the symbol. */
  predicate Lists(ls: Levels, events: seq<Event>, i: nat, s: Symbol)
    requires i < |events|
  {
    events[i].Check? && Fires(Tracked(ls, events[..i]), events[i].bars, s)
  }

  /** The bars of a symbol that the checks have seen. */
  function BarsOf(events: seq<Event>, s: Symbol): seq<Bar> {
    if events == [] then []
    else
      var before, e := BarsOf(events[..|events| - 1], s), events[|events| - 1];
      if e.Check? && s in e.bars then before + [e.bars[s]] else before
  }

  /** Nobody else registers or removes the symbol. */
  ghost predicate LeftAlone(events: seq<Event>, s: Symbol) {
    forall i :: 0 <= i < |events| && !events[i].Check? ==> events[i].symbol != s
  }

  /** The last bar is the first that exits. */
  predicate FirstExit(l: Level, bars: seq<Bar>) {
    bars != [] && Exits(l, bars, |bars| - 1) && forall k :: 0 <= k < |bars| - 1 ==> !Exits(l, bars, k)
  }

  /** Check `i` is the first whose bar reaches the stop in force or the target. */
  predicate ExitsAt(l: Level, events: seq<Event>, i: nat, s: Symbol)
    requires i < |events|
  {
    events[i].Check? && s in events[i].bars && FirstExit(l, BarsOf(events[..i + 1], s))
  }

  ghost predicate ListedOnce(ls: Levels, events: seq<Event>, s: Symbol) {
    forall i, j :: 0 <= i < j < |events| && Lists(ls, events, i, s) ==> !Lists(ls, events, j, s)
  }

  lemma ExitsInPrefix(l: Level, bars: seq<Bar>, bar: Bar)
    ensures forall k :: 0 <= k < |bars| ==> (Exits(l, bars + [bar], k) <==> Exits(l, bars, k))
  {
    forall k | 0 <= k < |bars| ensures Exits(l, bars + [bar], k) <==> Exits(l, bars, k) {
      assert (bars + [bar])[..k + 1] == bars[..k + 1];
    }
  }

  ghost predicate NoExit(l: Level, bars: seq<Bar>) {
    forall k :: 0 <= k < |bars| ==> !Exits(l, bars, k)
  }

  /** One more bar on a level that no bar has exited. */
  lemma WatchingOn(l: Level, bars: seq<Bar>, bar: Bar)
    requires Fresh(l)
    ensures WatchedAll(l, bars + [bar]) == Watched(WatchedAll(l, bars), bar)
    ensures WatchedAll(l, bars).triggered <==> !NoExit(l, bars)
    ensures FirstExit(l, bars + [bar]) <==> NoExit(l, bars) && !NoExit(l, bars + [bar])
  {
    assert (bars + [bar])[..|bars|] == bars;
    RatchetClosedForm(l, bars);
    ExitsInPrefix(l, bars, bar);
  }

  /** A registered level is in the tracker as long as none of its bars has exited, and holds what they made of it. */
  lemma {:induction false} RegistrationLives(ls: Levels, s: Symbol, l: Level, events: seq<Event>)
    requires Fresh(l) && LeftAlone(events, s)
    ensures var after, seen := Tracked(ls[s := l], events), BarsOf(events, s);
            (s in after <==> NoExit(l, seen)) && (s in after ==> after[s] == WatchedAll(l, seen))
  {
    if events != [] {
      var init, e := events[..|events| - 1], events[|events| - 1];
      RegistrationLives(ls, s, l, init);
      if e.Check? && s in e.bars {
        WatchingOn(l, BarsOf(init, s), e.bars[s]);
        WatchedAllFires(l, BarsOf(init, s), e.bars[s]);
      }
    }
  }

  lemma WatchedAllFires(l: Level, bars: seq<Bar>, bar: Bar)
    requires Fresh(l)
    ensures WatchedAll(l, bars + [bar]).triggered <==> !NoExit(l, bars + [bar])
  {
    RatchetClosedForm(l, bars + [bar]);
  }

  /** Over any use of the tracker a registration is listed at exactly the check whose bar is its first to reach the
      stop in force or the target, and so at most once. */
  lemma ListedAtFirstExit(ls: Levels, s: Symbol, l: Level, events: seq<Event>)
    requires Fresh(l) && LeftAlone(events, s)
    ensures forall i :: 0 <= i < |events| ==> (Lists(ls[s := l], events, i, s) <==> ExitsAt(l, events, i, s))
    ensures ListedOnce(ls[s := l], events, s)
  {
    forall i | 0 <= i < |events| ensures Lists(ls[s := l], events, i, s) <==> ExitsAt(l, events, i, s) {
      CheckLists(ls, s, l, events, i);
    }
    var start := ls[s := l];
    forall i, j | 0 <= i < j < |events| && Lists(start, events, i, s) ensures !Lists(start, events, j, s) {
      RegistrationLives(ls, s, l, events[..i + 1]);
      assert ExitsAt(l, events, i, s);
      assert events[..j][..i + 1] == events[..i + 1];
      GoneStaysGone(start, s, events[..j], i + 1);
    }
  }

  lemma CheckLists(ls: Levels, s: Symbol, l: Level, events: seq<Event>, i: nat)
    requires Fresh(l) && LeftAlone(events, s) && i < |events|
    ensures Lists(ls[s := l], events, i, s) <==> ExitsAt(l, events, i, s)
  {
    assert events[..i + 1][..i] == events[..i];
    RegistrationLives(ls, s, l, events[..i]);
    if events[i].Check? && s in events[i].bars {
      WatchingOn(l, BarsOf(events[..i], s), events[i].bars[s]);
      WatchedAllFires(l, BarsOf(events[..i], s), events[i].bars[s]);
    }
  }

  lemma {:induction false} GoneStaysGone(ls: Levels, s: Symbol, events: seq<Event>, n: nat)
    requires LeftAlone(events, s) && n <= |events| && s !in Tracked(ls, events[..n])
    ensures s !in Tracked(ls, events)
  {
    if n == |events| {
      assert events[..n] == events;
    } else {
      assert events[..|events| - 1][..n] == events[..n];
      GoneStaysGone(ls, s, events[..|events| - 1], n);
    }
  }
}
