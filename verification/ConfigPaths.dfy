/** ui/services/config_service.py: nested configuration, its dotted paths, and overrides by path.
    A dictionary is the list of its entries in insertion order. */
module ConfigPaths {
  import opened Models

  datatype Value = Number(real) | Text(string) | Flag(bool) | Nothing | Items(seq<Value>)

  datatype Node = Leaf(value: Value) | Dict(entries: seq<Entry>)
  datatype Entry = Entry(key: string, node: Node)
  datatype Pair = Pair(path: string, value: Value)

  // ---- Paths ---------------------------------------------------------------------------------

  function Join(prefix: string, key: string): string {
    if prefix == "" then key else prefix + "." + key
  }

  predicate DotFree(s: string) {
    '.' !in s
  }

  /** `path.split(".")`. */
  function Split(path: string): (parts: seq<string>)
    ensures parts != []
  {
    if DotFree(path) then [path]
    else
      var i := FirstDot(path);
      [path[..i]] + Split(path[i + 1..])
  }

  function FirstDot(path: string): (i: nat)
    requires !DotFree(path)
    ensures i < |path| && path[i] == '.' && '.' !in path[..i]
  {
    if path[0] == '.' then 0
    else
      assert path == [path[0]] + path[1..];
      var i := FirstDot(path[1..]);
      assert path[..i + 1] == [path[0]] + path[1..][..i];
      i + 1
  }

  // ---- Flattening ----------------------------------------------------------------------------

  /** `flat[path] = value`: an existing key keeps its place. */
  function Put(flat: seq<Pair>, path: string, value: Value): seq<Pair> {
    if flat == [] then [Pair(path, value)]
    else if flat[0].path == path then [Pair(path, value)] + flat[1..]
    else [flat[0]] + Put(flat[1..], path, value)
  }

  function PutAll(flat: seq<Pair>, more: seq<Pair>): seq<Pair> {
    if more == [] then flat
    else Put(PutAll(flat, more[..|more| - 1]), more[|more| - 1].path, more[|more| - 1].value)
  }

  function Flatten(entries: seq<Entry>, prefix: string): seq<Pair> {
    if entries == [] then []
    else
      var before, e := Flatten(entries[..|entries| - 1], prefix), entries[|entries| - 1];
      match e.node
      case Leaf(value) => Put(before, Join(prefix, e.key), value)
      case Dict(sub) => PutAll(before, Flatten(sub, Join(prefix, e.key)))
  }

  method FlattenConfig(entries: seq<Entry>, prefix: string) returns (flat: seq<Pair>)
    ensures flat == Flatten(entries, prefix)
    decreases entries
  {
    flat := [];
    for i := 0 to |entries|
      invariant flat == Flatten(entries[..i], prefix)
    {
      assert entries[..i + 1][..i] == entries[..i];
      var path := Join(prefix, entries[i].key);
      match entries[i].node {
        case Leaf(value) =>
          flat := Put(flat, path, value);
        case Dict(sub) =>
          var inner := FlattenConfig(sub, path);
          flat := PutAll(flat, inner);
      }
    }
    assert entries[..|entries|] == entries;
  }

  // ---- Setting a path ------------------------------------------------------------------------

  /** The cursor walk: missing dictionaries are made on the way; a leaf on the way raises. */
  function SetPath(entries: seq<Entry>, parts: seq<string>, value: Value): Option<seq<Entry>>
    requires parts != []
    decreases |parts|, |entries|
  {
    if entries == [] then
      if |parts| == 1 then Some([Entry(parts[0], Leaf(value))])
      else
        var inner := SetPath([], parts[1..], value);
        if inner.None? then None else Some([Entry(parts[0], Dict(inner.value))])
    else if entries[0].key != parts[0] then
      var rest := SetPath(entries[1..], parts, value);
      if rest.None? then None else Some([entries[0]] + rest.value)
    else if |parts| == 1 then Some([Entry(parts[0], Leaf(value))] + entries[1..])
    else
      match entries[0].node
      case Leaf(_) => None
      case Dict(sub) =>
        var inner := SetPath(sub, parts[1..], value);
        if inner.None? then None else Some([Entry(parts[0], Dict(inner.value))] + entries[1..])
  }

  function Overridden(base: seq<Entry>, flat: seq<Pair>): Option<seq<Entry>> {
    if flat == [] then Some(base)
    else
      var before, p := Overridden(base, flat[..|flat| - 1]), flat[|flat| - 1];
      if before.None? then None else SetPath(before.value, Split(p.path), p.value)
  }

  function Unflatten(flat: seq<Pair>): Option<seq<Entry>> {
    Overridden([], flat)
  }

  method ApplyOverrides(base: seq<Entry>, overrides: seq<Pair>) returns (merged: Option<seq<Entry>>)
    ensures merged == Overridden(base, overrides)
  {
    var config := base;
    for i := 0 to |overrides|
      invariant Overridden(base, overrides[..i]) == Some(config)
    {
      assert overrides[..i + 1][..i] == overrides[..i];
      var next := SetPath(config, Split(overrides[i].path), overrides[i].value);
      if next.None? {
        FailureStays(base, overrides, i + 1);
        return None;
      }
      config := next.value;
    }
    assert overrides[..|overrides|] == overrides;
    return Some(config);
  }

  method UnflattenConfig(flat: seq<Pair>) returns (nested: Option<seq<Entry>>)
    ensures nested == Unflatten(flat)
  {
    nested := ApplyOverrides([], flat);
  }

  lemma {:induction false} FailureStays(base: seq<Entry>, flat: seq<Pair>, n: nat)
    requires n <= |flat| && Overridden(base, flat[..n]).None?
    ensures Overridden(base, flat).None?
    decreases |flat|
  {
    if n < |flat| {
      var init := flat[..|flat| - 1];
      assert init[..n] == flat[..n];
      FailureStays(base, init, n);
    } else {
      assert flat[..n] == flat;
    }
  }

  // ---- When an override fails ----------------------------------------------------------------

  /** What a path leads to, by the first entry under each key. */
  function Lookup(entries: seq<Entry>, parts: seq<string>): Option<Node>
    requires parts != []
    decreases |parts|, |entries|
  {
    if entries == [] then None
    else if entries[0].key != parts[0] then Lookup(entries[1..], parts)
    else if |parts| == 1 then Some(entries[0].node)
    else
      match entries[0].node
      case Leaf(_) => None
      case Dict(sub) => Lookup(sub, parts[1..])
  }

  /** The first `k` keys of the path lead to a value. */
  predicate LeafAt(entries: seq<Entry>, parts: seq<string>, k: nat)
    requires 0 < k <= |parts|
  {
    var found := Lookup(entries, parts[..k]);
    found.Some? && found.value.Leaf?
  }

  /** Setting a path fails exactly when a shorter one already leads to a value; afterwards the path leads to the new
      value. */
  lemma {:induction false} SetPathIsExact(entries: seq<Entry>, parts: seq<string>, value: Value)
    requires parts != []
    ensures SetPath(entries, parts, value).None? <==> exists k :: 0 < k < |parts| && LeafAt(entries, parts, k)
    ensures SetPath(entries, parts, value).Some? ==>
              Lookup(SetPath(entries, parts, value).value, parts) == Some(Leaf(value))
    decreases |parts|, |entries|
  {
    if entries == [] {
      if |parts| > 1 {
        SetPathIsExact([], parts[1..], value);
        NothingAtAll(parts[1..]);
      }
      NothingAtAll(parts);
    } else if entries[0].key != parts[0] {
      SetPathIsExact(entries[1..], parts, value);
      forall k | 0 < k < |parts| ensures LeafAt(entries, parts, k) <==> LeafAt(entries[1..], parts, k) {
      }
    } else if |parts| > 1 && entries[0].node.Dict? {
      var sub := entries[0].node.entries;
      SetPathIsExact(sub, parts[1..], value);
      LeafBelow(entries, parts, sub);
    } else if |parts| > 1 {
      assert LeafAt(entries, parts, 1);
    }
  }

  lemma NothingAtAll(parts: seq<string>)
    ensures forall k :: 0 < k < |parts| ==> !LeafAt([], parts, k)
  {
  }

  lemma LeafBelow(entries: seq<Entry>, parts: seq<string>, sub: seq<Entry>)
    requires entries != [] && |parts| > 1 && entries[0] == Entry(parts[0], Dict(sub))
    ensures (exists k :: 0 < k < |parts| && LeafAt(entries, parts, k))
            <==> exists k :: 0 < k < |parts[1..]| && LeafAt(sub, parts[1..], k)
  {
    assert !LeafAt(entries, parts, 1);
    forall k | 1 < k < |parts| ensures LeafAt(entries, parts, k) <==> LeafAt(sub, parts[1..], k - 1) {
      assert parts[..k][1..] == parts[1..][..k - 1];
    }
    if k :| 0 < k < |parts[1..]| && LeafAt(sub, parts[1..], k) {
      assert LeafAt(entries, parts, k + 1);
    }
    if k :| 0 < k < |parts| && LeafAt(entries, parts, k) {
      assert LeafAt(sub, parts[1..], k - 1);
    }
  }

  /** The override meets a value on its way. */
  ghost predicate Blocked(entries: seq<Entry>, p: Pair) {
    exists k :: 0 < k < |Split(p.path)| && LeafAt(entries, Split(p.path), k)
  }

  /** The override is reached, and blocked by what the ones before it have made of the configuration. */
  ghost predicate FailsAt(base: seq<Entry>, overrides: seq<Pair>, i: nat)
    requires i < |overrides|
  {
    var before := Overridden(base, overrides[..i]);
    before.Some? && Blocked(before.value, overrides[i])
  }

  /** A list of overrides fails exactly when one of them is blocked. */
  lemma {:induction false} OverridesFail(base: seq<Entry>, overrides: seq<Pair>)
    ensures Overridden(base, overrides).None? <==> exists i :: 0 <= i < |overrides| && FailsAt(base, overrides, i)
  {
    if overrides != [] {
      var init, n := overrides[..|overrides| - 1], |overrides| - 1;
      OverridesFail(base, init);
      forall i | 0 <= i < n ensures FailsAt(base, overrides, i) <==> FailsAt(base, init, i) {
        assert init[..i] == overrides[..i];
      }
      var before := Overridden(base, init);
      if before.Some? {
        SetPathIsExact(before.value, Split(overrides[n].path), overrides[n].value);
        assert FailsAt(base, overrides, n) <==> Overridden(base, overrides).None?;
      }
    }
  }

  // ---- Leaf paths as lists of keys -----------------------------------------------------------

  datatype Route = Route(parts: seq<string>, value: Value)

  function Under(key: string, routes: seq<Route>): seq<Route> {
    seq(|routes|, i requires 0 <= i < |routes| => Route([key] + routes[i].parts, routes[i].value))
  }

  function RoutesOf(e: Entry): seq<Route> {
    match e.node
    case Leaf(value) => [Route([e.key], value)]
    case Dict(sub) => Under(e.key, Routes(sub))
  }

  /** The leaves in order, each with the keys that lead to it. */
  function Routes(entries: seq<Entry>): seq<Route> {
    if entries == [] then [] else Routes(entries[..|entries| - 1]) + RoutesOf(entries[|entries| - 1])
  }

  ghost predicate DistinctKeys(entries: seq<Entry>) {
    forall i, j :: 0 <= i < j < |entries| ==> entries[i].key != entries[j].key
  }

  /** A dictionary, all the way down. */
  ghost predicate IsDict(entries: seq<Entry>) {
    && DistinctKeys(entries)
    && forall i :: 0 <= i < |entries| && entries[i].node.Dict? ==> IsDict(entries[i].node.entries)
  }

  /** Keys without dots. */
  predicate Dotless(entries: seq<Entry>) {
    forall i :: 0 <= i < |entries| ==>
      DotFree(entries[i].key) && (entries[i].node.Dict? ==> Dotless(entries[i].node.entries))
  }

  /** Keys without dots, and no empty dictionary inside. */
  predicate Plain(entries: seq<Entry>) {
    forall i :: 0 <= i < |entries| ==>
      && DotFree(entries[i].key)
      && (entries[i].node.Dict? ==> entries[i].node.entries != [] && Plain(entries[i].node.entries))
  }

  /** No dictionary under the empty key: as a prefix it would be taken for none. */
  predicate NamedAtTop(entries: seq<Entry>) {
    forall i :: 0 <= i < |entries| && entries[i].node.Dict? ==> entries[i].key != ""
  }

  // ---- Splitting a joined path ---------------------------------------------------------------

  function PathOf(parts: seq<string>): string
    requires parts != []
  {
    if |parts| == 1 then parts[0] else PathOf(parts[..|parts| - 1]) + "." + parts[|parts| - 1]
  }

  predicate AllDotFree(parts: seq<string>) {
    forall i :: 0 <= i < |parts| ==> DotFree(parts[i])
  }

  lemma {:induction false} SplitIsDotFree(path: string)
    ensures AllDotFree(Split(path))
    decreases |path|
  {
    if !DotFree(path) {
      SplitIsDotFree(path[FirstDot(path) + 1..]);
    }
  }

  lemma FirstDotIs(path: string, i: nat)
    requires i < |path| && path[i] == '.' && DotFree(path[..i])
    ensures !DotFree(path) && FirstDot(path) == i
  {
    var k := FirstDot(path);
    forall j | 0 <= j < |path| ensures (j < i || j < k) ==> path[j] != '.' {
      assert j < i ==> path[..i][j] == path[j];
      assert j < k ==> path[..k][j] == path[j];
    }
  }

  lemma SplitAt(path: string, i: nat)
    requires i < |path| && path[i] == '.' && DotFree(path[..i])
    ensures Split(path) == [path[..i]] + Split(path[i + 1..])
  {
    FirstDotIs(path, i);
  }

  lemma CutAt(a: string, b: string, i: nat)
    requires i <= |a|
    ensures var path := a + "." + b;
            && path[..i] == a[..i]
            && (if i < |a| then path[i] == a[i] && path[i + 1..] == a[i + 1..] + "." + b
                else path[i] == '.' && path[i + 1..] == b)
  {
    assert i == |a| ==> a[..i] == a;
  }

  lemma {:induction false} SplitAppend(a: string, b: string)
    requires DotFree(b)
    ensures Split(a + "." + b) == Split(a) + [b]
    decreases |a|, 1
  {
    if DotFree(a) {
      CutAt(a, b, |a|);
      assert a[..|a|] == a;
      SplitAt(a + "." + b, |a|);
    } else {
      SplitAppendFrom(a, b, FirstDot(a));
    }
  }

  lemma {:induction false} SplitAppendFrom(a: string, b: string, i: nat)
    requires DotFree(b) && i < |a| && a[i] == '.' && DotFree(a[..i])
    ensures Split(a + "." + b) == Split(a) + [b]
    decreases |a|, 0
  {
    CutAt(a, b, i);
    SplitAt(a + "." + b, i);
    SplitAt(a, i);
    SplitAppend(a[i + 1..], b);
  }

  lemma {:induction false} SplitPathOf(parts: seq<string>)
    requires parts != [] && AllDotFree(parts)
    ensures Split(PathOf(parts)) == parts
  {
    if |parts| > 1 {
      var init, last := parts[..|parts| - 1], parts[|parts| - 1];
      SplitPathOf(init);
      SplitAppend(PathOf(init), last);
      assert parts == init + [last];
    }
  }

  // ---- Routes of a well-formed configuration -------------------------------------------------

  ghost predicate DistinctParts(routes: seq<Route>) {
    forall i, j :: 0 <= i < j < |routes| ==> routes[i].parts != routes[j].parts
  }

  predicate HasKey(entries: seq<Entry>, key: string) {
    exists i :: 0 <= i < |entries| && entries[i].key == key
  }

  /** Every route starts with a key of the dictionary and has no dots. */
  predicate RoutesFrom(routes: seq<Route>, entries: seq<Entry>) {
    forall i :: 0 <= i < |routes| ==>
      routes[i].parts != [] && AllDotFree(routes[i].parts) && HasKey(entries, routes[i].parts[0])
  }

  lemma {:induction false} RoutesAreGood(entries: seq<Entry>)
    requires IsDict(entries) && Dotless(entries)
    ensures RoutesFrom(Routes(entries), entries) && DistinctParts(Routes(entries))
    decreases entries
  {
    if entries != [] {
      var init, e := entries[..|entries| - 1], entries[|entries| - 1];
      RoutesAreGood(init);
      if e.node.Dict? {
        RoutesAreGood(e.node.entries);
        UnderIsDistinct(e.key, Routes(e.node.entries));
      }
      var a, b := Routes(init), RoutesOf(e);
      forall i | 0 <= i < |a| ensures HasKey(entries, a[i].parts[0]) && a[i].parts[0] != e.key {
        var k :| 0 <= k < |init| && init[k].key == a[i].parts[0];
        assert entries[k].key != entries[|init|].key;
      }
      assert entries[|init|].key == e.key;
      forall i | 0 <= i < |b| ensures b[i].parts != [] && AllDotFree(b[i].parts) && b[i].parts[0] == e.key {
      }
    }
  }

  lemma UnderIsDistinct(key: string, routes: seq<Route>)
    requires DistinctParts(routes)
    ensures DistinctParts(Under(key, routes))
  {
    var u := Under(key, routes);
    forall i, j | 0 <= i < j < |u| ensures u[i].parts != u[j].parts {
      assert u[i].parts[1..] == routes[i].parts && u[j].parts[1..] == routes[j].parts;
    }
  }

  // ---- Flattening lists the routes -----------------------------------------------------------

  function Pairs(pre: seq<string>, routes: seq<Route>): seq<Pair>
    requires forall i :: 0 <= i < |routes| ==> routes[i].parts != []
  {
    seq(|routes|, i requires 0 <= i < |routes| => Pair(PathOf(pre + routes[i].parts), routes[i].value))
  }

  lemma {:induction false} PutNew(flat: seq<Pair>, path: string, value: Value)
    requires forall i :: 0 <= i < |flat| ==> flat[i].path != path
    ensures Put(flat, path, value) == flat + [Pair(path, value)]
  {
    if flat != [] {
      PutNew(flat[1..], path, value);
    }
  }

  lemma PathsDiffer(pre: seq<string>, a: seq<string>, b: seq<string>)
    requires AllDotFree(pre) && AllDotFree(a) && AllDotFree(b) && a != [] && b != [] && a != b
    ensures PathOf(pre + a) != PathOf(pre + b)
  {
    SplitPathOf(pre + a);
    SplitPathOf(pre + b);
    assert (pre + a)[|pre|..] == a && (pre + b)[|pre|..] == b;
  }

  predicate GoodParts(routes: seq<Route>) {
    forall i :: 0 <= i < |routes| ==> routes[i].parts != [] && AllDotFree(routes[i].parts)
  }

  lemma {:induction false} PutAllNew(pre: seq<string>, a: seq<Route>, b: seq<Route>)
    requires AllDotFree(pre) && GoodParts(a) && GoodParts(b) && DistinctParts(a + b)
    ensures PutAll(Pairs(pre, a), Pairs(pre, b)) == Pairs(pre, a + b)
  {
    if b == [] {
      assert a + b == a;
    } else {
      var init, r := b[..|b| - 1], b[|b| - 1];
      assert (a + b)[..|a + b| - 1] == a + init;
      PutAllNew(pre, a, init);
      assert a + b == (a + init) + [r];
      PutNextNew(pre, a + init, r);
      assert Pairs(pre, b)[..|b| - 1] == Pairs(pre, init);
    }
  }

  lemma PutNextNew(pre: seq<string>, routes: seq<Route>, r: Route)
    requires AllDotFree(pre) && GoodParts(routes) && r.parts != [] && AllDotFree(r.parts) && DistinctParts(routes + [r])
    ensures GoodParts(routes + [r])
    ensures Put(Pairs(pre, routes), PathOf(pre + r.parts), r.value) == Pairs(pre, routes + [r])
  {
    var before := Pairs(pre, routes);
    forall i | 0 <= i < |before| ensures before[i].path != PathOf(pre + r.parts) {
      assert (routes + [r])[i].parts != (routes + [r])[|routes|].parts;
      PathsDiffer(pre, routes[i].parts, r.parts);
    }
    PutNew(before, PathOf(pre + r.parts), r.value);
    assert Pairs(pre, routes + [r]) == before + [Pair(PathOf(pre + r.parts), r.value)];
  }

  /** The prefix that stands for a list of keys; the empty one stands for none. */
  predicate Stands(prefix: string, pre: seq<string>) {
    AllDotFree(pre) && if pre == [] then prefix == "" else prefix == PathOf(pre) && prefix != ""
  }

  lemma JoinExtends(prefix: string, pre: seq<string>, key: string)
    requires Stands(prefix, pre) && DotFree(key)
    ensures Join(prefix, key) == PathOf(pre + [key])
    ensures (pre == [] ==> key != "") ==> Stands(Join(prefix, key), pre + [key])
  {
    if pre != [] {
      assert (pre + [key])[..|pre|] == pre;
    }
  }

  lemma PairsUnder(pre: seq<string>, key: string, routes: seq<Route>)
    requires forall i :: 0 <= i < |routes| ==> routes[i].parts != []
    ensures Pairs(pre + [key], routes) == Pairs(pre, Under(key, routes))
  {
    forall i | 0 <= i < |routes| ensures pre + [key] + routes[i].parts == pre + ([key] + routes[i].parts) {
    }
  }

  lemma LeafStep(prefix: string, pre: seq<string>, routes: seq<Route>, key: string, value: Value)
    requires Stands(prefix, pre) && DotFree(key)
    requires GoodParts(routes + [Route([key], value)]) && DistinctParts(routes + [Route([key], value)])
    ensures GoodParts(routes)
    ensures Put(Pairs(pre, routes), Join(prefix, key), value) == Pairs(pre, routes + [Route([key], value)])
  {
    var last := [Route([key], value)];
    GoodTail(routes, last);
    JoinExtends(prefix, pre, key);
    PutAllNew(pre, routes, last);
    assert Pairs(pre, last) == [Pair(PathOf(pre + [key]), value)];
    assert Pairs(pre, last)[..0] == [];
  }

  lemma DictStep(pre: seq<string>, routes: seq<Route>, key: string, sub: seq<Route>)
    requires AllDotFree(pre) && GoodParts(routes + Under(key, sub)) && DistinctParts(routes + Under(key, sub))
             && GoodParts(sub)
    ensures GoodParts(routes)
    ensures PutAll(Pairs(pre, routes), Pairs(pre + [key], sub)) == Pairs(pre, routes + Under(key, sub))
  {
    GoodTail(routes, Under(key, sub));
    PairsUnder(pre, key, sub);
    PutAllNew(pre, routes, Under(key, sub));
  }

  lemma DotlessPrefix(entries: seq<Entry>)
    requires IsDict(entries) && Dotless(entries) && entries != []
    ensures var init, e := entries[..|entries| - 1], entries[|entries| - 1];
            && IsDict(init) && Dotless(init) && (NamedAtTop(entries) ==> NamedAtTop(init)) && DotFree(e.key)
            && (e.node.Dict? ==> IsDict(e.node.entries) && Dotless(e.node.entries))
  {
  }

  lemma RoutesFit(entries: seq<Entry>)
    requires IsDict(entries) && Dotless(entries)
    ensures GoodParts(Routes(entries)) && DistinctParts(Routes(entries))
  {
    RoutesAreGood(entries);
  }

  lemma {:induction false} FlattenListsRoutes(entries: seq<Entry>, prefix: string, pre: seq<string>)
    requires IsDict(entries) && Dotless(entries) && Stands(prefix, pre) && (pre == [] ==> NamedAtTop(entries))
    ensures GoodParts(Routes(entries)) && Flatten(entries, prefix) == Pairs(pre, Routes(entries))
    decreases entries
  {
    RoutesFit(entries);
    if entries != [] {
      var init, e := entries[..|entries| - 1], entries[|entries| - 1];
      DotlessPrefix(entries);
      FlattenListsRoutes(init, prefix, pre);
      match e.node {
        case Leaf(value) =>
          assert Routes(entries) == Routes(init) + [Route([e.key], value)];
          LeafStep(prefix, pre, Routes(init), e.key, value);
        case Dict(sub) =>
          JoinExtends(prefix, pre, e.key);
          FlattenListsRoutes(sub, Join(prefix, e.key), pre + [e.key]);
          assert Routes(entries) == Routes(init) + Under(e.key, Routes(sub));
          DictStep(pre, Routes(init), e.key, Routes(sub));
      }
    }
  }

  lemma GoodTail(a: seq<Route>, b: seq<Route>)
    requires GoodParts(a + b)
    ensures GoodParts(a) && GoodParts(b)
  {
    forall i | 0 <= i < |b| ensures b[i].parts != [] && AllDotFree(b[i].parts) {
      assert (a + b)[|a| + i] == b[i];
    }
    forall i | 0 <= i < |a| ensures a[i].parts != [] && AllDotFree(a[i].parts) {
      assert (a + b)[i] == a[i];
    }
  }

  // ---- Rebuilding from the routes ------------------------------------------------------------

  function SetRoutes(base: seq<Entry>, routes: seq<Route>): Option<seq<Entry>>
    requires forall i :: 0 <= i < |routes| ==> routes[i].parts != []
  {
    if routes == [] then Some(base)
    else
      var before, r := SetRoutes(base, routes[..|routes| - 1]), routes[|routes| - 1];
      if before.None? then None else SetPath(before.value, r.parts, r.value)
  }

  lemma {:induction false} OverriddenFollowsRoutes(base: seq<Entry>, routes: seq<Route>)
    requires GoodParts(routes)
    ensures Overridden(base, Pairs([], routes)) == SetRoutes(base, routes)
  {
    if routes != [] {
      var init, r := routes[..|routes| - 1], routes[|routes| - 1];
      OverriddenFollowsRoutes(base, init);
      assert Pairs([], routes)[..|routes| - 1] == Pairs([], init);
      assert [] + r.parts == r.parts;
      SplitPathOf(r.parts);
    }
  }

  lemma {:induction false} SetRoutesConcat(base: seq<Entry>, a: seq<Route>, b: seq<Route>)
    requires forall i :: 0 <= i < |a| ==> a[i].parts != []
    requires forall i :: 0 <= i < |b| ==> b[i].parts != []
    ensures SetRoutes(base, a + b) == if SetRoutes(base, a).None? then None else SetRoutes(SetRoutes(base, a).value, b)
  {
    if b == [] {
      assert a + b == a;
    } else {
      assert (a + b)[..|a + b| - 1] == a + b[..|b| - 1];
      SetRoutesConcat(base, a, b[..|b| - 1]);
    }
  }

  /** Entries under other keys are passed over. */
  lemma {:induction false} SetThrough(init: seq<Entry>, rest: seq<Entry>, parts: seq<string>, value: Value)
    requires parts != [] && !HasKey(init, parts[0])
    ensures SetPath(init + rest, parts, value)
            == var r := SetPath(rest, parts, value); if r.None? then None else Some(init + r.value)
  {
    if init == [] {
      assert init + rest == rest;
      assert SetPath(rest, parts, value).Some? ==>
             init + SetPath(rest, parts, value).value == SetPath(rest, parts, value).value;
    } else {
      assert (init + rest)[1..] == init[1..] + rest;
      assert init[0].key != parts[0];
      forall i | 0 <= i < |init[1..]| ensures init[1..][i].key != parts[0] {
        assert init[i + 1].key != parts[0];
      }
      SetThrough(init[1..], rest, parts, value);
      var r := SetPath(rest, parts, value);
      if r.Some? {
        assert [init[0]] + (init[1..] + r.value) == init + r.value;
      }
    }
  }

  /** Setting below a dictionary that is the last entry. */
  lemma SetBelow(init: seq<Entry>, key: string, sub: seq<Entry>, parts: seq<string>, value: Value)
    requires parts != [] && !HasKey(init, key)
    ensures SetPath(init + [Entry(key, Dict(sub))], [key] + parts, value)
            == var r := SetPath(sub, parts, value); if r.None? then None else Some(init + [Entry(key, Dict(r.value))])
  {
    var last, r := [Entry(key, Dict(sub))], SetPath(sub, parts, value);
    SetThrough(init, last, [key] + parts, value);
    assert ([key] + parts)[1..] == parts;
    assert r.Some? ==> [Entry(key, Dict(r.value))] + last[1..] == [Entry(key, Dict(r.value))];
  }

  lemma SetNewBelow(init: seq<Entry>, key: string, parts: seq<string>, value: Value)
    requires parts != [] && !HasKey(init, key)
    ensures SetPath(init, [key] + parts, value)
            == var r := SetPath([], parts, value); if r.None? then None else Some(init + [Entry(key, Dict(r.value))])
  {
    assert init + [] == init;
    SetThrough(init, [], [key] + parts, value);
    assert ([key] + parts)[1..] == parts;
  }

  /** A whole sub-dictionary is rebuilt in its place. */
  lemma {:induction false} SetRoutesBelow(init: seq<Entry>, key: string, routes: seq<Route>)
    requires routes != [] && !HasKey(init, key) && forall i :: 0 <= i < |routes| ==> routes[i].parts != []
    ensures SetRoutes(init, Under(key, routes))
            == var r := SetRoutes([], routes); if r.None? then None else Some(init + [Entry(key, Dict(r.value))])
  {
    var before, r := routes[..|routes| - 1], routes[|routes| - 1];
    assert Under(key, routes)[..|routes| - 1] == Under(key, before);
    if before == [] {
      SetNewBelow(init, key, r.parts, r.value);
    } else {
      SetRoutesBelow(init, key, before);
      if SetRoutes([], before).Some? {
        SetBelow(init, key, SetRoutes([], before).value, r.parts, r.value);
      }
    }
  }

  lemma PlainPrefix(entries: seq<Entry>)
    requires IsDict(entries) && Plain(entries) && entries != []
    ensures var init, e := entries[..|entries| - 1], entries[|entries| - 1];
            && IsDict(init) && Plain(init) && DotFree(e.key)
            && (e.node.Dict? ==> IsDict(e.node.entries) && Plain(e.node.entries) && e.node.entries != [])
  {
  }

  lemma {:induction false} PlainIsDotless(entries: seq<Entry>)
    requires Plain(entries)
    ensures Dotless(entries)
    decreases entries
  {
    forall i | 0 <= i < |entries| && entries[i].node.Dict? ensures Dotless(entries[i].node.entries) {
      PlainIsDotless(entries[i].node.entries);
    }
  }

  lemma {:induction false} RoutesRebuild(entries: seq<Entry>)
    requires IsDict(entries) && Plain(entries)
    ensures GoodParts(Routes(entries)) && SetRoutes([], Routes(entries)) == Some(entries)
    ensures entries != [] ==> Routes(entries) != []
    decreases entries
  {
    PlainIsDotless(entries);
    RoutesFit(entries);
    if entries != [] {
      var init, e := entries[..|entries| - 1], entries[|entries| - 1];
      PlainPrefix(entries);
      RoutesRebuild(init);
      assert !HasKey(init, e.key) by {
        forall i | 0 <= i < |init| ensures init[i].key != e.key {
          assert entries[i].key != entries[|init|].key;
        }
      }
      GoodTail(Routes(init), RoutesOf(e));
      SetRoutesConcat([], Routes(init), RoutesOf(e));
      assert entries == init + [e];
      match e.node {
        case Leaf(value) =>
          LeafRebuilds(init, e.key, value);
        case Dict(sub) =>
          RoutesRebuild(sub);
          SetRoutesBelow(init, e.key, Routes(sub));
      }
    }
  }

  lemma LeafRebuilds(init: seq<Entry>, key: string, value: Value)
    requires !HasKey(init, key)
    ensures SetRoutes(init, [Route([key], value)]) == Some(init + [Entry(key, Leaf(value))])
  {
    assert [Route([key], value)][..0] == [];
    assert init + [] == init;
    SetThrough(init, [], [key], value);
  }

  // ---- The round trip ------------------------------------------------------------------------

  /** Whatever is set, the keys made have no dots and no dictionary is left empty. */
  lemma {:induction false} SetKeepsPlain(entries: seq<Entry>, parts: seq<string>, value: Value)
    requires Plain(entries) && parts != [] && AllDotFree(parts)
    ensures var r := SetPath(entries, parts, value); r.Some? ==> Plain(r.value) && r.value != []
    decreases |parts|, |entries|
  {
    if entries == [] {
      if |parts| > 1 {
        SetKeepsPlain([], parts[1..], value);
      }
    } else if entries[0].key != parts[0] {
      SetKeepsPlain(entries[1..], parts, value);
    } else if |parts| > 1 && entries[0].node.Dict? {
      SetKeepsPlain(entries[0].node.entries, parts[1..], value);
    }
  }

  lemma {:induction false} OverriddenStaysPlain(base: seq<Entry>, flat: seq<Pair>)
    requires Plain(base)
    ensures Overridden(base, flat).Some? ==> Plain(Overridden(base, flat).value)
  {
    if flat != [] {
      var init, p := flat[..|flat| - 1], flat[|flat| - 1];
      OverriddenStaysPlain(base, init);
      SplitIsDotFree(p.path);
      if Overridden(base, init).Some? {
        SetKeepsPlain(Overridden(base, init).value, Split(p.path), p.value);
      }
    }
  }

  predicate NoDotFirst(path: string) {
    path == "" || path[0] != '.'
  }

  predicate NoneDotFirst(flat: seq<Pair>) {
    forall i :: 0 <= i < |flat| ==> NoDotFirst(flat[i].path)
  }

  lemma {:induction false} PutKeepsStart(flat: seq<Pair>, path: string, value: Value)
    requires NoneDotFirst(flat) && NoDotFirst(path)
    ensures NoneDotFirst(Put(flat, path, value))
  {
    if flat != [] && flat[0].path != path {
      PutKeepsStart(flat[1..], path, value);
    }
  }

  lemma {:induction false} PutAllKeepsStart(flat: seq<Pair>, more: seq<Pair>)
    requires NoneDotFirst(flat) && NoneDotFirst(more)
    ensures NoneDotFirst(PutAll(flat, more))
  {
    if more != [] {
      PutAllKeepsStart(flat, more[..|more| - 1]);
      PutKeepsStart(PutAll(flat, more[..|more| - 1]), more[|more| - 1].path, more[|more| - 1].value);
    }
  }

  lemma {:induction false} FlattenStarts(entries: seq<Entry>, prefix: string)
    requires Plain(entries) && NoDotFirst(prefix)
    ensures NoneDotFirst(Flatten(entries, prefix))
    decreases entries
  {
    if entries != [] {
      var init, e := entries[..|entries| - 1], entries[|entries| - 1];
      FlattenStarts(init, prefix);
      assert NoDotFirst(Join(prefix, e.key));
      match e.node {
        case Leaf(value) => PutKeepsStart(Flatten(init, prefix), Join(prefix, e.key), value);
        case Dict(sub) =>
          FlattenStarts(sub, Join(prefix, e.key));
          PutAllKeepsStart(Flatten(init, prefix), Flatten(sub, Join(prefix, e.key)));
      }
    }
  }

  lemma {:induction false} SetKeepsNamed(entries: seq<Entry>, parts: seq<string>, value: Value)
    requires NamedAtTop(entries) && parts != [] && (parts[0] == "" ==> |parts| == 1)
    ensures var r := SetPath(entries, parts, value); r.Some? ==> NamedAtTop(r.value)
    decreases |entries|
  {
    if entries != [] && entries[0].key != parts[0] {
      SetKeepsNamed(entries[1..], parts, value);
    }
  }

  lemma {:induction false} OverriddenStaysNamed(base: seq<Entry>, flat: seq<Pair>)
    requires NamedAtTop(base) && NoneDotFirst(flat)
    ensures Overridden(base, flat).Some? ==> NamedAtTop(Overridden(base, flat).value)
  {
    if flat != [] {
      var init, p := flat[..|flat| - 1], flat[|flat| - 1];
      OverriddenStaysNamed(base, init);
      if Overridden(base, init).Some? {
        assert Split(p.path)[0] == "" ==> |Split(p.path)| == 1;
        SetKeepsNamed(Overridden(base, init).value, Split(p.path), p.value);
      }
    }
  }

  /** Expanding the flattened form gives the configuration back, order included, exactly when its keys have no
      dots, no sub-dictionary is empty, and no dictionary sits under the empty key at the top. */
  lemma RoundTrip(entries: seq<Entry>)
    requires IsDict(entries)
    ensures Unflatten(Flatten(entries, "")) == Some(entries) <==> Plain(entries) && NamedAtTop(entries)
  {
    if Plain(entries) && NamedAtTop(entries) {
      PlainIsDotless(entries);
      FlattenListsRoutes(entries, "", []);
      RoutesRebuild(entries);
      OverriddenFollowsRoutes([], Routes(entries));
    } else if Unflatten(Flatten(entries, "")) == Some(entries) {
      OverriddenStaysPlain([], Flatten(entries, ""));
      FlattenStarts(entries, "");
      OverriddenStaysNamed([], Flatten(entries, ""));
      assert false;
    }
  }

  // ---- Overrides on existing leaves ----------------------------------------------------------

  predicate Leads(routes: seq<Route>, parts: seq<string>) {
    exists i :: 0 <= i < |routes| && routes[i].parts == parts
  }

  /** The routes with a new value at one of them. */
  function Replaced(routes: seq<Route>, parts: seq<string>, value: Value): seq<Route> {
    seq(|routes|, i requires 0 <= i < |routes| => if routes[i].parts == parts then Route(parts, value) else routes[i])
  }

  lemma {:induction false} RoutesConcat(a: seq<Entry>, b: seq<Entry>)
    ensures Routes(a + b) == Routes(a) + Routes(b)
  {
    if b == [] {
      assert a + b == a;
    } else {
      assert (a + b)[..|a + b| - 1] == a + b[..|b| - 1];
      RoutesConcat(a, b[..|b| - 1]);
    }
  }

  lemma RoutesOfOne(e: Entry)
    ensures Routes([e]) == RoutesOf(e)
  {
    assert [e][..0] == [];
  }

  /** The routes around one entry. */
  lemma RoutesAround(entries: seq<Entry>, k: nat, e: Entry)
    requires k < |entries|
    ensures Routes(entries[k := e]) == Routes(entries[..k]) + RoutesOf(e) + Routes(entries[k + 1..])
  {
    assert entries[k := e] == entries[..k] + [e] + entries[k + 1..];
    RoutesConcat(entries[..k] + [e], entries[k + 1..]);
    RoutesConcat(entries[..k], [e]);
    RoutesOfOne(e);
  }

  lemma SliceIsDict(entries: seq<Entry>, lo: nat, hi: nat)
    requires lo <= hi <= |entries| && IsDict(entries) && Dotless(entries)
    ensures IsDict(entries[lo..hi]) && Dotless(entries[lo..hi])
  {
    var part := entries[lo..hi];
    forall i, j | 0 <= i < j < |part| ensures part[i].key != part[j].key {
      assert entries[lo + i].key != entries[lo + j].key;
    }
  }

  /** Routes that start elsewhere are not touched. */
  lemma ElsewhereStays(entries: seq<Entry>, lo: nat, hi: nat, k: nat, parts: seq<string>, value: Value)
    requires lo <= hi <= |entries| && IsDict(entries) && Dotless(entries)
    requires k < |entries| && (k < lo || hi <= k) && parts != [] && parts[0] == entries[k].key
    ensures Replaced(Routes(entries[lo..hi]), parts, value) == Routes(entries[lo..hi])
    ensures !Leads(Routes(entries[lo..hi]), parts)
  {
    var part := entries[lo..hi];
    SliceIsDict(entries, lo, hi);
    RoutesAreGood(part);
    forall i | 0 <= i < |Routes(part)| ensures Routes(part)[i].parts != parts {
      var j :| 0 <= j < |part| && part[j].key == Routes(part)[i].parts[0];
      assert entries[lo + j].key != entries[k].key;
    }
  }

  lemma ReplacedUnder(key: string, routes: seq<Route>, parts: seq<string>, value: Value)
    ensures Under(key, Replaced(routes, parts, value)) == Replaced(Under(key, routes), [key] + parts, value)
    ensures Leads(Under(key, routes), [key] + parts) ==> Leads(routes, parts)
  {
    var u := Under(key, routes);
    forall i | 0 <= i < |routes| ensures u[i].parts == [key] + parts <==> routes[i].parts == parts {
      assert u[i].parts[1..] == routes[i].parts && ([key] + parts)[1..] == parts;
    }
  }

  lemma LeadsSplits(a: seq<Route>, b: seq<Route>, parts: seq<string>)
    requires Leads(a + b, parts)
    ensures Leads(a, parts) || Leads(b, parts)
  {
    var i :| 0 <= i < |a + b| && (a + b)[i].parts == parts;
    if i < |a| {
      assert a[i].parts == parts;
    } else {
      assert b[i - |a|].parts == parts;
    }
  }

  lemma KeyOfRoute(entries: seq<Entry>, parts: seq<string>) returns (k: nat)
    requires IsDict(entries) && Dotless(entries) && Leads(Routes(entries), parts)
    ensures k < |entries| && parts != [] && entries[k].key == parts[0]
  {
    RoutesAreGood(entries);
    var i :| 0 <= i < |Routes(entries)| && Routes(entries)[i].parts == parts;
    k :| 0 <= k < |entries| && entries[k].key == parts[0];
  }

  /** The entry that a known leaf path goes through, and where in the dictionary it is. */
  lemma RouteEntry(entries: seq<Entry>, parts: seq<string>) returns (k: nat)
    requires IsDict(entries) && Dotless(entries) && Leads(Routes(entries), parts)
    ensures k < |entries| && parts != [] && entries[k].key == parts[0] && Leads(RoutesOf(entries[k]), parts)
  {
    k := KeyOfRoute(entries, parts);
    assert entries[k := entries[k]] == entries;
    RoutesAround(entries, k, entries[k]);
    NotElsewhere(entries, k, parts, Nothing);
    LeadsSplits(Routes(entries[..k]) + RoutesOf(entries[k]), Routes(entries[k + 1..]), parts);
    LeadsSplits(Routes(entries[..k]), RoutesOf(entries[k]), parts);
  }

  lemma NotElsewhere(entries: seq<Entry>, k: nat, parts: seq<string>, value: Value)
    requires k < |entries| && IsDict(entries) && Dotless(entries) && parts != [] && parts[0] == entries[k].key
    ensures !Leads(Routes(entries[..k]), parts) && !Leads(Routes(entries[k + 1..]), parts)
    ensures Replaced(Routes(entries[..k]), parts, value) == Routes(entries[..k])
    ensures Replaced(Routes(entries[k + 1..]), parts, value) == Routes(entries[k + 1..])
  {
    assert entries[0..k] == entries[..k] && entries[k + 1..|entries|] == entries[k + 1..];
    ElsewhereStays(entries, 0, k, k, parts, value);
    ElsewhereStays(entries, k + 1, |entries|, k, parts, value);
  }

  /** Setting a path in a dictionary whose first entry has its first key. */
  lemma SetHead(e: Entry, rest: seq<Entry>, parts: seq<string>, value: Value)
    requires parts != [] && e.key == parts[0]
    ensures var r := SetPath([e], parts, value);
            r.Some? ==> |r.value| == 1 && SetPath([e] + rest, parts, value) == Some([r.value[0]] + rest)
  {
    assert ([e] + rest)[1..] == rest && [e][1..] == [];
  }

  lemma Around(entries: seq<Entry>, k: nat, n: Entry)
    requires k < |entries|
    ensures entries[..k] + ([n] + entries[k + 1..]) == entries[k := n]
  {
  }

  /** Setting a path only looks at the entry under its first key. */
  lemma SetAt(entries: seq<Entry>, k: nat, parts: seq<string>, value: Value)
    requires k < |entries| && DistinctKeys(entries) && parts != [] && entries[k].key == parts[0]
    ensures var r := SetPath([entries[k]], parts, value);
            r.Some? ==> |r.value| == 1 && SetPath(entries, parts, value) == Some(entries[k := r.value[0]])
  {
    var r := SetPath([entries[k]], parts, value);
    SetHead(entries[k], entries[k + 1..], parts, value);
    if r.Some? {
      NotBefore(entries, k);
      Around(entries, k, entries[k]);
      assert entries[k := entries[k]] == entries;
      SetThrough(entries[..k], [entries[k]] + entries[k + 1..], parts, value);
      Around(entries, k, r.value[0]);
    }
  }

  lemma NotBefore(entries: seq<Entry>, k: nat)
    requires k < |entries| && DistinctKeys(entries)
    ensures !HasKey(entries[..k], entries[k].key)
  {
    forall i | 0 <= i < k ensures entries[..k][i].key != entries[k].key {
      assert entries[i].key != entries[k].key;
    }
  }

  lemma ReplacedConcat(a: seq<Route>, b: seq<Route>, parts: seq<string>, value: Value)
    ensures Replaced(a + b, parts, value) == Replaced(a, parts, value) + Replaced(b, parts, value)
  {
  }

  /** What setting a leaf does to the entry it is in. */
  ghost predicate Reset(e: Entry, n: Entry, parts: seq<string>, value: Value) {
    && n.key == e.key && n.node.Dict? == e.node.Dict?
    && (n.node.Dict? ==> IsDict(n.node.entries) && Dotless(n.node.entries))
    && RoutesOf(n) == Replaced(RoutesOf(e), parts, value)
  }

  lemma ResetEntry(entries: seq<Entry>, k: nat, n: Entry, parts: seq<string>, value: Value)
    requires k < |entries| && IsDict(entries) && Dotless(entries) && parts != [] && parts[0] == entries[k].key
    requires Reset(entries[k], n, parts, value)
    ensures var m := entries[k := n];
            && IsDict(m) && Dotless(m) && (NamedAtTop(entries) ==> NamedAtTop(m))
            && Routes(m) == Replaced(Routes(entries), parts, value)
  {
    var a, b, c := Routes(entries[..k]), RoutesOf(entries[k]), Routes(entries[k + 1..]);
    assert entries[k := entries[k]] == entries;
    RoutesAround(entries, k, entries[k]);
    RoutesAround(entries, k, n);
    NotElsewhere(entries, k, parts, value);
    ReplacedConcat(a + b, c, parts, value);
    ReplacedConcat(a, b, parts, value);
    ResetKeepsDict(entries, k, n);
  }

  lemma ResetKeepsDict(entries: seq<Entry>, k: nat, n: Entry)
    requires k < |entries| && IsDict(entries) && Dotless(entries) && n.key == entries[k].key
             && n.node.Dict? == entries[k].node.Dict?
    requires n.node.Dict? ==> IsDict(n.node.entries) && Dotless(n.node.entries)
    ensures var m := entries[k := n]; IsDict(m) && Dotless(m) && (NamedAtTop(entries) ==> NamedAtTop(m))
  {
    var m := entries[k := n];
    forall i, j | 0 <= i < j < |m| ensures m[i].key != m[j].key {
      assert entries[i].key != entries[j].key;
    }
  }

  /** Setting an existing leaf succeeds and changes the value of that leaf alone. */
  lemma {:induction false} SetLeaf(entries: seq<Entry>, parts: seq<string>, value: Value)
    requires IsDict(entries) && Dotless(entries) && Leads(Routes(entries), parts)
    ensures parts != [] && SetPath(entries, parts, value).Some?
    ensures var m := SetPath(entries, parts, value).value;
            && IsDict(m) && Dotless(m) && (NamedAtTop(entries) ==> NamedAtTop(m))
            && Routes(m) == Replaced(Routes(entries), parts, value)
    decreases entries
  {
    var k := RouteEntry(entries, parts);
    var e := entries[k];
    SetAt(entries, k, parts, value);
    assert [e][1..] == [];
    match e.node {
      case Leaf(_) =>
        assert parts == [e.key];
        ResetEntry(entries, k, Entry(e.key, Leaf(value)), parts, value);
      case Dict(sub) =>
        var rest := parts[1..];
        assert parts == [e.key] + rest;
        ReplacedUnder(e.key, Routes(sub), rest, value);
        SetLeaf(sub, rest, value);
        var inner := SetPath(sub, rest, value).value;
        assert SetPath([e], parts, value) == Some([Entry(e.key, Dict(inner))] + [e][1..]);
        ResetEntry(entries, k, Entry(e.key, Dict(inner)), parts, value);
    }
  }

  predicate HasPath(flat: seq<Pair>, path: string) {
    exists i :: 0 <= i < |flat| && flat[i].path == path
  }

  lemma ReplacedHead(routes: seq<Route>, parts: seq<string>, value: Value)
    requires routes != [] && DistinctParts(routes) && routes[0].parts == parts
    ensures Replaced(routes, parts, value) == [Route(parts, value)] + routes[1..]
  {
    forall i | 1 <= i < |routes| ensures routes[i].parts != parts {
      assert routes[0].parts != routes[i].parts;
    }
  }

  lemma ReplacedTail(routes: seq<Route>, parts: seq<string>, value: Value)
    requires routes != [] && routes[0].parts != parts
    ensures Replaced(routes, parts, value) == [routes[0]] + Replaced(routes[1..], parts, value)
    ensures Leads(routes, parts) ==> Leads(routes[1..], parts)
  {
    if i :| 0 <= i < |routes| && routes[i].parts == parts {
      assert routes[1..][i - 1].parts == parts;
    }
  }

  lemma PairsCons(r: Route, rest: seq<Route>)
    requires GoodParts([r] + rest)
    ensures GoodParts(rest) && r.parts != []
    ensures Pairs([], [r] + rest) == [Pair(PathOf(r.parts), r.value)] + Pairs([], rest)
  {
    GoodTail([r], rest);
    assert ([r] + rest)[0] == r;
    assert [] + r.parts == r.parts;
  }

  lemma {:induction false} PutExisting(routes: seq<Route>, parts: seq<string>, value: Value)
    requires GoodParts(routes) && DistinctParts(routes) && Leads(routes, parts)
    ensures parts != [] && GoodParts(Replaced(routes, parts, value))
    ensures Put(Pairs([], routes), PathOf(parts), value) == Pairs([], Replaced(routes, parts, value))
  {
    var r, rest := routes[0], routes[1..];
    assert routes == [r] + rest;
    PairsCons(r, rest);
    if r.parts == parts {
      ReplacedHead(routes, parts, value);
      GoodCons(Route(parts, value), rest);
      PairsCons(Route(parts, value), rest);
    } else {
      ReplacedTail(routes, parts, value);
      TailIsDistinct(routes);
      PutExisting(rest, parts, value);
      GoodCons(r, Replaced(rest, parts, value));
      PairsCons(r, Replaced(rest, parts, value));
      RouteDiffers(routes, parts);
    }
  }

  lemma GoodCons(r: Route, rest: seq<Route>)
    requires r.parts != [] && AllDotFree(r.parts) && GoodParts(rest)
    ensures GoodParts([r] + rest)
  {
  }

  lemma TailIsDistinct(routes: seq<Route>)
    requires routes != [] && DistinctParts(routes) && GoodParts(routes)
    ensures DistinctParts(routes[1..]) && GoodParts(routes[1..])
  {
  }

  lemma RouteDiffers(routes: seq<Route>, parts: seq<string>)
    requires GoodParts(routes) && Leads(routes, parts) && routes != [] && routes[0].parts != parts
    ensures parts != [] && PathOf(routes[0].parts) != PathOf(parts)
  {
    var i :| 0 <= i < |routes| && routes[i].parts == parts;
    PathsDiffer([], routes[0].parts, parts);
    assert [] + routes[0].parts == routes[0].parts && [] + parts == parts;
  }

  /** A dotted path of the flattened configuration is the route it splits into. */
  lemma PathIsRoute(entries: seq<Entry>, path: string)
    requires IsDict(entries) && Dotless(entries) && NamedAtTop(entries) && HasPath(Flatten(entries, ""), path)
    ensures Leads(Routes(entries), Split(path)) && PathOf(Split(path)) == path
  {
    FlattenListsRoutes(entries, "", []);
    var i :| 0 <= i < |Flatten(entries, "")| && Flatten(entries, "")[i].path == path;
    var parts := Routes(entries)[i].parts;
    assert [] + parts == parts;
    SplitPathOf(parts);
  }

  lemma ReplacedKeepsPaths(routes: seq<Route>, parts: seq<string>, value: Value, path: string)
    requires GoodParts(routes) && GoodParts(Replaced(routes, parts, value))
    ensures HasPath(Pairs([], Replaced(routes, parts, value)), path) <==> HasPath(Pairs([], routes), path)
  {
    var a, b := Pairs([], routes), Pairs([], Replaced(routes, parts, value));
    forall i | 0 <= i < |routes| ensures a[i].path == b[i].path {
    }
  }

  /** One override of an existing leaf. */
  lemma OverrideUpdates(entries: seq<Entry>, path: string, value: Value)
    requires IsDict(entries) && Dotless(entries) && NamedAtTop(entries) && HasPath(Flatten(entries, ""), path)
    ensures SetPath(entries, Split(path), value).Some?
    ensures var m := SetPath(entries, Split(path), value).value;
            && IsDict(m) && Dotless(m) && NamedAtTop(m)
            && Flatten(m, "") == Put(Flatten(entries, ""), path, value)
            && forall x :: HasPath(Flatten(m, ""), x) <==> HasPath(Flatten(entries, ""), x)
  {
    var parts := Split(path);
    PathIsRoute(entries, path);
    SetLeaf(entries, parts, value);
    var m := SetPath(entries, parts, value).value;
    FlattenListsRoutes(entries, "", []);
    FlattenListsRoutes(m, "", []);
    RoutesFit(entries);
    PutExisting(Routes(entries), parts, value);
    forall x ensures HasPath(Flatten(m, ""), x) <==> HasPath(Flatten(entries, ""), x) {
      ReplacedKeepsPaths(Routes(entries), parts, value, x);
    }
  }

  /** Overriding existing leaves commutes with flattening: the flattened result is the flattened base, updated. */
  lemma {:induction false} OverridesUpdate(base: seq<Entry>, overrides: seq<Pair>)
    requires IsDict(base) && Dotless(base) && NamedAtTop(base)
    requires forall i :: 0 <= i < |overrides| ==> HasPath(Flatten(base, ""), overrides[i].path)
    ensures Overridden(base, overrides).Some?
    ensures var m := Overridden(base, overrides).value;
            && IsDict(m) && Dotless(m) && NamedAtTop(m)
            && Flatten(m, "") == PutAll(Flatten(base, ""), overrides)
            && forall x :: HasPath(Flatten(m, ""), x) <==> HasPath(Flatten(base, ""), x)
  {
    if overrides != [] {
      var init, p := overrides[..|overrides| - 1], overrides[|overrides| - 1];
      OverridesUpdate(base, init);
      OverrideUpdates(Overridden(base, init).value, p.path, p.value);
    }
  }
}
