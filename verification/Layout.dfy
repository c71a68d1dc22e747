/** The dashboard's pipeline columns: the same layering as `Levels`, by memoised depth-first search. */
module Layout {
  import opened Options
  import opened Pipeline

  /** A pipeline as validation leaves it. */
  ghost predicate Proper(ss: seq<StageSpec>) {
    UniqueIds(ss) && KnownDeps(ss) && Layered(ss)
  }

  /** The dependencies that name a stage: `filter((d) => byKey.has(d))`. */
  function KnownOf(ss: seq<StageSpec>, deps: seq<string>): (r: seq<string>)
    ensures forall x :: x in r <==> x in deps && Named(ss, All(ss), x)
  {
    if deps == [] then []
    else
      var last := deps[|deps| - 1];
      assert deps == deps[..|deps| - 1] + [last];
      KnownOf(ss, deps[..|deps| - 1]) + if Named(ss, All(ss), last) then [last] else []
  }

  /** The pipeline with unknown dependencies removed. */
  function Pruned(ss: seq<StageSpec>): (ps: seq<StageSpec>)
    ensures |ps| == |ss|
    ensures forall i :: 0 <= i < |ss| ==> ps[i] == ss[i].(dependsOn := KnownOf(ss, ss[i].dependsOn))
  {
    seq(|ss|, i requires 0 <= i < |ss| => ss[i].(dependsOn := KnownOf(ss, ss[i].dependsOn)))
  }

  /** Different stages have different keys, also in the pruned pipeline, whose dependencies all name one. */
  ghost predicate Good(ss: seq<StageSpec>) {
    UniqueIds(Pruned(ss)) && KnownDeps(Pruned(ss))
  }

  lemma PrunedNames(ss: seq<StageSpec>, x: string)
    ensures All(Pruned(ss)) == All(ss) && (Named(Pruned(ss), All(Pruned(ss)), x) <==> Named(ss, All(ss), x))
  {
    var ps := Pruned(ss);
    assert All(ps) == All(ss);
    if Named(ss, All(ss), x) {
      var j :| j in All(ss) && 0 <= j < |ss| && ss[j].id == x;
      assert j in All(ps) && ps[j].id == x;
    }
    if Named(ps, All(ps), x) {
      var j :| j in All(ps) && 0 <= j < |ps| && ps[j].id == x;
      assert j in All(ss) && ss[j].id == x;
    }
  }

  /** The pruned pipeline has the same names, and no unknown dependency. */
  lemma PrunedIsKnown(ss: seq<StageSpec>)
    ensures KnownDeps(Pruned(ss)) && (UniqueIds(Pruned(ss)) <==> UniqueIds(ss))
  {
    var ps := Pruned(ss);
    forall i, d | 0 <= i < |ps| && 0 <= d < |ps[i].dependsOn| ensures Named(ps, All(ps), ps[i].dependsOn[d]) {
      assert ps[i].dependsOn[d] in ps[i].dependsOn;
      PrunedNames(ss, ps[i].dependsOn[d]);
    }
  }

  lemma PrunedDepends(ss: seq<StageSpec>, i: int, j: int)
    ensures Depends(Pruned(ss), i, j) <==> Depends(ss, i, j)
  {
    if 0 <= i < |ss| && 0 <= j < |ss| {
      assert j in All(ss) && ss[j].id == Pruned(ss)[j].id;
    }
  }

  lemma {:induction false} AllKnown(ss: seq<StageSpec>, deps: seq<string>)
    requires forall x :: x in deps ==> Named(ss, All(ss), x)
    ensures KnownOf(ss, deps) == deps
  {
    if deps != [] {
      assert deps == deps[..|deps| - 1] + [deps[|deps| - 1]];
      AllKnown(ss, deps[..|deps| - 1]);
    }
  }

  /** A pipeline without unknown dependencies is its own pruned one. */
  lemma NothingToPrune(ss: seq<StageSpec>)
    requires KnownDeps(ss)
    ensures Pruned(ss) == ss
  {
    forall i | 0 <= i < |ss| ensures Pruned(ss)[i] == ss[i] {
      AllKnown(ss, ss[i].dependsOn);
    }
  }

  /** `new Map(stages.map(...))`: the last stage with a key wins. */
  function Last(ss: seq<StageSpec>, key: string): (r: Option<nat>)
    ensures r.Some? ==> r.value < |ss| && ss[r.value].id == key
  {
    if ss == [] then None
    else if ss[|ss| - 1].id == key then Some(|ss| - 1)
    else Last(ss[..|ss| - 1], key)
  }

  lemma {:induction false} LastFinds(ss: seq<StageSpec>, key: string)
    ensures Last(ss, key).Some? ==> Last(ss, key).value < |ss| && ss[Last(ss, key).value].id == key
    ensures Last(ss, key).None? ==> forall i :: 0 <= i < |ss| ==> ss[i].id != key
  {
    if ss != [] && ss[|ss| - 1].id != key {
      LastFinds(ss[..|ss| - 1], key);
    }
  }

  lemma LastIsUnique(ss: seq<StageSpec>, i: nat)
    requires i < |ss|
    ensures Last(ss, ss[i].id).Some?
    ensures UniqueIds(ss) ==> Last(ss, ss[i].id) == Some(i)
  {
    LastFinds(ss, ss[i].id);
  }

  // ---- the level of a stage ----------------------------------------------------------------

  lemma {:induction false} InSomeLayer(ss: seq<StageSpec>, i: int, k: nat) returns (l: nat)
    requires i in Done(ss, k)
    ensures l < k && i in Layer(ss, l)
  {
    hide Next;
    if k > 0 && i in Done(ss, k - 1) {
      l := InSomeLayer(ss, i, k - 1);
    } else {
      l := k - 1;
    }
  }

  /** Some round of the topological sort takes the stage. */
  ghost predicate Founded(ss: seq<StageSpec>, i: int) {
    exists l: nat :: i in Layer(ss, l)
  }

  lemma InLayered(ss: seq<StageSpec>, i: int)
    requires Layered(ss) && 0 <= i < |ss|
    ensures Founded(ss, i)
  {
    hide Next;
    var k: nat :| Done(ss, k) == All(ss);
    assert i in All(ss);
    var l := InSomeLayer(ss, i, k);
  }

  /** The level of a stage that some round takes. */
  ghost function Level(ss: seq<StageSpec>, i: int): (l: nat)
    requires Founded(ss, i)
    ensures i in Layer(ss, l) && 0 <= i < |ss|
  {
    var l: nat :| i in Layer(ss, l);
    assert i in Next(ss, Done(ss, l));
    l
  }

  lemma LevelIsUnique(ss: seq<StageSpec>, i: int, l: nat)
    requires i in Layer(ss, l)
    ensures Founded(ss, i) && Level(ss, i) == l
  {
    hide Next;
    var m := Level(ss, i);
    if m < l {
      LayersAreDisjoint(ss, m, l);
    } else if l < m {
      LayersAreDisjoint(ss, l, m);
    }
  }

  /** A dependency is on a lower level. */
  lemma DependencyIsLower(ss: seq<StageSpec>, i: int, j: int)
    requires UniqueIds(ss) && Depends(ss, i, j) && Founded(ss, i)
    ensures Founded(ss, j) && Level(ss, j) < Level(ss, i)
  {
    hide Next;
    var l := Level(ss, i);
    DepsOfDone(ss, l + 1, i, j);
    var m := InSomeLayer(ss, j, l);
    LevelIsUnique(ss, j, m);
  }

  /** A stage that is not ready waits for a stage that is not done. */
  lemma WaitsFor(ss: seq<StageSpec>, i: int, done: set<int>) returns (j: int)
    requires KnownDeps(ss) && 0 <= i < |ss| && !DepsIn(ss, i, done)
    ensures Depends(ss, i, j) && j !in done
  {
    var d :| 0 <= d < |ss[i].dependsOn| && !Named(ss, done, ss[i].dependsOn[d]);
    assert Named(ss, All(ss), ss[i].dependsOn[d]);
    j :| j in All(ss) && 0 <= j < |ss| && ss[j].id == ss[i].dependsOn[d];
  }

  /** A stage of a layer has a dependency in the layer before. */
  lemma WaitsForLayer(ss: seq<StageSpec>, i: int, l: nat) returns (j: int)
    requires UniqueIds(ss) && KnownDeps(ss) && l > 0 && i in Layer(ss, l)
    ensures Depends(ss, i, j) && j in Layer(ss, l - 1)
  {
    assert i !in Next(ss, Done(ss, l - 1)) && 0 <= i < |ss|;
    assert !DepsIn(ss, i, Done(ss, l - 1));
    hide DepsIn, KnownDeps, Next;
    j := WaitsFor(ss, i, Done(ss, l - 1));
    DepsOfDone(ss, l + 1, i, j);
  }

  /** A stage with dependencies is one level above the highest of them. */
  lemma SomeDependencyIsNext(ss: seq<StageSpec>, i: int) returns (j: int)
    requires UniqueIds(ss) && KnownDeps(ss) && Founded(ss, i) && Level(ss, i) > 0
    ensures Depends(ss, i, j) && Founded(ss, j) && Level(ss, j) == Level(ss, i) - 1
  {
    var l := Level(ss, i);
    hide Level, Layer, KnownDeps, UniqueIds, Founded;
    j := WaitsForLayer(ss, i, l);
    LevelIsUnique(ss, j, l - 1);
  }

  /** A stage not done after `n` rounds heads a chain of `n` links. */
  lemma {:induction false} ChainOf(ss: seq<StageSpec>, i: int, n: nat) returns (c: seq<int>)
    requires KnownDeps(ss) && 0 <= i < |ss| && i !in Done(ss, n)
    ensures Chain(ss, c) && c[0] == i && |c| == n + 1
    decreases n
  {
    if n == 0 {
      c := [i];
    } else {
      assert i !in Next(ss, Done(ss, n - 1));
      var j := WaitsFor(ss, i, Done(ss, n - 1));
      var rest := ChainOf(ss, j, n - 1);
      c := [i] + rest;
    }
  }

  /** A stage is taken by some round exactly when its dependency chains are bounded: when it waits for no cycle. */
  lemma FoundedIff(ss: seq<StageSpec>, i: int)
    requires UniqueIds(ss) && KnownDeps(ss) && 0 <= i < |ss|
    ensures Founded(ss, i) <==> exists n: nat :: Bounded(ss, i, n)
  {
    if Founded(ss, i) {
      LevelIsLongestChain(ss, Level(ss, i), i);
      assert Bounded(ss, i, Level(ss, i) + 1);
    }
    if n: nat :| Bounded(ss, i, n) {
      BoundedIsDone(ss, i, n);
      var l := InSomeLayer(ss, i, n);
    }
  }

  lemma BoundedIsDone(ss: seq<StageSpec>, i: int, n: nat)
    requires KnownDeps(ss) && 0 <= i < |ss|
    ensures Bounded(ss, i, n) ==> i in Done(ss, n)
  {
    if i !in Done(ss, n) {
      var c := ChainOf(ss, i, n);
    }
  }

  ghost predicate Bounded(ss: seq<StageSpec>, i: int, n: nat) {
    forall c :: Chain(ss, c) && c[0] == i ==> |c| <= n
  }

  // ---- the search ------------------------------------------------------------------------------

  /** The depth of a stage and the memo afterwards; `path` are the stages being visited. */
  function SearchOf(ss: seq<StageSpec>, key: string, path: set<int>, level: map<string, nat>): (nat, map<string, nat>)
    decreases All(ss) - path, 0
  {
    if key in level then (level[key], level)
    else if Last(ss, key).None? then (0, level)
    else
      var i := Last(ss, key).value;
      if i in path then (0, level)
      else
        assert i in All(ss);
        var (d, memo) := SearchDeps(ss, i, |ss[i].dependsOn|, path + {i}, level);
        (d, memo[key := d])
  }

  /** The same for the first `n` dependencies of stage `i`: one more than the deepest of them. */
  function SearchDeps(ss: seq<StageSpec>, i: nat, n: nat, path: set<int>, level: map<string, nat>): (nat, map<string, nat>)
    requires i < |ss| && n <= |ss[i].dependsOn|
    decreases All(ss) - path, n
  {
    if n == 0 then (0, level)
    else
      var (d, memo) := SearchDeps(ss, i, n - 1, path, level);
      var dep := ss[i].dependsOn[n - 1];
      if Last(ss, dep).None? then (d, memo)
      else
        var (e, more) := SearchOf(ss, dep, path, memo);
        (if e + 1 > d then e + 1 else d, more)
  }

  /** The memo after the search from the first `n` stages. */
  function SearchFirst(ss: seq<StageSpec>, n: nat): map<string, nat>
    requires n <= |ss|
  {
    if n == 0 then map[] else SearchOf(ss, ss[n - 1].id, {}, SearchFirst(ss, n - 1)).1
  }

  /** The memo is right about every key it holds. */
  ghost predicate MemoOk(ss: seq<StageSpec>, level: map<string, nat>) {
    Good(ss) && forall key :: key in level ==>
      && Last(ss, key).Some?
      && (Founded(Pruned(ss), Last(ss, key).value) ==> level[key] == Level(Pruned(ss), Last(ss, key).value))
  }

  /** Stage `i` waits for no cycle if a stage being visited does not, and is then below it. */
  ghost predicate Above(ss: seq<StageSpec>, path: set<int>, i: int) {
    forall p :: p in path && Founded(Pruned(ss), p) ==>
      Founded(Pruned(ss), i) && Level(Pruned(ss), p) > Level(Pruned(ss), i)
  }

  /** Whatever cycles there are, the search finds the level of every stage that waits for none. */
  lemma {:induction false} SearchIsRight(ss: seq<StageSpec>, key: string, path: set<int>, level: map<string, nat>)
    requires MemoOk(ss, level) && Last(ss, key).Some? && Above(ss, path, Last(ss, key).value)
    ensures Founded(Pruned(ss), Last(ss, key).value) ==>
      SearchOf(ss, key, path, level).0 == Level(Pruned(ss), Last(ss, key).value)
    ensures MemoOk(ss, SearchOf(ss, key, path, level).1)
    decreases All(ss) - path, 0, 0
  {
    var i := Last(ss, key).value;
    if key !in level && i !in path {
      assert i in All(ss);
      AboveMore(ss, path, i);
      DepsAreRight(ss, i, |ss[i].dependsOn|, path + {i}, level);
      if Founded(Pruned(ss), i) {
        AllDepsAreRight(ss, i, SearchDeps(ss, i, |ss[i].dependsOn|, path + {i}, level).0);
      }
      hide Good, Level, SearchDeps, Founded;
    }
  }

  lemma AboveMore(ss: seq<StageSpec>, path: set<int>, i: nat)
    requires Good(ss) && i < |ss| && Above(ss, path, i)
    ensures forall j :: Depends(Pruned(ss), i, j) ==> Above(ss, path + {i}, j)
  {
    hide Level, Founded;
    forall j | Depends(Pruned(ss), i, j) ensures Above(ss, path + {i}, j) {
      if Founded(Pruned(ss), i) {
        DependencyIsLower(Pruned(ss), i, j);
      }
    }
  }

  /** What the first `n` dependencies of stage `i` leave: at most its level, and above each of theirs. */
  ghost predicate DepthFits(ss: seq<StageSpec>, i: nat, n: nat, d: nat)
    requires i < |ss| && n <= |ss[i].dependsOn| && Founded(Pruned(ss), i)
  {
    && d <= Level(Pruned(ss), i)
    && forall j :: 0 <= j < |ss| && ss[j].id in ss[i].dependsOn[..n] ==>
      Founded(Pruned(ss), j) && d > Level(Pruned(ss), j)
  }

  lemma {:induction false} DepsAreRight(ss: seq<StageSpec>, i: nat, n: nat, path: set<int>, level: map<string, nat>)
    requires MemoOk(ss, level) && i < |ss| && n <= |ss[i].dependsOn|
    requires forall j :: Depends(Pruned(ss), i, j) ==> Above(ss, path, j)
    ensures Founded(Pruned(ss), i) ==> DepthFits(ss, i, n, SearchDeps(ss, i, n, path, level).0)
    ensures MemoOk(ss, SearchDeps(ss, i, n, path, level).1)
    decreases All(ss) - path, n, 1
  {
    hide MemoOk, SearchOf, Founded, DepthFits, Above, Last, Pruned, Depends, Level;
    if n == 0 {
      NoDeps(ss, i);
    } else {
      DepsAreRight(ss, i, n - 1, path, level);
      var (d, memo) := SearchDeps(ss, i, n - 1, path, level);
      OneMoreDep(ss, i, n, path, d, memo);
    }
  }

  lemma NoDeps(ss: seq<StageSpec>, i: nat)
    requires i < |ss|
    ensures Founded(Pruned(ss), i) ==> DepthFits(ss, i, 0, 0)
  {
    hide Level, Founded, Pruned;
  }

  /** What dependency `n - 1` adds to the search. */
  lemma {:induction false} OneMoreDep(ss: seq<StageSpec>, i: nat, n: nat, path: set<int>, d: nat, memo: map<string, nat>)
    requires MemoOk(ss, memo) && i < |ss| && 0 < n <= |ss[i].dependsOn|
    requires forall j :: Depends(Pruned(ss), i, j) ==> Above(ss, path, j)
    requires Founded(Pruned(ss), i) ==> DepthFits(ss, i, n - 1, d)
    ensures var dep := ss[i].dependsOn[n - 1]; var (e, more) := SearchOf(ss, dep, path, memo);
      && MemoOk(ss, more)
      && (Founded(Pruned(ss), i) ==>
            DepthFits(ss, i, n, if Last(ss, dep).Some? && e + 1 > d then e + 1 else d))
    decreases All(ss) - path, n, 0
  {
    var dep := ss[i].dependsOn[n - 1];
    assert Good(ss);
    hide Good, Level, Above, MemoOk, KnownOf, Founded, DepthFits;
    if Last(ss, dep).Some? {
      hide SearchOf;
      var j := Last(ss, dep).value;
      LastFinds(ss, dep);
      assert Depends(ss, i, j);
      PrunedDepends(ss, i, j);
      SearchIsRight(ss, dep, path, memo);
      if Founded(Pruned(ss), i) {
        FitsKnown(ss, i, n, d, j);
      }
    } else {
      assert SearchOf(ss, dep, path, memo).1 == memo;
      if Founded(Pruned(ss), i) {
        FitsUnknown(ss, i, n, d);
      }
    }
  }

  lemma FitsUnknown(ss: seq<StageSpec>, i: nat, n: nat, d: nat)
    requires i < |ss| && 0 < n <= |ss[i].dependsOn| && Founded(Pruned(ss), i) && DepthFits(ss, i, n - 1, d)
    requires Last(ss, ss[i].dependsOn[n - 1]).None?
    ensures DepthFits(ss, i, n, d)
  {
    hide Level, Founded, Last, Pruned;
    LastFinds(ss, ss[i].dependsOn[n - 1]);
    assert ss[i].dependsOn[..n] == ss[i].dependsOn[..n - 1] + [ss[i].dependsOn[n - 1]];
  }

  lemma FitsKnown(ss: seq<StageSpec>, i: nat, n: nat, d: nat, j: nat)
    requires Good(ss) && i < |ss| && 0 < n <= |ss[i].dependsOn| && Founded(Pruned(ss), i) && DepthFits(ss, i, n - 1, d)
    requires j < |ss| && ss[j].id == ss[i].dependsOn[n - 1] && Depends(Pruned(ss), i, j)
    ensures Founded(Pruned(ss), j)
    ensures var e := Level(Pruned(ss), j); DepthFits(ss, i, n, if e + 1 > d then e + 1 else d)
  {
    assert UniqueIds(Pruned(ss));
    hide Level, Founded, Good, UniqueIds, Pruned;
    DependencyIsLower(Pruned(ss), i, j);
    OnlyOne(ss, ss[j].id, j);
    assert ss[i].dependsOn[..n] == ss[i].dependsOn[..n - 1] + [ss[j].id];
  }

  lemma OnlyOne(ss: seq<StageSpec>, key: string, j: nat)
    requires Good(ss) && j < |ss| && ss[j].id == key
    ensures forall k :: 0 <= k < |ss| && ss[k].id == key ==> k == j
  {
    PrunedIsKnown(ss);
  }

  /** After all dependencies the depth is the level. */
  lemma AllDepsAreRight(ss: seq<StageSpec>, i: nat, d: nat)
    requires Good(ss) && i < |ss| && Founded(Pruned(ss), i) && DepthFits(ss, i, |ss[i].dependsOn|, d)
    ensures d == Level(Pruned(ss), i)
  {
    hide Level, Founded;
    if Level(Pruned(ss), i) > 0 {
      var j := OneBelow(ss, i);
      assert ss[i].dependsOn[..|ss[i].dependsOn|] == ss[i].dependsOn;
    }
  }

  lemma OneBelow(ss: seq<StageSpec>, i: nat) returns (j: int)
    requires Good(ss) && i < |ss| && Founded(Pruned(ss), i) && Level(Pruned(ss), i) > 0
    ensures 0 <= j < |ss| && ss[j].id in ss[i].dependsOn
    ensures Founded(Pruned(ss), j) && Level(Pruned(ss), j) == Level(Pruned(ss), i) - 1
  {
    hide Level, Founded;
    j := SomeDependencyIsNext(Pruned(ss), i);
    PrunedDepends(ss, i, j);
  }

  lemma {:induction false} FirstIsRight(ss: seq<StageSpec>, n: nat)
    requires Good(ss) && n <= |ss|
    ensures MemoOk(ss, SearchFirst(ss, n))
  {
    hide Good, Level, Last, SearchOf;
    if n > 0 {
      var memo := SearchFirst(ss, n - 1);
      FirstIsRight(ss, n - 1);
      LastIsUnique(ss, n - 1);
      assert SearchFirst(ss, n) == SearchOf(ss, ss[n - 1].id, {}, memo).1;
      hide MemoOk, SearchFirst, Founded;
      SearchIsRight(ss, ss[n - 1].id, {}, memo);
    }
  }

  class Search {
    const ss: seq<StageSpec>
    var level: map<string, nat>
    var visiting: set<string>
    ghost var path: set<int>

    constructor (ss: seq<StageSpec>)
      ensures this.ss == ss && level == map[] && visiting == {} && path == {}
    {
      this.ss, level, visiting, path := ss, map[], {}, {};
    }

    /** The keys being visited are those of the stages on the path. */
    ghost predicate Valid()
      reads this
    {
      && path <= All(ss)
      && forall key :: key in visiting <==> Last(ss, key).Some? && Last(ss, key).value in path
    }

    /** The memoised search: it terminates on every input, cyclic ones included. */
    method Depth(key: string) returns (d: nat)
      requires Valid() && Last(ss, key).Some?
      modifies this
      ensures Valid() && visiting == old(visiting) && path == old(path)
      ensures (d, level) == SearchOf(ss, key, old(path), old(level))
      decreases All(ss) - path, 0
    {
      if key in level {
        return level[key];
      }
      if key in visiting {
        return 0;
      }
      var i := Last(ss, key).value;
      LastIsOf(ss, key);
      assert i in All(ss) && i !in path;
      visiting, path := visiting + {key}, path + {i};
      hide SearchDeps, Last;
      d := DepthOver(i);
      visiting, path := visiting - {key}, path - {i};
      level := level[key := d];
    }

    /** `Math.max(...deps.map(depth)) + 1`, or 0 without dependencies. */
    method DepthOver(i: nat) returns (d: nat)
      requires Valid() && i < |ss|
      modifies this
      ensures Valid() && visiting == old(visiting) && path == old(path)
      ensures (d, level) == SearchDeps(ss, i, |ss[i].dependsOn|, old(path), old(level))
      decreases All(ss) - path, 1
    {
      d := 0;
      var deps := ss[i].dependsOn;
      hide SearchOf, Last;
      for n := 0 to |deps|
        invariant Valid() && visiting == old(visiting) && path == old(path)
        invariant (d, level) == SearchDeps(ss, i, n, old(path), old(level))
      {
        if Last(ss, deps[n]).Some? {
          var e := Depth(deps[n]);
          if e + 1 > d {
            d := e + 1;
          }
        }
      }
    }

    /** The loop that searches from every stage. */
    method SearchAll()
      requires Valid() && path == {} && visiting == {} && level == map[]
      modifies this
      ensures level == SearchFirst(ss, |ss|)
    {
      for i := 0 to |ss|
        invariant Valid() && path == {} && visiting == {} && level == SearchFirst(ss, i)
      {
        LastIsUnique(ss, i);
        hide SearchOf, Last;
        var d := Depth(ss[i].id);
      }
    }
  }

  /** Keys with the same last stage are the same key. */
  lemma LastIsOf(ss: seq<StageSpec>, key: string)
    requires Last(ss, key).Some?
    ensures forall other :: Last(ss, other) == Last(ss, key) ==> other == key
  {
  }

  /** The search only adds to the memo, and remembers every key that is not being visited. */
  lemma {:induction false} SearchRemembers(ss: seq<StageSpec>, key: string, path: set<int>, level: map<string, nat>)
    ensures level.Keys <= SearchOf(ss, key, path, level).1.Keys
    ensures Last(ss, key).Some? && Last(ss, key).value !in path ==> key in SearchOf(ss, key, path, level).1
    decreases All(ss) - path, 0
  {
    if key !in level && Last(ss, key).Some? && Last(ss, key).value !in path {
      var i := Last(ss, key).value;
      assert i in All(ss);
      DepsRemember(ss, i, |ss[i].dependsOn|, path + {i}, level);
    }
  }

  lemma {:induction false} DepsRemember(ss: seq<StageSpec>, i: nat, n: nat, path: set<int>, level: map<string, nat>)
    requires i < |ss| && n <= |ss[i].dependsOn|
    ensures level.Keys <= SearchDeps(ss, i, n, path, level).1.Keys
    decreases All(ss) - path, n
  {
    if n > 0 {
      DepsRemember(ss, i, n - 1, path, level);
      SearchRemembers(ss, ss[i].dependsOn[n - 1], path, SearchDeps(ss, i, n - 1, path, level).1);
    }
  }

  lemma {:induction false} FirstRemembers(ss: seq<StageSpec>, n: nat, i: nat)
    requires i < n <= |ss|
    ensures ss[i].id in SearchFirst(ss, n)
  {
    SearchRemembers(ss, ss[n - 1].id, {}, SearchFirst(ss, n - 1));
    LastIsUnique(ss, n - 1);
    if i < n - 1 {
      FirstRemembers(ss, n - 1, i);
    }
  }

  // ---- the columns ------------------------------------------------------------------------------

  /** The stages whose level is `d`, in the order given. */
  function Pick(ss: seq<StageSpec>, level: map<string, nat>, d: nat): seq<StageSpec> {
    if ss == [] then []
    else
      var s := ss[|ss| - 1];
      Pick(ss[..|ss| - 1], level, d) + if s.id in level && level[s.id] == d then [s] else []
  }

  /** `cols.filter(Boolean)` */
  function Filled(cols: seq<seq<StageSpec>>): seq<seq<StageSpec>> {
    if cols == [] then []
    else Filled(cols[..|cols| - 1]) + if cols[|cols| - 1] != [] then [cols[|cols| - 1]] else []
  }

  /** `(cols[d] ??= []).push(s)`; a hole is an empty column until the final filter. */
  function Put(cols: seq<seq<StageSpec>>, d: nat, s: StageSpec): seq<seq<StageSpec>> {
    if d < |cols| then cols[d := cols[d] + [s]]
    else cols + seq(d - |cols|, _ => []) + [[s]]
  }

  /** All stages of the columns, one column after the other. */
  function Flat(cols: seq<seq<StageSpec>>): seq<StageSpec> {
    if cols == [] then [] else Flat(cols[..|cols| - 1]) + cols[|cols| - 1]
  }

  lemma {:induction false} FlatAppend(a: seq<seq<StageSpec>>, b: seq<seq<StageSpec>>)
    ensures Flat(a + b) == Flat(a) + Flat(b)
  {
    if b == [] {
      assert a + b == a;
    } else {
      assert (a + b)[..|a + b| - 1] == a + b[..|b| - 1];
      FlatAppend(a, b[..|b| - 1]);
    }
  }

  lemma {:induction false} FlatFilled(cols: seq<seq<StageSpec>>)
    ensures Flat(Filled(cols)) == Flat(cols)
  {
    if cols != [] {
      var front, last := cols[..|cols| - 1], cols[|cols| - 1];
      FlatFilled(front);
      if last != [] {
        assert Filled(cols) == Filled(front) + [last];
        FlatAppend(Filled(front), [last]);
        assert Flat([last]) == last;
      } else {
        assert Filled(cols) == Filled(front);
      }
    }
  }

  lemma {:induction false} FlatHoles(n: nat)
    ensures Flat(seq(n, _ => [])) == []
  {
    if n > 0 {
      var holes: seq<seq<StageSpec>> := seq(n, _ => []);
      assert holes[..n - 1] == seq(n - 1, _ => []);
      FlatHoles(n - 1);
    }
  }

  /** Pushing a stage adds exactly that stage. */
  lemma PutAddsOne(cols: seq<seq<StageSpec>>, d: nat, s: StageSpec)
    ensures multiset(Flat(Put(cols, d, s))) == multiset(Flat(cols)) + multiset{s}
  {
    if d < |cols| {
      var a, b := cols[..d], cols[d + 1..];
      assert cols == a + [cols[d]] + b && Put(cols, d, s) == a + [cols[d] + [s]] + b;
      FlatAppend(a + [cols[d]], b);
      FlatAppend(a + [cols[d] + [s]], b);
      FlatAppend(a, [cols[d]]);
      FlatAppend(a, [cols[d] + [s]]);
    } else {
      FlatAppend(cols + seq(d - |cols|, _ => []), [[s]]);
      FlatAppend(cols, seq(d - |cols|, _ => []));
      FlatHoles(d - |cols|);
    }
  }

  /** `cols` holds the stages seen so far, column by column. */
  ghost predicate Columns(cols: seq<seq<StageSpec>>, ss: seq<StageSpec>, level: map<string, nat>) {
    && (forall d :: 0 <= d < |cols| ==> cols[d] == Pick(ss, level, d))
    && (forall k :: 0 <= k < |ss| && ss[k].id in level ==> level[ss[k].id] < |cols|)
  }

  lemma {:induction false} PickNone(ss: seq<StageSpec>, level: map<string, nat>, d: nat)
    requires forall k :: 0 <= k < |ss| && ss[k].id in level ==> level[ss[k].id] < d
    ensures Pick(ss, level, d) == []
  {
    if ss != [] {
      PickNone(ss[..|ss| - 1], level, d);
    }
  }

  lemma PutKeepsColumns(cols: seq<seq<StageSpec>>, ss: seq<StageSpec>, level: map<string, nat>, s: StageSpec)
    requires Columns(cols, ss, level) && s.id in level
    ensures Columns(Put(cols, level[s.id], s), ss + [s], level)
  {
    var next := Put(cols, level[s.id], s);
    assert (ss + [s])[..|ss|] == ss;
    forall d | 0 <= d < |next| ensures next[d] == Pick(ss + [s], level, d) {
      if d >= |cols| {
        PickNone(ss, level, d);
      }
    }
  }

  /** The columns of the stages placed so far; the last one is never a hole. */
  ghost predicate Placed(cols: seq<seq<StageSpec>>, ss: seq<StageSpec>, level: map<string, nat>) {
    && Columns(cols, ss, level)
    && multiset(Flat(cols)) == multiset(ss)
    && (|cols| > 0 ==> cols[|cols| - 1] != [])
  }

  lemma PutKeepsPlaced(cols: seq<seq<StageSpec>>, ss: seq<StageSpec>, level: map<string, nat>, s: StageSpec)
    requires Placed(cols, ss, level) && s.id in level
    ensures Placed(Put(cols, level[s.id], s), ss + [s], level)
  {
    PutKeepsColumns(cols, ss, level, s);
    PutAddsOne(cols, level[s.id], s);
    LastOfPut(cols, level[s.id], s);
    hide Columns, Flat, Pick, Put;
  }

  lemma LastOfPut(cols: seq<seq<StageSpec>>, d: nat, s: StageSpec)
    requires |cols| > 0 ==> cols[|cols| - 1] != []
    ensures |Put(cols, d, s)| > 0 && Put(cols, d, s)[|Put(cols, d, s)| - 1] != []
  {
  }

  /** The columns as the second loop fills them. */
  function Filling(ss: seq<StageSpec>, level: map<string, nat>, n: nat): seq<seq<StageSpec>>
    requires n <= |ss| && forall i :: 0 <= i < |ss| ==> ss[i].id in level
  {
    if n == 0 then [] else Put(Filling(ss, level, n - 1), level[ss[n - 1].id], ss[n - 1])
  }

  lemma NothingPlaced(level: map<string, nat>)
    ensures Placed([], [], level)
  {
  }

  lemma {:induction false} FillingIsPlaced(ss: seq<StageSpec>, level: map<string, nat>, n: nat)
    requires n <= |ss| && forall i :: 0 <= i < |ss| ==> ss[i].id in level
    ensures Placed(Filling(ss, level, n), ss[..n], level)
  {
    hide Placed, Put, Columns, Flat, Pick;
    if n == 0 {
      NothingPlaced(level);
      assert ss[..0] == [];
    } else {
      var before, s := Filling(ss, level, n - 1), ss[n - 1];
      FillingIsPlaced(ss, level, n - 1);
      PutKeepsPlaced(before, ss[..n - 1], level, s);
      assert ss[..n] == ss[..n - 1] + [s];
    }
  }

  /** The second loop: every stage goes to the end of the column of its level. */
  method Fill(ss: seq<StageSpec>, level: map<string, nat>) returns (cols: seq<seq<StageSpec>>)
    requires forall i :: 0 <= i < |ss| ==> ss[i].id in level
    ensures Placed(cols, ss, level) && cols == Filling(ss, level, |ss|)
  {
    hide Placed, Put;
    cols := [];
    for i := 0 to |ss|
      invariant cols == Filling(ss, level, i)
    {
      cols := Put(cols, level[ss[i].id], ss[i]);
    }
    assert ss[..|ss|] == ss;
    FillingIsPlaced(ss, level, |ss|);
  }

  lemma {:induction false} PickHas(ss: seq<StageSpec>, level: map<string, nat>, d: nat, s: StageSpec)
    ensures s in Pick(ss, level, d) <==> s in ss && s.id in level && level[s.id] == d
  {
    if ss != [] {
      assert ss == ss[..|ss| - 1] + [ss[|ss| - 1]];
      PickHas(ss[..|ss| - 1], level, d, s);
    }
  }

  lemma {:induction false} FilledIsAll(cols: seq<seq<StageSpec>>)
    requires forall d :: 0 <= d < |cols| ==> cols[d] != []
    ensures Filled(cols) == cols
  {
    if cols != [] {
      FilledIsAll(cols[..|cols| - 1]);
      assert cols == cols[..|cols| - 1] + [cols[|cols| - 1]];
    }
  }

  /** The memo gives every stage that waits for no cycle its level. */
  ghost predicate Leveled(ss: seq<StageSpec>, level: map<string, nat>) {
    forall i :: 0 <= i < |ss| ==>
      ss[i].id in level && (Good(ss) && Founded(Pruned(ss), i) ==> level[ss[i].id] == Level(Pruned(ss), i))
  }

  /** Below an occupied level every level is occupied. */
  lemma {:induction false} LowerLevelsOccupied(ss: seq<StageSpec>, i: int, d: nat) returns (j: int)
    requires UniqueIds(ss) && KnownDeps(ss) && Founded(ss, i) && d <= Level(ss, i)
    ensures Founded(ss, j) && Level(ss, j) == d
    decreases Level(ss, i)
  {
    hide Level, Founded;
    if d == Level(ss, i) {
      j := i;
    } else {
      var k := SomeDependencyIsNext(ss, i);
      j := LowerLevelsOccupied(ss, k, d);
    }
  }

  /** No column up to the level of such a stage is empty. */
  lemma NoEmptyColumn(ss: seq<StageSpec>, level: map<string, nat>, cols: seq<seq<StageSpec>>, i: int, d: nat)
    requires Good(ss) && Leveled(ss, level) && Columns(cols, ss, level)
    requires Founded(Pruned(ss), i) && d <= Level(Pruned(ss), i)
    ensures d < |cols| && cols[d] != []
  {
    hide Level, Pick, Founded;
    var j := LowerLevelsOccupied(Pruned(ss), i, d);
    assert level[ss[j].id] == d;
    PickHas(ss, level, d, ss[j]);
  }

  /** Whatever cycles there are: a stage that waits for none is in the column of its level, and in no other. */
  ghost predicate FoundedInPlace(ss: seq<StageSpec>, ps: seq<StageSpec>, cols: seq<seq<StageSpec>>) {
    forall i :: 0 <= i < |ss| && Founded(ps, i) ==>
      && Level(ps, i) < |cols|
      && forall d :: 0 <= d < |cols| ==> (ss[i] in cols[d] <==> d == Level(ps, i))
  }

  /** A filled column is one of the columns, at the same place if no column before it is empty. */
  lemma {:induction false} FilledAt(cols: seq<seq<StageSpec>>, d: nat) returns (c: nat)
    requires d < |Filled(cols)|
    ensures d <= c < |cols| && cols[c] == Filled(cols)[d]
    ensures (forall k :: 0 <= k < c ==> cols[k] != []) ==> c == d
  {
    var front := cols[..|cols| - 1];
    if d < |Filled(front)| {
      c := FilledAt(front, d);
      assert forall k :: 0 <= k < c ==> front[k] == cols[k];
    } else {
      c := |cols| - 1;
      FilledIsShorter(front);
      if forall k :: 0 <= k < c ==> cols[k] != [] {
        FilledIsAll(front);
      }
    }
  }

  lemma {:induction false} FilledIsShorter(cols: seq<seq<StageSpec>>)
    ensures |Filled(cols)| <= |cols|
  {
    if cols != [] {
      FilledIsShorter(cols[..|cols| - 1]);
    }
  }

  /** Columns without a hole before them stay where they are. */
  lemma {:induction false} FilledPrefix(cols: seq<seq<StageSpec>>, n: nat)
    requires n <= |cols| && forall d :: 0 <= d < n ==> cols[d] != []
    ensures |Filled(cols)| >= n && Filled(cols)[..n] == cols[..n]
  {
    if n == |cols| {
      FilledIsAll(cols);
    } else {
      var front := cols[..|cols| - 1];
      FilledPrefix(front, n);
      assert front[..n] == cols[..n];
    }
  }

  lemma FilledInPlace(ss: seq<StageSpec>, level: map<string, nat>, all: seq<seq<StageSpec>>, i: int)
    requires Good(ss) && Leveled(ss, level) && Columns(all, ss, level) && Founded(Pruned(ss), i)
    ensures var l := Level(Pruned(ss), i); var cols := Filled(all);
      l < |cols| && forall d :: 0 <= d < |cols| ==> (ss[i] in cols[d] <==> d == l)
  {
    var l, cols := Level(Pruned(ss), i), Filled(all);
    forall d: nat | d <= l ensures d < |all| && all[d] != [] {
      NoEmptyColumn(ss, level, all, i, d);
    }
    FilledPrefix(all, l + 1);
    assert cols[l] == cols[..l + 1][l] == all[..l + 1][l] == all[l];
    assert level[ss[i].id] == l;
    hide Level, Founded, Good, Leveled, Filled, Pick;
    PickHas(ss, level, l, ss[i]);
    forall d | 0 <= d < |cols| ensures ss[i] in cols[d] <==> d == l {
      if ss[i] in cols[d] {
        var c := FilledAt(all, d);
        PickHas(ss, level, c, ss[i]);
      }
    }
  }

  lemma AllInPlace(ss: seq<StageSpec>, level: map<string, nat>, all: seq<seq<StageSpec>>)
    requires Good(ss) && Leveled(ss, level) && Columns(all, ss, level)
    ensures FoundedInPlace(ss, Pruned(ss), Filled(all))
  {
    hide Level, Founded, Good, Leveled, Columns, Filled;
    forall i | 0 <= i < |ss| && Founded(Pruned(ss), i)
      ensures Level(Pruned(ss), i) < |Filled(all)|
      ensures forall d :: 0 <= d < |Filled(all)| ==> (ss[i] in Filled(all)[d] <==> d == Level(Pruned(ss), i))
    {
      FilledInPlace(ss, level, all, i);
    }
  }

  /** Column `d` lists exactly level `d` of `ps`, and the columns are all the levels. */
  ghost predicate RefinesLevels(ss: seq<StageSpec>, ps: seq<StageSpec>, cols: seq<seq<StageSpec>>) {
    && (forall d, i :: 0 <= d < |cols| && 0 <= i < |ss| ==> (ss[i] in cols[d] <==> i in Layer(ps, d)))
    && Done(ps, |cols|) == All(ps)
  }

  /** If no stage waits for a cycle, stages in their places are the levels. */
  lemma ColumnsAreLevels(ss: seq<StageSpec>, ps: seq<StageSpec>, cols: seq<seq<StageSpec>>)
    requires |ps| == |ss| && Layered(ps) && FoundedInPlace(ss, ps, cols)
    ensures RefinesLevels(ss, ps, cols)
  {
    hide Next, Layer;
    forall i | 0 <= i < |ss| ensures Founded(ps, i) {
      InLayered(ps, i);
    }
    hide Level, Founded, Layered;
    forall d, i | 0 <= d < |cols| && 0 <= i < |ss| ensures ss[i] in cols[d] <==> i in Layer(ps, d) {
      assert Founded(ps, i);
      if i in Layer(ps, d) {
        LevelIsUnique(ps, i, d);
      }
    }
    forall i | i in All(ps) ensures i in Done(ps, |cols|) {
      assert Founded(ps, i);
      DoneByLevel(ps, i, |cols|);
    }
    DoneIsMonotone(ps, |cols|, |cols|);
  }

  lemma DoneByLevel(ss: seq<StageSpec>, i: int, k: nat)
    requires Founded(ss, i) && Level(ss, i) < k
    ensures i in Done(ss, k)
  {
    hide Next;
    DoneIsMonotone(ss, Level(ss, i) + 1, k);
  }

  lemma SearchLevels(ss: seq<StageSpec>)
    ensures Leveled(ss, SearchFirst(ss, |ss|))
  {
    var level := SearchFirst(ss, |ss|);
    if Good(ss) {
      FirstIsRight(ss, |ss|);
    }
    forall i | 0 <= i < |ss|
      ensures ss[i].id in level && (Good(ss) && Founded(Pruned(ss), i) ==> level[ss[i].id] == Level(Pruned(ss), i))
    {
      FirstRemembers(ss, |ss|, i);
      LastIsUnique(ss, i);
      hide Level, SearchFirst, Founded;
      if Good(ss) {
        PrunedIsKnown(ss);
      }
    }
  }

  /** The whole layout as a function of the stages. */
  ghost function LayoutOf(ss: seq<StageSpec>): seq<seq<StageSpec>> {
    SearchLevels(ss);
    Filled(Filling(ss, SearchFirst(ss, |ss|), |ss|))
  }

  /**
   * layoutStages: terminates on every input and puts every stage into exactly one column, none of them
   * empty. For unique keys, whatever the dependencies, once unknown ones are ignored every stage that waits for
   * no cycle is in the column of its level, and the columns are the levels exactly if no stage waits for one;
   * on a valid pipeline they are its levels.
   */
  method LayoutStages(ss: seq<StageSpec>) returns (cols: seq<seq<StageSpec>>)
    ensures cols == LayoutOf(ss)
    ensures multiset(Flat(cols)) == multiset(ss)
    ensures forall d :: 0 <= d < |cols| ==> cols[d] != []
    ensures UniqueIds(ss) ==> FoundedInPlace(ss, Pruned(ss), cols)
    ensures UniqueIds(ss) ==> (RefinesLevels(ss, Pruned(ss), cols) <==> Layered(Pruned(ss)))
    ensures Proper(ss) ==> RefinesLevels(ss, ss, cols)
  {
    var search := new Search(ss);
    search.SearchAll();
    SearchLevels(ss);
    hide Level, Good, Pick, Put, Flat, Filled, SearchFirst, Layered, RefinesLevels, Founded, Leveled, UniqueIds, FoundedInPlace,
      Columns;
    var all := Fill(ss, search.level);
    cols := Filled(all);
    FlatFilled(all);
    FilledColumns(all);
    WhenGood(ss);
    if Good(ss) {
      AllInPlace(ss, search.level, all);
      if Layered(Pruned(ss)) {
        ColumnsAreLevels(ss, Pruned(ss), cols);
      }
    }
    if RefinesLevels(ss, Pruned(ss), cols) {
      AreLayered(ss, Pruned(ss), cols);
    }
  }

  /** Columns that are all the levels finish every stage. */
  lemma AreLayered(ss: seq<StageSpec>, ps: seq<StageSpec>, cols: seq<seq<StageSpec>>)
    requires RefinesLevels(ss, ps, cols)
    ensures Layered(ps)
  {
    FinishedIsLayered(ps, |cols|);
  }

  lemma WhenGood(ss: seq<StageSpec>)
    ensures UniqueIds(ss) ==> Good(ss)
    ensures Proper(ss) ==> UniqueIds(ss) && Layered(ss) && Pruned(ss) == ss
  {
    PrunedIsKnown(ss);
    if Proper(ss) {
      NothingToPrune(ss);
    }
  }

  lemma {:induction false} FilledColumns(cols: seq<seq<StageSpec>>)
    ensures forall d :: 0 <= d < |Filled(cols)| ==> Filled(cols)[d] != []
  {
    if cols != [] {
      FilledColumns(cols[..|cols| - 1]);
    }
  }

  // ---- two pipelines that validation refuses ------------------------------------------------------------

  function Two(first: string, second: string): seq<StageSpec> {
    [StageSpec("a", "x", [first], []), StageSpec("b", "x", [second], [])]
  }

  lemma LastOfTwo(first: string, second: string)
    ensures Last(Two(first, second), "a") == Some(0) && Last(Two(first, second), "b") == Some(1)
    ensures Last(Two(first, second), "c") == None
  {
    var ss := Two(first, second);
    assert ss[..1] == [ss[0]] && ss[..1][..0] == [];
    assert Last([ss[0]], "a") == Some(0) && Last([], "c") == None;
  }

  /** A stage below the second stage's column and one above it. */
  lemma FillTwo(first: string, second: string, x: nat)
    requires x == 0 || x == 2
    requires SearchFirst(Two(first, second), 2) == map["a" := x, "b" := 1]
    ensures LayoutOf(Two(first, second)) ==
      if x == 0 then [[Two(first, second)[0]], [Two(first, second)[1]]]
      else [[Two(first, second)[1]], [Two(first, second)[0]]]
  {
    var ss, level := Two(first, second), map["a" := x, "b" := 1];
    SearchLevels(ss);
    var one := Put([], x, ss[0]);
    assert Filling(ss, level, 0) == [];
    assert Filling(ss, level, 1) == one;
    assert Filling(ss, level, 2) == Put(one, 1, ss[1]);
    hide Filling, SearchFirst, SearchOf, Put, Filled;
    FilledTwo(x, ss[0], ss[1]);
  }

  lemma FilledTwo(x: nat, s: StageSpec, t: StageSpec)
    requires x == 0 || x == 2
    ensures Filled(Put(Put([], x, s), 1, t)) == if x == 0 then [[s], [t]] else [[t], [s]]
  {
    if x == 0 {
      assert Put(Put([], 0, s), 1, t) == [[s], [t]];
      FilledIsAll([[s], [t]]);
    } else {
      var one: seq<seq<StageSpec>> := [[], [], [s]];
      assert Put([], 2, s) == one;
      assert one[1] + [t] == [t];
      assert Put(one, 1, t) == [[], [t], [s]];
      assert [[], [t], [s]][..2] == [[], [t]] && [[], [t]][..1] == [[]];
      assert Filled([[]]) == [] && Filled([[], [t]]) == [[t]];
    }
  }

  /** "b" depends on "a", which depends on an unknown "c": two columns, the unknown one first. */
  lemma UnknownIsIgnored()
    ensures LayoutOf(Two("c", "a")) == [[Two("c", "a")[0]], [Two("c", "a")[1]]]
  {
    var ss := Two("c", "a");
    LastOfTwo("c", "a");
    hide Last;
    var m := map["a" := 0];
    assert SearchDeps(ss, 0, 1, {0}, map[]) == (0, map[]);
    assert SearchOf(ss, "a", {}, map[]) == (0, m);
    assert SearchOf(ss, "a", {1}, m) == (0, m);
    assert SearchDeps(ss, 1, 1, {1}, m) == (1, m);
    assert SearchOf(ss, "b", {}, m) == (1, m["b" := 1]);
    assert SearchFirst(ss, 1) == m;
    assert SearchFirst(ss, 2) == map["a" := 0, "b" := 1];
    FillTwo("c", "a", 0);
  }

  /** "a" and "b" depend on each other: the cycle is cut at "a", where the search began, and "b" comes first. */
  lemma CycleIsCut()
    ensures LayoutOf(Two("b", "a")) == [[Two("b", "a")[1]], [Two("b", "a")[0]]]
  {
    var ss := Two("b", "a");
    LastOfTwo("b", "a");
    hide Last;
    var m := map["b" := 1];
    assert SearchOf(ss, "a", {0, 1}, map[]) == (0, map[]);
    assert {0} + {1} == {0, 1};
    assert SearchDeps(ss, 1, 1, {0, 1}, map[]) == (1, map[]);
    assert SearchOf(ss, "b", {0}, map[]) == (1, m);
    assert SearchDeps(ss, 0, 1, {0}, map[]) == (2, m);
    assert {} + {0} == {0};
    assert SearchOf(ss, "a", {}, map[]) == (2, m["a" := 2]);
    assert SearchFirst(ss, 1) == m["a" := 2];
    assert SearchOf(ss, "b", {}, m["a" := 2]) == (1, m["a" := 2]);
    assert SearchFirst(ss, 2) == map["a" := 2, "b" := 1];
    FillTwo("b", "a", 2);
  }
}
