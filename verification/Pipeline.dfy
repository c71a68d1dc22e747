/** The dependency graph of a pipeline: validation, and the layered topological sort `Levels`. */
module Pipeline {
  import opened Options

  datatype StageSpec = StageSpec(id: string, agent: string, dependsOn: seq<string>, approvals: seq<string>)

  ghost predicate UniqueIds(ss: seq<StageSpec>) {
    forall i, j :: 0 <= i < j < |ss| ==> ss[i].id != ss[j].id
  }

  /** Some stage in the set of positions `at` has this identifier. */
  predicate Named(ss: seq<StageSpec>, at: set<int>, id: string) {
    exists j :: j in at && 0 <= j < |ss| && ss[j].id == id
  }

  function All(ss: seq<StageSpec>): set<int> {
    set j | 0 <= j < |ss| && At(ss, j)
  }

  predicate At(ss: seq<StageSpec>, j: int) {
    0 <= j < |ss|
  }

  ghost predicate KnownDeps(ss: seq<StageSpec>) {
    forall i, d :: 0 <= i < |ss| && 0 <= d < |ss[i].dependsOn| ==> Named(ss, All(ss), ss[i].dependsOn[d])
  }

  /** Stage `i` depends directly on stage `j`. */
  ghost predicate Depends(ss: seq<StageSpec>, i: int, j: int) {
    0 <= i < |ss| && 0 <= j < |ss| && ss[j].id in ss[i].dependsOn
  }

  /** A dependency chain: every stage in it depends directly on its successor. */
  ghost predicate Chain(ss: seq<StageSpec>, c: seq<int>) {
    && |c| > 0 && 0 <= c[0] < |ss|
    && forall k :: 0 < k < |c| ==> Depends(ss, c[k - 1], c[k])
  }

  ghost predicate Cycle(ss: seq<StageSpec>, c: seq<int>) {
    Chain(ss, c) && |c| >= 2 && c[0] == c[|c| - 1]
  }

  ghost predicate Cyclic(ss: seq<StageSpec>) {
    exists c :: Cycle(ss, c)
  }

  // ---- the layers ------------------------------------------------------------

  /** Every dependency of stage `i` is among the stages `done`. */
  predicate DepsIn(ss: seq<StageSpec>, i: int, done: set<int>)
    requires 0 <= i < |ss|
  {
    forall d :: 0 <= d < |ss[i].dependsOn| ==> Named(ss, done, ss[i].dependsOn[d])
  }

  /** The stages whose dependencies are all among `done`. */
  ghost function Next(ss: seq<StageSpec>, done: set<int>): set<int> {
    set i | 0 <= i < |ss| && DepsIn(ss, i, done)
  }

  /** The positions of the stages finished after `k` levels. */
  ghost function Done(ss: seq<StageSpec>, k: nat): set<int> {
    if k == 0 then {} else Next(ss, Done(ss, k - 1))
  }

  /** The stages of level `k`. */
  ghost function Layer(ss: seq<StageSpec>, k: nat): set<int> {
    Done(ss, k + 1) - Done(ss, k)
  }

  /** Some number of levels finishes every stage. */
  ghost predicate Layered(ss: seq<StageSpec>) {
    exists k: nat :: Done(ss, k) == All(ss)
  }

  lemma DepsInIsMonotone(ss: seq<StageSpec>, i: int, a: set<int>, b: set<int>)
    requires 0 <= i < |ss| && a <= b && DepsIn(ss, i, a)
    ensures DepsIn(ss, i, b)
  {
    forall d | 0 <= d < |ss[i].dependsOn| ensures Named(ss, b, ss[i].dependsOn[d]) {
      assert Named(ss, a, ss[i].dependsOn[d]);
    }
  }

  lemma {:induction false} DoneIsMonotone(ss: seq<StageSpec>, j: nat, k: nat)
    requires j <= k
    ensures Done(ss, j) <= Done(ss, k) <= All(ss)
  {
    if j > 0 {
      DoneIsMonotone(ss, j - 1, k - 1);
      forall i | i in Done(ss, j) ensures i in Done(ss, k) {
        DepsInIsMonotone(ss, i, Done(ss, j - 1), Done(ss, k - 1));
      }
    }
  }

  /** Direct dependencies of a finished stage were finished one level earlier. */
  lemma DepsOfDone(ss: seq<StageSpec>, k: nat, i: int, j: int)
    requires UniqueIds(ss) && i in Done(ss, k) && Depends(ss, i, j)
    ensures k > 0 && j in Done(ss, k - 1)
  {
    assert DepsIn(ss, i, Done(ss, k - 1));
    var d :| 0 <= d < |ss[i].dependsOn| && ss[i].dependsOn[d] == ss[j].id;
    assert Named(ss, Done(ss, k - 1), ss[i].dependsOn[d]);
  }

  /** Along a chain that starts in `Done(k)` the level falls by one at every step. */
  lemma {:induction false} ChainDescends(ss: seq<StageSpec>, c: seq<int>, k: nat, n: nat)
    requires UniqueIds(ss) && Chain(ss, c) && c[0] in Done(ss, k) && n < |c|
    ensures n < k && c[n] in Done(ss, k - n)
  {
    if n > 0 {
      ChainDescends(ss, c, k, n - 1);
      DepsOfDone(ss, k - (n - 1), c[n - 1], c[n]);
    }
    assert Done(ss, 0) == {};
  }

  /** A stage not finished after `k` levels heads a chain of `k + 1` stages. */
  lemma {:induction false} LongChain(ss: seq<StageSpec>, k: nat, i: int) returns (c: seq<int>)
    requires KnownDeps(ss) && 0 <= i < |ss| && i !in Done(ss, k)
    ensures Chain(ss, c) && |c| == k + 1 && c[0] == i
  {
    if k == 0 {
      c := [i];
    } else {
      var d :| 0 <= d < |ss[i].dependsOn| && !Named(ss, Done(ss, k - 1), ss[i].dependsOn[d]);
      assert Named(ss, All(ss), ss[i].dependsOn[d]);
      var j :| 0 <= j < |ss| && ss[j].id == ss[i].dependsOn[d];
      var rest := LongChain(ss, k - 1, j);
      c := [i] + rest;
      assert forall n :: 0 < n < |c| ==> c[n] == rest[n - 1];
      forall n | 0 < n < |c| ensures Depends(ss, c[n - 1], c[n]) {
        if n > 1 {
          assert Depends(ss, rest[(n - 1) - 1], rest[n - 1]);
        }
      }
    }
  }

  /** A sequence longer than the set it is drawn from repeats an element. */
  lemma {:induction false} Pigeonhole<T>(c: seq<T>, s: set<T>) returns (i: nat, j: nat)
    requires |c| > |s|
    requires forall k :: 0 <= k < |c| ==> c[k] in s
    ensures i < j < |c| && c[i] == c[j]
    decreases |s|
  {
    var last := c[|c| - 1];
    if k :| 0 <= k < |c| - 1 && c[k] == last {
      i, j := k, |c| - 1;
    } else {
      i, j := Pigeonhole(c[..|c| - 1], s - {last});
    }
  }

  lemma {:induction false} DoneIsStable(ss: seq<StageSpec>, j: nat, k: nat)
    requires j <= k && Done(ss, j + 1) == Done(ss, j)
    ensures Done(ss, k) == Done(ss, j)
    decreases k
  {
    hide Next;
    if j < k {
      calc {
        Done(ss, k);
        Next(ss, Done(ss, k - 1));
        { DoneIsStable(ss, j, k - 1); }
        Next(ss, Done(ss, j));
        Done(ss, j + 1);
      }
    }
  }

  lemma AllSize(ss: seq<StageSpec>)
    ensures |All(ss)| == |ss|
  {
    if |ss| > 0 {
      AllSize(ss[..|ss| - 1]);
      assert All(ss) == All(ss[..|ss| - 1]) + {|ss| - 1};
    }
  }

  lemma {:induction false} ChainInRange(ss: seq<StageSpec>, c: seq<int>, n: nat)
    requires Chain(ss, c) && n < |c|
    ensures 0 <= c[n] < |ss|
  {
    if n > 0 {
      assert Depends(ss, c[n - 1], c[n]);
    }
  }

  /** Between two visits of the same stage a chain is a cycle. */
  lemma RepeatIsCycle(ss: seq<StageSpec>, c: seq<int>, x: nat, y: nat)
    requires Chain(ss, c) && x < y < |c| && c[x] == c[y]
    ensures Cyclic(ss)
  {
    var p := c[x..y + 1];
    ChainInRange(ss, c, x);
    forall m | 0 < m < |p| ensures Depends(ss, p[m - 1], p[m]) {
      assert Depends(ss, c[(x + m) - 1], c[x + m]);
    }
    assert Cycle(ss, p);
  }

  lemma StillUnfinished(ss: seq<StageSpec>, k: nat, n: nat)
    requires Done(ss, k + 1) == Done(ss, k)
    ensures Done(ss, n) <= Done(ss, k)
  {
    if k <= n {
      DoneIsStable(ss, k, n);
    } else {
      DoneIsMonotone(ss, n, k);
    }
  }

  /** An empty level while a stage remains yields an actual cycle. */
  lemma StuckLevelHasCycle(ss: seq<StageSpec>, k: nat, i: int)
    requires KnownDeps(ss)
    requires Done(ss, k + 1) == Done(ss, k) && 0 <= i < |ss| && i !in Done(ss, k)
    ensures Cyclic(ss)
  {
    StillUnfinished(ss, k, |ss|);
    var c := LongChain(ss, |ss|, i);
    AllSize(ss);
    forall m | 0 <= m < |c| ensures c[m] in All(ss) {
      ChainInRange(ss, c, m);
    }
    var x, y := Pigeonhole(c, All(ss));
    RepeatIsCycle(ss, c, x, y);
  }

  lemma LayeredHasNoCycle(ss: seq<StageSpec>)
    requires UniqueIds(ss) && Layered(ss)
    ensures !Cyclic(ss)
  {
    var k: nat :| Done(ss, k) == All(ss);
    forall c | Cycle(ss, c)
      ensures false
    {
      NoCycleFrom(ss, c, k);
    }
  }

  lemma {:induction false} NoCycleFrom(ss: seq<StageSpec>, c: seq<int>, k: nat)
    requires UniqueIds(ss) && c != [] && c[0] in Done(ss, k)
    ensures !Cycle(ss, c)
    decreases k
  {
    if Cycle(ss, c) {
      ChainDescends(ss, c, k, |c| - 1);
      NoCycleFrom(ss, c, k - (|c| - 1));
      assert false;
    }
  }

  /**
   * A stage of level `k` heads a dependency chain with `k` links, and no chain from it is longer:
   * the level index is the length of its longest dependency chain.
   */
  lemma LevelIsLongestChain(ss: seq<StageSpec>, k: nat, i: int)
    requires UniqueIds(ss) && KnownDeps(ss) && i in Layer(ss, k)
    ensures exists c :: Chain(ss, c) && c[0] == i && |c| == k + 1
    ensures forall c :: Chain(ss, c) && c[0] == i ==> |c| <= k + 1
  {
    DoneIsMonotone(ss, k + 1, k + 1);
    var c := LongChain(ss, k, i);
    forall c' | Chain(ss, c') && c'[0] == i
      ensures |c'| <= k + 1
    {
      ChainDescends(ss, c', k + 1, |c'| - 1);
    }
  }

  /** A stage belongs to at most one level. */
  lemma LayersAreDisjoint(ss: seq<StageSpec>, j: nat, k: nat)
    requires j < k
    ensures Layer(ss, j) !! Layer(ss, k)
  {
    DoneIsMonotone(ss, j + 1, k);
  }

  // ---- Levels ------------------------------------------------------------------

  /** Lexicographic order on characters, the order `slices.Sort` uses. */
  predicate StringLess(a: string, b: string) {
    b != [] && (a == [] || a[0] < b[0] || (a[0] == b[0] && StringLess(a[1..], b[1..])))
  }

  lemma StringLessIsTotal(a: string, b: string)
    ensures StringLess(a, b) || a == b || StringLess(b, a)
    ensures !(StringLess(a, b) && StringLess(b, a)) && (StringLess(a, b) ==> a != b)
  {
    if a != [] && b != [] && a[0] == b[0] {
      StringLessIsTotal(a[1..], b[1..]);
      assert a == [a[0]] + a[1..] && b == [b[0]] + b[1..];
    }
  }

  lemma StringLessIsTransitive(a: string, b: string, c: string)
    requires StringLess(a, b) && StringLess(b, c)
    ensures StringLess(a, c)
  {
    if a != [] && a[0] == b[0] == c[0] {
      StringLessIsTransitive(a[1..], b[1..], c[1..]);
    }
  }

  /** In ascending order, equal names allowed. */
  predicate Sorted(l: seq<string>) {
    forall i, j :: 0 <= i < j < |l| ==> !StringLess(l[j], l[i])
  }

  lemma StringLeqIsTransitive(a: string, b: string, c: string)
    requires !StringLess(b, a) && !StringLess(c, b)
    ensures !StringLess(c, a)
  {
    StringLessIsTotal(a, b);
    StringLessIsTotal(b, c);
    if StringLess(c, a) && a != b {
      StringLessIsTransitive(c, a, b);
    }
  }

  /** Puts a name before the first one it does not exceed. */
  function Insert(l: seq<string>, x: string): (r: seq<string>)
    ensures multiset(r) == multiset(l) + multiset{x}
  {
    if l == [] || !StringLess(l[0], x) then [x] + l
    else
      assert l == [l[0]] + l[1..];
      [l[0]] + Insert(l[1..], x)
  }

  lemma {:induction false} InsertKeepsOrder(l: seq<string>, x: string)
    requires Sorted(l)
    ensures Sorted(Insert(l, x))
  {
    StringLessIsTotal(x, x);
    if l != [] {
      StringLessIsTotal(l[0], x);
      if !StringLess(l[0], x) {
        forall j | 0 <= j < |l| ensures !StringLess(l[j], x) {
          StringLessIsTotal(l[0], l[0]);
          StringLeqIsTransitive(x, l[0], l[j]);
        }
      } else {
        var rest := Insert(l[1..], x);
        InsertKeepsOrder(l[1..], x);
        forall j | 0 <= j < |rest| ensures !StringLess(rest[j], l[0]) {
          assert rest[j] in multiset(rest);
          assert rest[j] == x || rest[j] in multiset(l[1..]);
        }
      }
    }
  }

  /** slices.Sort */
  function SortNames(l: seq<string>): (r: seq<string>)
    ensures Sorted(r) && multiset(r) == multiset(l)
  {
    if l == [] then []
    else
      var front := l[..|l| - 1];
      assert l == front + [l[|l| - 1]];
      InsertKeepsOrder(SortNames(front), l[|l| - 1]);
      Insert(SortNames(front), l[|l| - 1])
  }

  lemma SortKeepsNames(l: seq<string>)
    ensures forall x :: x in SortNames(l) <==> x in l
  {
    assert forall x :: x in l <==> x in multiset(l);
    assert forall x :: x in SortNames(l) <==> x in multiset(SortNames(l));
  }

  /** A level lists exactly the identifiers of a layer. */
  ghost predicate Lists(ss: seq<StageSpec>, level: seq<string>, at: set<int>) {
    forall i :: 0 <= i < |ss| ==> (ss[i].id in level <==> i in at)
  }

  /** The map `done` of the source records exactly the finished stages. */
  ghost predicate Records(ss: seq<StageSpec>, done: set<string>, at: set<int>) {
    && (forall i :: 0 <= i < |ss| ==> (ss[i].id in done <==> i in at))
    && forall x :: x in done ==> Named(ss, All(ss), x)
  }


  lemma {:induction false} RecordsSize(ss: seq<StageSpec>, done: set<string>, at: set<int>)
    requires UniqueIds(ss) && at <= All(ss) && Records(ss, done, at)
    ensures |done| == |at|
    decreases |at|
  {
    if at == {} {
      assert done == {};
    } else {
      var i :| i in at;
      RecordsSize(ss, done - {ss[i].id}, at - {i});
    }
  }

  /** Fewer recorded identifiers than stages means an unfinished stage, and conversely. */
  lemma RecordsAll(ss: seq<StageSpec>, done: set<string>, k: nat)
    requires UniqueIds(ss) && Records(ss, done, Done(ss, k))
    ensures |done| <= |ss| && (|done| == |ss| <==> Done(ss, k) == All(ss))
  {
    DoneIsMonotone(ss, k, k);
    RecordsSize(ss, done, Done(ss, k));
    AllSize(ss);
    assert All(ss) == Done(ss, k) + (All(ss) - Done(ss, k));
  }

  /** The inner loops of Levels: every stage not yet done whose dependencies all are. */
  method NextLevel(ss: seq<StageSpec>, done: set<string>, ghost k: nat) returns (level: seq<string>)
    ensures UniqueIds(ss) && Records(ss, done, Done(ss, k)) ==> Lists(ss, level, Layer(ss, k))
    ensures forall x :: x in level ==> Named(ss, All(ss), x) && x !in done
  {
    level := [];
    ghost var valid := UniqueIds(ss) && Records(ss, done, Done(ss, k));
    for i := 0 to |ss|
      invariant valid ==> forall j :: 0 <= j < |ss| ==> (ss[j].id in level <==> j < i && j in Layer(ss, k))
      invariant forall x :: x in level ==> Named(ss, All(ss), x) && x !in done
    {
      if ss[i].id in done {
        continue;
      }
      var ready := true;
      for d := 0 to |ss[i].dependsOn|
        invariant ready <==> forall e :: 0 <= e < d ==> ss[i].dependsOn[e] in done
      {
        if ss[i].dependsOn[d] !in done {
          ready := false;
        }
      }
      if valid {
        ReadyMeansDepsIn(ss, i, done, Done(ss, k));
      }
      if ready {
        level := level + [ss[i].id];
      }
    }
  }

  lemma ReadyMeansDepsIn(ss: seq<StageSpec>, i: int, done: set<string>, at: set<int>)
    requires 0 <= i < |ss| && Records(ss, done, at)
    ensures (forall d :: 0 <= d < |ss[i].dependsOn| ==> ss[i].dependsOn[d] in done) <==> DepsIn(ss, i, at)
  {
    forall d | 0 <= d < |ss[i].dependsOn|
      ensures ss[i].dependsOn[d] in done <==> Named(ss, at, ss[i].dependsOn[d])
    {
      if ss[i].dependsOn[d] in done {
        assert Named(ss, All(ss), ss[i].dependsOn[d]);
      }
    }
  }

  /** Recording one more layer. */
  lemma RecordsNext(ss: seq<StageSpec>, done: set<string>, level: seq<string>, k: nat)
    requires Records(ss, done, Done(ss, k)) && Lists(ss, level, Layer(ss, k))
    requires forall x :: x in level ==> Named(ss, All(ss), x)
    ensures Records(ss, done + (set x | x in level), Done(ss, k + 1))
  {
    DoneIsMonotone(ss, k, k + 1);
    var next := done + set x | x in level;
    var at, after := Done(ss, k), Done(ss, k + 1);
    RecordsUnion(ss, done, level, at, after);
  }

  lemma RecordsUnion(ss: seq<StageSpec>, done: set<string>, level: seq<string>, at: set<int>, after: set<int>)
    requires Records(ss, done, at) && Lists(ss, level, after - at) && at <= after
    requires forall x :: x in level ==> Named(ss, All(ss), x)
    ensures Records(ss, done + (set x | x in level), after)
  {
  }

  /** A finished level makes progress. */
  lemma LevelGrows(ss: seq<StageSpec>, done: set<string>, next: set<string>, level: seq<string>, k: nat)
    requires UniqueIds(ss) && Records(ss, done, Done(ss, k)) && Lists(ss, level, Layer(ss, k))
    requires forall x :: x in level ==> Named(ss, All(ss), x)
    requires next == done + set x | x in level
    requires level != []
    ensures Records(ss, next, Done(ss, k + 1)) && |done| < |next| <= |ss|
  {
    hide Next;
    RecordsNext(ss, done, level, k);
    RecordsAll(ss, next, k + 1);
    assert level[0] in level && Named(ss, All(ss), level[0]);
    assert level[0] !in done;
    CardinalityMonotone(done + {level[0]}, next);
  }

  lemma NoLevelHasCycle(ss: seq<StageSpec>, done: set<string>, k: nat)
    requires UniqueIds(ss) && KnownDeps(ss) && Records(ss, done, Done(ss, k)) && |done| < |ss|
    requires Lists(ss, [], Layer(ss, k))
    ensures Cyclic(ss)
  {
    hide Next;
    RecordsAll(ss, done, k);
    DoneIsMonotone(ss, k, k + 1);
    var i :| i in All(ss) && i !in Done(ss, k);
    assert Done(ss, k + 1) == Done(ss, k);
    StuckLevelHasCycle(ss, k, i);
  }

  /** A round without a stage while one is unfinished: no number of levels ever finishes it. */
  lemma NoLevelIsStuck(ss: seq<StageSpec>, done: set<string>, k: nat)
    requires UniqueIds(ss) && Records(ss, done, Done(ss, k)) && |done| < |ss|
    requires Lists(ss, [], Layer(ss, k))
    ensures !Layered(ss)
  {
    hide Next;
    RecordsAll(ss, done, k);
    DoneIsMonotone(ss, k, k + 1);
    assert Done(ss, k + 1) == Done(ss, k);
    forall n: nat ensures Done(ss, n) != All(ss) {
      if n < k {
        DoneIsMonotone(ss, n, k);
      } else {
        DoneIsStable(ss, k, n);
      }
    }
  }

  ghost predicate LevelsOk(ss: seq<StageSpec>, levels: seq<seq<string>>) {
    forall k :: 0 <= k < |levels| ==>
      Sorted(levels[k]) && levels[k] != [] && Lists(ss, levels[k], Layer(ss, k))
  }

  lemma OneMoreLevel(ss: seq<StageSpec>, levels: seq<seq<string>>, level: seq<string>)
    requires LevelsOk(ss, levels)
    requires Sorted(level) && level != [] && Lists(ss, level, Layer(ss, |levels|))
    ensures LevelsOk(ss, levels + [level])
  {
    hide Layer, Sorted, Lists;
  }

  /** The loop that marks a whole level as done. */
  method MarkDone(done: set<string>, level: seq<string>) returns (next: set<string>)
    ensures next == done + set x | x in level
  {
    next := done;
    for i := 0 to |level|
      invariant next == done + set n | 0 <= n < i :: level[n]
    {
      next := next + {level[i]};
    }
  }

  /** The identifiers, without repetition. */
  function Ids(ss: seq<StageSpec>): (r: set<string>)
    ensures forall x :: x in r <==> Named(ss, All(ss), x)
  {
    if ss == [] then {}
    else
      var front := ss[..|ss| - 1];
      IdsOfFront(ss);
      Ids(front) + {ss[|ss| - 1].id}
  }

  lemma IdsOfFront(ss: seq<StageSpec>)
    requires ss != []
    ensures forall x :: Named(ss, All(ss), x) <==> Named(ss[..|ss| - 1], All(ss[..|ss| - 1]), x) || x == ss[|ss| - 1].id
  {
    var front := ss[..|ss| - 1];
    forall x ensures Named(ss, All(ss), x) <==> Named(front, All(front), x) || x == ss[|ss| - 1].id {
      if Named(front, All(front), x) {
        var j :| j in All(front) && 0 <= j < |front| && front[j].id == x;
        assert j in All(ss) && ss[j].id == x;
      }
      if x == ss[|ss| - 1].id {
        assert |ss| - 1 in All(ss);
      }
      if Named(ss, All(ss), x) {
        var j :| j in All(ss) && 0 <= j < |ss| && ss[j].id == x;
        assert j < |front| ==> j in All(front) && front[j].id == x;
      }
    }
  }

  lemma RepeatIsKnown(ss: seq<StageSpec>)
    requires ss != [] && !UniqueIds(ss) && UniqueIds(ss[..|ss| - 1])
    ensures ss[|ss| - 1].id in Ids(ss[..|ss| - 1])
  {
    var front := ss[..|ss| - 1];
    var i, j :| 0 <= i < j < |ss| && ss[i].id == ss[j].id;
    assert j == |ss| - 1;
    assert i in All(front) && front[i].id == ss[j].id;
  }

  /** A repeated identifier leaves fewer identifiers than stages. */
  lemma {:induction false} IdsBound(ss: seq<StageSpec>)
    ensures |Ids(ss)| <= |ss|
    ensures !UniqueIds(ss) ==> |Ids(ss)| < |ss|
  {
    if ss == [] {
      assert Ids(ss) == {} && UniqueIds(ss);
    } else {
      var front, last := ss[..|ss| - 1], ss[|ss| - 1].id;
      assert Ids(ss) == Ids(front) + {last};
      if !UniqueIds(ss) && UniqueIds(front) {
        RepeatIsKnown(ss);
      }
      hide Ids, UniqueIds, Named, All;
      IdsBound(front);
      assert last in Ids(front) ==> Ids(front) + {last} == Ids(front);
    }
  }

  lemma DoneBound(ss: seq<StageSpec>, done: set<string>)
    requires forall x :: x in done ==> Named(ss, All(ss), x)
    ensures |done| <= |ss| && (!UniqueIds(ss) ==> |done| < |ss|)
  {
    IdsBound(ss);
    CardinalityMonotone(done, Ids(ss));
  }

  lemma NothingDone(ss: seq<StageSpec>)
    ensures Records(ss, {}, Done(ss, 0)) && LevelsOk(ss, [])
  {
  }

  /** Every round that finds something records more identifiers. */
  lemma SomeMore(ss: seq<StageSpec>, done: set<string>, next: set<string>, level: seq<string>)
    requires forall x :: x in done ==> Named(ss, All(ss), x)
    requires forall x :: x in level ==> Named(ss, All(ss), x) && x !in done
    requires level != [] && next == done + set x | x in level
    ensures |done| < |next| <= |ss| && (!UniqueIds(ss) ==> |next| < |ss|)
    ensures forall x :: x in next ==> Named(ss, All(ss), x)
  {
    hide Named, UniqueIds;
    assert level[0] in next && level[0] !in done;
    CardinalityMonotone(done + {level[0]}, next);
    DoneBound(ss, next);
  }

  lemma SameLists(ss: seq<StageSpec>, a: seq<string>, b: seq<string>, at: set<int>)
    requires Lists(ss, a, at) && forall x :: x in b <==> x in a
    ensures Lists(ss, b, at)
  {
  }

  lemma FinishedIsLayered(ss: seq<StageSpec>, k: nat)
    requires Done(ss, k) == All(ss)
    ensures Layered(ss)
  {
  }

  /**
   * Pipeline.Levels: repeatedly take every stage whose dependencies are done. For unique identifiers the
   * answer, when there is one, lists the layers in order, each sorted, and together they are all the
   * stages; without an answer the graph has a cycle, provided every dependency names a stage. Repeated
   * identifiers get no answer.
   */
  method Levels(ss: seq<StageSpec>) returns (out: Option<seq<seq<string>>>)
    ensures UniqueIds(ss) && out.Some? ==> LevelsOk(ss, out.value) && Done(ss, |out.value|) == All(ss)
    ensures UniqueIds(ss) && KnownDeps(ss) ==> (out.None? <==> Cyclic(ss))
    ensures UniqueIds(ss) ==> (out.Some? <==> Layered(ss))
    ensures !UniqueIds(ss) ==> out.None?
  {
    hide Next, UniqueIds, KnownDeps, Cyclic, Layered, LevelsOk, Lists;
    var done: set<string> := {};
    var levels: seq<seq<string>> := [];
    NothingDone(ss);
    DoneBound(ss, done);
    while |done| < |ss|
      invariant forall x :: x in done ==> Named(ss, All(ss), x)
      invariant |done| <= |ss| && (!UniqueIds(ss) ==> |done| < |ss|)
      invariant UniqueIds(ss) ==> Records(ss, done, Done(ss, |levels|)) && LevelsOk(ss, levels)
      decreases |ss| - |done|
    {
      var level := NextLevel(ss, done, |levels|);
      if |level| == 0 {
        if UniqueIds(ss) {
          NoLevelIsStuck(ss, done, |levels|);
          if KnownDeps(ss) {
            NoLevelHasCycle(ss, done, |levels|);
          }
        }
        return None;
      }
      var sorted := SortNames(level);
      SortKeepsNames(level);
      var next := MarkDone(done, sorted);
      SomeMore(ss, done, next, sorted);
      if UniqueIds(ss) {
        SameLists(ss, level, sorted, Layer(ss, |levels|));
        LevelGrows(ss, done, next, sorted, |levels|);
        OneMoreLevel(ss, levels, sorted);
      }
      levels := levels + [sorted];
      done := next;
    }
    if UniqueIds(ss) {
      RecordsAll(ss, done, |levels|);
      FinishedIsLayered(ss, |levels|);
      LayeredHasNoCycle(ss);
    }
    return Some(levels);
  }

  lemma CardinalityMonotone<T>(a: set<T>, b: set<T>)
    requires a <= b
    ensures |a| <= |b|
  {
    assert b == a + (b - a);
  }
}
