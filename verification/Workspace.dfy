/** The task's git workspace: reset of an attempt, acceptance of a stage, and the branches to publish. */
module Workspace {
  import opened Options
  import opened Globs

  /** A commit, the index or the work tree: path to content. */
  type Tree = map<string, string>

  function Lookup(t: Tree, p: string): Option<string> {
    if p in t then Some(t[p]) else None
  }

  lemma SameTree(a: Tree, b: Tree)
    requires forall p :: Lookup(a, p) == Lookup(b, p)
    ensures a == b
  {
    forall p ensures p in a <==> p in b {
      assert Lookup(a, p) == Lookup(b, p);
    }
    forall p | p in a ensures p in b && a[p] == b[p] {
      assert Lookup(a, p) == Lookup(b, p);
    }
  }

  /** Path `p` as in `from`: restored, added or removed. */
  function Copy(t: Tree, from: Tree, p: string): (r: Tree)
    ensures forall q :: Lookup(r, q) == if q == p then Lookup(from, p) else Lookup(t, q)
  {
    if p in from then t[p := from[p]] else t - {p}
  }

  /** The tree `b` on the names, `a` elsewhere. */
  function Mix(a: Tree, b: Tree, names: set<string>): (r: Tree)
    ensures forall p :: Lookup(r, p) == if p in names then Lookup(b, p) else Lookup(a, p)
  {
    map p | p in a.Keys + b.Keys && (if p in names then p in b else p in a) :: if p in names then b[p] else a[p]
  }

  lemma MixNone(a: Tree, b: Tree)
    ensures Mix(a, b, {}) == a
  {
    SameTree(Mix(a, b, {}), a);
  }

  lemma MixStep(a: Tree, b: Tree, names: set<string>, p: string)
    ensures Mix(a, b, names + {p}) == Copy(Mix(a, b, names), b, p)
  {
    SameTree(Mix(a, b, names + {p}), Copy(Mix(a, b, names), b, p));
  }

  // ---- what the operations do ------------------------------------------------------------------------

  datatype Repo = Repo(base: Tree, head: Tree, index: Tree, worktree: Tree, approved: map<string, Tree>)

  function OwnedIn(t: Tree, patterns: seq<string>, rules: PathRules): set<string> {
    set p | p in t.Keys && Owned(p, patterns, rules)
  }

  /** files: the owned names that HEAD tracks or the work tree holds. */
  function Names(r: Repo, patterns: seq<string>, rules: PathRules): set<string> {
    OwnedIn(r.head, patterns, rules) + OwnedIn(r.worktree, patterns, rules)
  }

  /** write_file of a stage's runner reaches only paths the stage owns. */
  function Written(r: Repo, p: string, content: string, patterns: seq<string>, rules: PathRules): Repo {
    if Owned(p, patterns, rules) then r.(worktree := r.worktree[p := content]) else r
  }

  function WasReset(r: Repo, patterns: seq<string>, rules: PathRules): Repo {
    var names := Names(r, patterns, rules);
    r.(worktree := Mix(r.worktree, r.head, names),
       index := Mix(r.index, r.head, OwnedIn(r.head, patterns, rules)))
  }

  function Accepted(r: Repo, key: string, patterns: seq<string>, rules: PathRules): Repo {
    if key in r.approved then r
    else
      var tree := Mix(r.index, r.worktree, Names(r, patterns, rules));
      r.(index := tree, head := tree, approved := r.approved[key := tree])
  }

  predicate Inside(p: string, patterns: Option<seq<string>>, rules: PathRules) {
    patterns.None? || Owned(p, patterns.value, rules)
  }

  /** The paths a branch takes from `source`: those in the patterns whose content differs from the base. */
  function Changes(base: Tree, source: Tree, patterns: Option<seq<string>>, rules: PathRules): set<string> {
    set p | p in base.Keys + source.Keys && Differs(base, source, patterns, rules, p)
  }

  lemma ChangesAre(base: Tree, source: Tree, patterns: Option<seq<string>>, rules: PathRules)
    ensures forall p :: p in Changes(base, source, patterns, rules) <==>
      p in base.Keys + source.Keys && Differs(base, source, patterns, rules, p)
  {
  }

  predicate Differs(base: Tree, source: Tree, patterns: Option<seq<string>>, rules: PathRules, p: string) {
    Lookup(base, p) != Lookup(source, p) && Inside(p, patterns, rules)
  }

  function Branch(base: Tree, source: Tree, patterns: Option<seq<string>>, rules: PathRules): Tree {
    Mix(base, source, Changes(base, source, patterns, rules))
  }

  // ---- the manager -----------------------------------------------------------------------------------

  class Manager {
    const rules: PathRules
    const base: Tree
    var head: Tree
    var index: Tree
    var worktree: Tree
    var approved: map<string, Tree>

    /** A fresh clone: HEAD is the base commit, everything is checked out. */
    constructor (base: Tree, rules: PathRules)
      ensures this.rules == rules && State() == Repo(base, base, base, base, map[])
    {
      this.base, this.rules := base, rules;
      head, index, worktree, approved := base, base, base, map[];
    }

    function State(): Repo
      reads this
    {
      Repo(base, head, index, worktree, approved)
    }

    method Owns(t: Tree, patterns: seq<string>) returns (names: set<string>)
      ensures names == OwnedIn(t, patterns, rules)
    {
      hide Owned;
      names := {};
      var rest := t.Keys;
      while rest != {}
        invariant rest <= t.Keys
        invariant forall p :: p in names <==> p in t && p !in rest && Owned(p, patterns, rules)
        decreases |rest|
      {
        var p :| p in rest;
        rest := rest - {p};
        var mine := IsOwned(p, patterns, rules);
        if mine {
          names := names + {p};
        }
      }
    }

    method Files(patterns: seq<string>) returns (names: set<string>, tracked: set<string>)
      ensures names == Names(State(), patterns, rules) && tracked == OwnedIn(head, patterns, rules)
    {
      tracked := Owns(head, patterns);
      var present := Owns(worktree, patterns);
      names := tracked + present;
    }

    method Write(p: string, content: string, patterns: seq<string>)
      modifies this`worktree
      ensures State() == Written(old(State()), p, content, patterns, rules)
    {
      var mine := IsOwned(p, patterns, rules);
      if mine {
        worktree := worktree[p := content];
      }
    }

    /** Restore what HEAD tracks, in the index and the work tree; remove what it does not. */
    method Reset(patterns: seq<string>)
      modifies this`index, this`worktree
      ensures State() == WasReset(old(State()), patterns, rules)
    {
      var names, tracked := Files(patterns);
      NotTracked(State(), patterns, rules);
      assert tracked <= names;
      hide Owned, OwnedIn, Names, Mix;
      index, worktree := RestoreAll(head, index, worktree, names, tracked);
    }

    method Accept(key: string, patterns: seq<string>)
      modifies this`index, this`head, this`approved
      ensures State() == Accepted(old(State()), key, patterns, rules)
    {
      if key in approved {
        return;
      }
      hide Owned, OwnedIn, Names, Mix;
      var names, tracked := Files(patterns);
      index := CopyAll(index, worktree, names);
      head := index;
      approved := approved[key := head];
    }

    method IsChange(source: Tree, patterns: Option<seq<string>>, p: string) returns (r: bool)
      ensures r == Differs(base, source, patterns, rules, p)
    {
      r := Lookup(base, p) != Lookup(source, p);
      if r && patterns.Some? {
        r := IsOwned(p, patterns.value, rules);
      }
    }

    /** The names to put on a branch. */
    method Diff(source: Tree, patterns: Option<seq<string>>) returns (names: set<string>)
      ensures names == Changes(base, source, patterns, rules)
    {
      names := {};
      var all := base.Keys + source.Keys;
      ChangesAre(base, source, patterns, rules);
      hide Differs, Changes;
      var rest := all;
      while rest != {}
        invariant forall p :: p in names ==> p in Changes(base, source, patterns, rules)
        invariant forall p :: p in Changes(base, source, patterns, rules) ==> p in names || p in rest
        invariant rest <= all
        decreases |rest|
      {
        var p :| p in rest;
        rest := rest - {p};
        var change := IsChange(source, patterns, p);
        if change {
          names := names + {p};
        }
      }
      assert names == Changes(base, source, patterns, rules);
    }

    /** BranchCommit: no branch when nothing inside the patterns differs from the base. */
    method BranchCommit(source: Tree, patterns: Option<seq<string>>) returns (tree: Tree, changed: bool)
      ensures tree == Branch(base, source, patterns, rules)
      ensures changed <==> Changes(base, source, patterns, rules) != {}
    {
      hide Changes;
      var names := Diff(source, patterns);
      changed := names != {};
      tree := CopyAll(base, source, names);
    }
  }

  /** `git add -A` and `git update-index` over a list of names. */
  method CopyAll(t: Tree, from: Tree, names: set<string>) returns (r: Tree)
    ensures r == Mix(t, from, names)
  {
    hide Mix, Copy, Lookup;
    r := t;
    var rest := names;
    ghost var done: set<string> := {};
    MixNone(t, from);
    while rest != {}
      invariant names == done + rest && done !! rest && r == Mix(t, from, done)
      decreases |rest|
    {
      var p :| p in rest;
      rest := rest - {p};
      MixStep(t, from, done, p);
      r := Copy(r, from, p);
      done := done + {p};
    }
    assert done == names;
  }

  /** The loop of Reset over the names. */
  method RestoreAll(head: Tree, index: Tree, worktree: Tree, names: set<string>, tracked: set<string>)
      returns (i: Tree, w: Tree)
    requires tracked <= names && forall p :: p in names && p !in tracked ==> p !in head
    ensures i == Mix(index, head, tracked) && w == Mix(worktree, head, names)
  {
    hide Mix, Copy, Lookup;
    i, w := index, worktree;
    var rest := names;
    MixNone(worktree, head);
    MixNone(index, head);
    assert names - rest == {} && tracked - rest == {};
    while rest != {}
      invariant rest <= names && w == Mix(worktree, head, names - rest) && i == Mix(index, head, tracked - rest)
      decreases |rest|
    {
      var p :| p in rest;
      MixStep(worktree, head, names - rest, p);
      assert names - (rest - {p}) == names - rest + {p};
      if p in tracked {
        MixStep(index, head, tracked - rest, p);
        assert tracked - (rest - {p}) == tracked - rest + {p};
        i, w := Copy(i, head, p), Copy(w, head, p);
      } else {
        assert tracked - (rest - {p}) == tracked - rest;
        CopyAbsent(w, head, p);
        w := w - {p};
      }
      rest := rest - {p};
    }
    assert names - rest == names && tracked - rest == tracked;
  }

  lemma CopyAbsent(t: Tree, from: Tree, p: string)
    requires p !in from
    ensures Copy(t, from, p) == t - {p}
  {
  }

  lemma NotTracked(r: Repo, patterns: seq<string>, rules: PathRules)
    ensures forall p :: p in Names(r, patterns, rules) && p !in OwnedIn(r.head, patterns, rules) ==> p !in r.head
  {
    hide Owned;
  }

  // ---- a run of stages on one workspace ---------------------------------------------------------------

  datatype Writer = Writer(key: string, patterns: seq<string>)

  /** The writers of a definition that the conflict check accepts: unique keys, patterns apart. */
  ghost predicate Separate(plan: seq<Writer>) {
    forall i, j :: 0 <= i < j < |plan| ==> plan[i].key != plan[j].key && Apart(plan[i].patterns, plan[j].patterns)
  }

  function WritersOf(stages: seq<StageRef>, agents: map<string, seq<string>>): (plan: seq<Writer>)
    ensures |plan| == |stages|
    ensures forall i :: 0 <= i < |plan| ==> plan[i] == Writer(stages[i].id, PathsOf(agents, stages[i]))
  {
    seq(|stages|, i requires 0 <= i < |stages| => Writer(stages[i].id, PathsOf(agents, stages[i])))
  }

  /** What CheckWriteConflicts accepts is separate. */
  lemma CheckedIsSeparate(stages: seq<StageRef>, agents: map<string, seq<string>>)
    requires forall i, j :: 0 <= i < j < |stages| ==> stages[i].id != stages[j].id
    requires forall i, j :: 0 <= i < j < |stages| ==> Apart(PathsOf(agents, stages[i]), PathsOf(agents, stages[j]))
    ensures Separate(WritersOf(stages, agents))
  {
    hide Apart, PathsOf;
  }

  datatype Op = Write(i: nat, path: string, content: string) | Reset(i: nat) | Accept(i: nat)

  function Apply(plan: seq<Writer>, rules: PathRules, r: Repo, op: Op): Repo {
    if op.i >= |plan| then r
    else
      var w := plan[op.i];
      match op
      case Write(_, path, content) => Written(r, path, content, w.patterns, rules)
      case Reset(_) => WasReset(r, w.patterns, rules)
      case Accept(_) => Accepted(r, w.key, w.patterns, rules)
  }

  /** Any interleaving of attempts, crashes, resets and acceptances, from a fresh clone. */
  function Run(plan: seq<Writer>, rules: PathRules, base: Tree, ops: seq<Op>): Repo {
    if ops == [] then Repo(base, base, base, base, map[])
    else Apply(plan, rules, Run(plan, rules, base, ops[..|ops| - 1]), ops[|ops| - 1])
  }

  predicate OwnedBy(plan: seq<Writer>, rules: PathRules, i: int, p: string) {
    0 <= i < |plan| && Owned(p, plan[i].patterns, rules)
  }

  lemma OneOwner(plan: seq<Writer>, rules: PathRules, i: int, j: int, p: string)
    requires RootSound(rules) && Separate(plan) && OwnedBy(plan, rules, i, p) && OwnedBy(plan, rules, j, p)
    ensures i == j
  {
    if i < j {
      OwnersAreDisjoint(plan[i].patterns, plan[j].patterns, rules, p);
    } else if j < i {
      OwnersAreDisjoint(plan[j].patterns, plan[i].patterns, rules, p);
    }
  }

  /** HEAD at `p` is what the accepted owner committed, and the base where no accepted stage owns `p`. */
  ghost predicate HeadOk(plan: seq<Writer>, rules: PathRules, r: Repo, p: string) {
    && (forall i :: OwnedBy(plan, rules, i, p) && plan[i].key in r.approved ==>
          Lookup(r.approved[plan[i].key], p) == Lookup(r.head, p))
    && ((forall i :: OwnedBy(plan, rules, i, p) ==> plan[i].key !in r.approved) ==>
          Lookup(r.head, p) == Lookup(r.base, p))
  }

  ghost predicate RepoOk(plan: seq<Writer>, rules: PathRules, r: Repo) {
    r.index == r.head && forall p :: HeadOk(plan, rules, r, p)
  }

  lemma NamesHas(r: Repo, patterns: seq<string>, rules: PathRules, p: string)
    ensures p in Names(r, patterns, rules) <==> (p in r.head || p in r.worktree) && Owned(p, patterns, rules)
  {
    hide Owned;
  }

  lemma AcceptedHead(r: Repo, key: string, patterns: seq<string>, rules: PathRules, p: string)
    requires r.index == r.head && key !in r.approved
    ensures Lookup(Accepted(r, key, patterns, rules).head, p)
         == if Owned(p, patterns, rules) then Lookup(r.worktree, p) else Lookup(r.head, p)
  {
    NamesHas(r, patterns, rules, p);
    hide Names, Owned;
  }

  lemma ResetKeepsIndex(r: Repo, patterns: seq<string>, rules: PathRules)
    requires r.index == r.head
    ensures WasReset(r, patterns, rules).index == r.head
  {
    SameTree(WasReset(r, patterns, rules).index, r.head);
  }

  lemma AcceptKeeps(plan: seq<Writer>, rules: PathRules, r: Repo, i: nat)
    requires RootSound(rules) && Separate(plan) && RepoOk(plan, rules, r) && i < |plan|
    ensures RepoOk(plan, rules, Accepted(r, plan[i].key, plan[i].patterns, rules))
  {
    var key, next := plan[i].key, Accepted(r, plan[i].key, plan[i].patterns, rules);
    if key !in r.approved {
      forall p ensures HeadOk(plan, rules, next, p) {
        assert HeadOk(plan, rules, r, p);
        AcceptedHead(r, key, plan[i].patterns, rules, p);
        OneAccepted(plan, rules, r, i, p);
      }
    }
  }

  lemma OneAccepted(plan: seq<Writer>, rules: PathRules, r: Repo, i: nat, p: string)
    requires RootSound(rules) && Separate(plan) && i < |plan| && HeadOk(plan, rules, r, p) && plan[i].key !in r.approved
    requires var next := Accepted(r, plan[i].key, plan[i].patterns, rules);
      Lookup(next.head, p) == if Owned(p, plan[i].patterns, rules) then Lookup(r.worktree, p) else Lookup(r.head, p)
    ensures HeadOk(plan, rules, Accepted(r, plan[i].key, plan[i].patterns, rules), p)
  {
    var next := Accepted(r, plan[i].key, plan[i].patterns, rules);
    assert next.approved == r.approved[plan[i].key := next.head] && next.base == r.base;
    hide Accepted, Owned;
    forall j | OwnedBy(plan, rules, j, p) && plan[j].key in next.approved
      ensures Lookup(next.approved[plan[j].key], p) == Lookup(next.head, p)
    {
      if j != i {
        if OwnedBy(plan, rules, i, p) {
          OneOwner(plan, rules, i, j, p);
        }
        assert plan[j].key != plan[i].key;
      }
    }
    if forall j :: OwnedBy(plan, rules, j, p) ==> plan[j].key !in next.approved {
      assert !OwnedBy(plan, rules, i, p);
      assert forall j :: OwnedBy(plan, rules, j, p) ==> plan[j].key !in r.approved;
    }
  }

  lemma {:induction false} AlwaysOk(plan: seq<Writer>, rules: PathRules, base: Tree, ops: seq<Op>)
    requires RootSound(rules) && Separate(plan)
    ensures RepoOk(plan, rules, Run(plan, rules, base, ops)) && Run(plan, rules, base, ops).base == base
  {
    if ops != [] {
      AlwaysOk(plan, rules, base, ops[..|ops| - 1]);
      OpKeeps(plan, rules, Run(plan, rules, base, ops[..|ops| - 1]), ops[|ops| - 1]);
    }
  }

  lemma OpKeeps(plan: seq<Writer>, rules: PathRules, r: Repo, op: Op)
    requires RootSound(rules) && Separate(plan) && RepoOk(plan, rules, r)
    ensures RepoOk(plan, rules, Apply(plan, rules, r, op)) && Apply(plan, rules, r, op).base == r.base
  {
    if op.i < |plan| {
      match op
      case Write(i, path, content) => WriteKeeps(plan, rules, r, Written(r, path, content, plan[i].patterns, rules));
      case Reset(i) =>
        ResetKeepsIndex(r, plan[i].patterns, rules);
        WriteKeeps(plan, rules, r, WasReset(r, plan[i].patterns, rules));
      case Accept(i) => AcceptKeeps(plan, rules, r, i);
    }
  }

  /** What leaves HEAD and the approved refs alone keeps the invariant. */
  lemma WriteKeeps(plan: seq<Writer>, rules: PathRules, r: Repo, next: Repo)
    requires RepoOk(plan, rules, r)
    requires next.head == r.head && next.index == r.head && next.base == r.base && next.approved == r.approved
    ensures RepoOk(plan, rules, next)
  {
    hide OwnedBy;
    forall p ensures HeadOk(plan, rules, next, p) {
      assert HeadOk(plan, rules, r, p);
    }
  }

  // ---- what a reset restores ----------------------------------------------------------------------------

  /**
   * However many attempts wrote and crashed before: resetting a stage that is not accepted gives it the
   * base commit's content on every path it owns, and touches no path of any other stage.
   */
  lemma ResetRestoresBase(plan: seq<Writer>, rules: PathRules, base: Tree, ops: seq<Op>, i: nat, p: string)
    requires RootSound(rules) && Separate(plan) && i < |plan| && plan[i].key !in Run(plan, rules, base, ops).approved
    ensures var r := Run(plan, rules, base, ops); var next := WasReset(r, plan[i].patterns, rules);
      && (OwnedBy(plan, rules, i, p) ==> Lookup(next.worktree, p) == Lookup(base, p))
      && (!OwnedBy(plan, rules, i, p) ==> Lookup(next.worktree, p) == Lookup(r.worktree, p))
      && (forall j :: j != i && OwnedBy(plan, rules, j, p) ==> Lookup(next.worktree, p) == Lookup(r.worktree, p))
  {
    AlwaysOk(plan, rules, base, ops);
    var r := Run(plan, rules, base, ops);
    NamesHas(r, plan[i].patterns, rules, p);
    assert HeadOk(plan, rules, r, p);
    hide Run, Names, Owned;
    forall j | OwnedBy(plan, rules, i, p) && OwnedBy(plan, rules, j, p) ensures j == i {
      OneOwner(plan, rules, i, j, p);
    }
  }

  // ---- per-role branches compose ------------------------------------------------------------------------

  /** A branch equals the base outside its patterns and its source inside them. */
  lemma BranchIsOverlay(base: Tree, source: Tree, patterns: Option<seq<string>>, rules: PathRules, p: string)
    ensures Lookup(Branch(base, source, patterns, rules), p)
         == if Inside(p, patterns, rules) then Lookup(source, p) else Lookup(base, p)
  {
    hide Inside;
  }

  /** The single branch is HEAD's tree. */
  lemma SingleBranchIsHead(base: Tree, head: Tree, rules: PathRules)
    ensures Branch(base, head, None, rules) == head
  {
    forall p ensures Lookup(Branch(base, head, None, rules), p) == Lookup(head, p) {
      BranchIsOverlay(base, head, None, rules, p);
    }
    SameTree(Branch(base, head, None, rules), head);
  }

  /** Apply to `tree` what `branch` changes with respect to the base. */
  function Overlay(base: Tree, tree: Tree, branch: Tree): Tree {
    Mix(tree, branch, set p | p in base.Keys + branch.Keys && Lookup(base, p) != Lookup(branch, p))
  }

  /** The branch of stage `i` in per-role mode. */
  function RoleBranch(plan: seq<Writer>, rules: PathRules, r: Repo, i: nat): Tree
    requires i < |plan| && plan[i].key in r.approved
  {
    Branch(r.base, r.approved[plan[i].key], Some(plan[i].patterns), rules)
  }

  predicate AllAccepted(plan: seq<Writer>, r: Repo, order: seq<nat>) {
    forall k :: 0 <= k < |order| ==> order[k] < |plan| && plan[order[k]].key in r.approved
  }

  /** The branches of the stages in `order`, laid over the base one after the other. */
  function Composed(plan: seq<Writer>, rules: PathRules, r: Repo, order: seq<nat>): Tree
    requires AllAccepted(plan, r, order)
  {
    if order == [] then r.base
    else Overlay(r.base, Composed(plan, rules, r, order[..|order| - 1]),
                 RoleBranch(plan, rules, r, order[|order| - 1]))
  }

  lemma RoleBranchAt(plan: seq<Writer>, rules: PathRules, r: Repo, i: nat, p: string)
    requires RepoOk(plan, rules, r) && i < |plan| && plan[i].key in r.approved
    ensures Lookup(RoleBranch(plan, rules, r, i), p)
         == if OwnedBy(plan, rules, i, p) then Lookup(r.head, p) else Lookup(r.base, p)
  {
    BranchIsOverlay(r.base, r.approved[plan[i].key], Some(plan[i].patterns), rules, p);
    assert HeadOk(plan, rules, r, p);
    hide Branch, Owned;
  }

  lemma {:induction false} ComposedAt(plan: seq<Writer>, rules: PathRules, r: Repo, order: seq<nat>, p: string)
    requires RootSound(rules) && Separate(plan) && RepoOk(plan, rules, r) && AllAccepted(plan, r, order)
    ensures Lookup(Composed(plan, rules, r, order), p)
         == if exists k :: 0 <= k < |order| && OwnedBy(plan, rules, order[k], p) then Lookup(r.head, p)
            else Lookup(r.base, p)
  {
    hide OwnedBy, RepoOk, Separate, RoleBranch, RootSound;
    if order != [] {
      var front, last := order[..|order| - 1], order[|order| - 1];
      ComposedAt(plan, rules, r, front, p);
      RoleBranchAt(plan, rules, r, last, p);
      assert forall k :: 0 <= k < |front| ==> front[k] == order[k];
      if OwnedBy(plan, rules, last, p) {
        assert OwnedBy(plan, rules, order[|order| - 1], p);
      } else if k :| 0 <= k < |order| && OwnedBy(plan, rules, order[k], p) {
        assert OwnedBy(plan, rules, front[k], p);
      }
    }
  }

  /**
   * The per-role branches of the accepted stages, laid over the base in any order, give exactly the tree
   * of the single branch.
   */
  lemma RolesComposeToSingle(plan: seq<Writer>, rules: PathRules, base: Tree, ops: seq<Op>, order: seq<nat>)
    requires RootSound(rules) && Separate(plan) && AllAccepted(plan, Run(plan, rules, base, ops), order)
    requires forall i: nat :: i < |plan| && plan[i].key in Run(plan, rules, base, ops).approved ==> i in order
    ensures var r := Run(plan, rules, base, ops);
      Composed(plan, rules, r, order) == Branch(r.base, r.head, None, rules) == r.head
  {
    AlwaysOk(plan, rules, base, ops);
    var r := Run(plan, rules, base, ops);
    SingleBranchIsHead(r.base, r.head, rules);
    forall p ensures Lookup(Composed(plan, rules, r, order), p) == Lookup(r.head, p) {
      ComposedAt(plan, rules, r, order, p);
      assert HeadOk(plan, rules, r, p);
      UncoveredIsBase(plan, rules, r, order, p);
    }
    SameTree(Composed(plan, rules, r, order), r.head);
  }

  lemma UncoveredIsBase(plan: seq<Writer>, rules: PathRules, r: Repo, order: seq<nat>, p: string)
    requires HeadOk(plan, rules, r, p)
    requires forall i: nat :: i < |plan| && plan[i].key in r.approved ==> i in order
    ensures (exists k :: 0 <= k < |order| && OwnedBy(plan, rules, order[k], p)) || Lookup(r.head, p) == Lookup(r.base, p)
  {
    if i: int :| OwnedBy(plan, rules, i, p) && plan[i].key in r.approved {
      var k :| 0 <= k < |order| && order[k] == i;
    }
  }
}
