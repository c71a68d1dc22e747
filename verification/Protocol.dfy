/**
 * The task protocol as a transition system. Reconcile reads a snapshot outside any transaction and
 * claims stages from it later; a runner works on its claimed copy and commits much later still.
 * A run is any sequence of steps, so every interleaving, crash and late runner is one of them.
 */
module Protocol {
  import opened Options
  import opened Domain
  import opened Ledger
  import opened Transactions
  import opened StageRules
  import opened TaskRules
  import opened TaskSteps
  import opened TaskActions

  /** One execution of Reconcile: the status and the stages it read, and its place in the stage loop. */
  datatype Pass = Pass(status: TaskStatus, seen: Option<seq<Stage>>, begun: bool, next: nat, ended: bool)

  /**
   * The database and the processes around it. `claims` holds every claim ever made, alive or not;
   * `running` is the orchestrator's map from stages to live runners. `settled` lists the claims whose
   * commit or block succeeded and `current` those made from an up-to-date copy; these two, `ros` and
   * `lagging` only record history.
   */
  datatype World = World(
    db: DB, passes: seq<Pass>, claims: seq<Claim>, running: map<nat, nat>,
    settled: seq<nat>, current: set<nat>, ros: seq<Reopened>, lagging: bool)

  datatype Step =
    | ReadTask
    | ReadStages(p: nat)
    | BeginRun(p: nat)
    | Advance(p: nat)
    | Report(c: nat, body: Body)
    | Commit(c: nat, result: RunResult)
    | Park(c: nat)
    | FailAttempt(c: nat)
    | Exit(c: nat)
    | FailTask
    | Decision(n: nat, version: nat, decision: Domain.Decision, feedback: Option<string>, edited: Option<string>)
    | Act(action: Action)
    | ChangeBudget(budget: int)
    | CheckBudget
    | Crash

  function Initial(cfg: Config, budget: nat): World {
    World(NewTask(cfg, budget), [], [], map[], [], {}, seq(|cfg.specs|, _ => Reopened(0, 0)), false)
  }

  /** The pass is past its reads and may work on stages. */
  predicate Working(w: World, p: nat) {
    p < |w.passes| && !w.passes[p].ended && w.passes[p].seen.Some? && w.passes[p].begun
  }

  /** The loop body of Reconcile for the next stage, or the final derive. */
  function AdvancePass(w: World, p: nat): World
    requires Working(w, p)
  {
    var pass := w.passes[p];
    var seen := pass.seen.value;
    var i := pass.next;
    if i >= |seen| then
      w.(db := DeriveTx(w.db), passes := w.passes[p := pass.(ended := true)],
         lagging := if Terminal(w.db.task.status) then w.lagging else false)
    else
      var skip := w.(passes := w.passes[p := pass.(next := i + 1)]);
      var mode := ModeFor(seen[i], seen);
      if i in w.running || mode.None? then skip
      else
        var tx := ClaimTx(w.db, i, seen[i], mode.value);
        if tx.Ok? then
          var id := |w.claims|;
          skip.(db := tx.value, claims := w.claims + [MakeClaim(i, seen[i], mode.value, seen)],
                running := w.running[i := id],
                current := if i < |w.db.stages| && seen[i] == w.db.stages[i] then w.current + {id} else w.current)
        else if tx.error == Stale then skip
        else w.(passes := w.passes[p := pass.(ended := true)])
  }

  /** What a runner may report: never a step of the protocol itself. */
  predicate Reportable(body: Body) {
    body.AgentActivity? || body.PullRequestOpened? || body.Usage?
  }

  /** Takes a step; a step that is not enabled, or whose transaction rolls back, changes nothing. */
  function Apply(cfg: Config, w: World, step: Step): World {
    match step
    case ReadTask =>
      var status := w.db.task.status;
      w.(passes := w.passes + [Pass(status, None, status != Queued, 0, Halted(status))])
    case ReadStages(p) =>
      if p < |w.passes| && w.passes[p].seen.None? && !w.passes[p].ended
      then w.(passes := w.passes[p := w.passes[p].(seen := Some(w.db.stages))]) else w
    case BeginRun(p) =>
      if p < |w.passes| && w.passes[p].seen.Some? && !w.passes[p].ended && !w.passes[p].begun
      then w.(db := StartTx(w.db), passes := w.passes[p := w.passes[p].(begun := true)]) else w
    case Advance(p) => if Working(w, p) then AdvancePass(w, p) else w
    case Report(c, body) =>
      if c < |w.claims| && Reportable(body) && ProgressTx(w.db, w.claims[c], body).Ok?
      then w.(db := ProgressTx(w.db, w.claims[c], body).value) else w
    case Commit(c, result) =>
      if c < |w.claims| && CommitTx(cfg, w.db, w.claims[c], result).Ok?
      then w.(db := CommitTx(cfg, w.db, w.claims[c], result).value, settled := w.settled + [c], lagging := false) else w
    case Park(c) =>
      if c < |w.claims| && w.claims[c].mode == ExecuteMode && !Terminal(w.db.task.status) && BlockTx(w.db, w.claims[c]).Ok?
      then w.(db := BlockTx(w.db, w.claims[c]).value, settled := w.settled + [c], lagging := false) else w
    case FailAttempt(c) =>
      if c < |w.claims| && FailTx(w.db, Some(w.claims[c])).Ok?
      then w.(db := FailTx(w.db, Some(w.claims[c])).value) else w
    case Exit(c) =>
      if c < |w.claims| && w.claims[c].stage in w.running && w.running[w.claims[c].stage] == c
      then w.(running := w.running - {w.claims[c].stage}) else w
    case FailTask => if FailTx(w.db, None).Ok? then w.(db := FailTx(w.db, None).value) else w
    case Decision(n, version, d, feedback, edited) =>
      if DecideTx(cfg, w.db, n, version, d, feedback, edited).Ok?
      then w.(db := DecideTx(cfg, w.db, n, version, d, feedback, edited).value, lagging := false) else w
    case Act(action) =>
      if action != Start && ControlTx(w.db, action).Ok? && |w.ros| == |w.db.stages|
      then w.(db := ControlTx(w.db, action).value, ros := RosAfter(w.db, action, w.ros),
              lagging := LagAfter(w.db, action, w.lagging)) else w
    case ChangeBudget(budget) => if SetBudgetTx(w.db, budget).Ok? then w.(db := SetBudgetTx(w.db, budget).value) else w
    case CheckBudget => w.(db := BudgetTx(w.db).0)
    case Crash => w.(running := map[],
                     passes := seq(|w.passes|, p requires 0 <= p < |w.passes| => w.passes[p].(ended := true)))
  }

  function Run(cfg: Config, w: World, steps: seq<Step>): World {
    if steps == [] then w else Apply(cfg, Run(cfg, w, steps[..|steps| - 1]), steps[|steps| - 1])
  }

  // ---- what every reachable world satisfies --------------------------------------------

  predicate DistinctKeys(ss: seq<Stage>) {
    forall i, j :: 0 <= i < j < |ss| ==> ss[i].key != ss[j].key
  }

  /** A snapshot is an earlier content of the stage rows, and was consistent when it was read. */
  ghost predicate SnapshotOk(seen: seq<Stage>, db: DB) {
    && Advances(seen, db.stages)
    && (forall i :: 0 <= i < |seen| && seen[i].status != Pending ==> Ready(seen[i], seen))
    && (forall i :: 0 <= i < |seen| && PastPlan(seen[i]) ==> seen[i].plan.Some?)
  }

  ghost predicate PassOk(pass: Pass, db: DB) {
    && (pass.seen.Some? ==> SnapshotOk(pass.seen.value, db))
    && (pass.begun ==> db.task.status != Queued)
  }

  /**
   * A claim is fenced; if it executes, it executes the plan the row will always have; and the results
   * it was given are the final results of its dependencies.
   */
  ghost predicate ClaimOk(c: Claim, db: DB) {
    && c.stage < |db.stages| && ClaimFits(c, db.stages[c.stage])
    && (c.mode == ExecuteMode ==> PastPlan(db.stages[c.stage]) && db.stages[c.stage].plan == Some(c.plan))
    && Ready(db.stages[c.stage], db.stages) && c.inputs == InputsOf(db.stages[c.stage], db.stages)
  }

  /** Each claim of a stage has a later attempt number than those before it. */
  ghost predicate AttemptsOk(claims: seq<Claim>) {
    forall a, b :: 0 <= a < b < |claims| && claims[a].stage == claims[b].stage ==>
      claims[a].row.attempt < claims[b].row.attempt
  }

  /** The live runner of a stage holds the newest attempt, and an unfinished current one the row itself. */
  ghost predicate RunnerOk(w: World, i: nat)
    requires i in w.running
  {
    var c := w.running[i];
    && c < |w.claims| && w.claims[c].stage == i && i < |w.db.stages|
    && w.claims[c].row.attempt == w.db.stages[i].attempt
    && (c in w.current && c !in w.settled ==> w.claims[c].row == w.db.stages[i])
  }

  /** A settled claim has used up its version, so it never settles again. */
  ghost predicate SettledOk(w: World) {
    && (forall k :: 0 <= k < |w.settled| ==> w.settled[k] < |w.claims| && w.settled[k] in w.current)
    && (forall k, l :: 0 <= k < l < |w.settled| ==> w.settled[k] != w.settled[l])
    && (forall c :: c in w.settled && c < |w.claims| && w.claims[c].stage < |w.db.stages| ==>
         w.claims[c].row.version < w.db.stages[w.claims[c].stage].version)
  }

  /** A claim made from an outdated copy can never settle. */
  ghost predicate StaleOk(w: World) {
    forall c :: 0 <= c < |w.claims| && c !in w.current && w.claims[c].stage < |w.db.stages| ==>
      w.claims[c].row.version < w.db.stages[w.claims[c].stage].version
  }

  ghost predicate ProcessesOk(w: World) {
    && (forall p :: 0 <= p < |w.passes| ==> PassOk(w.passes[p], w.db))
    && (forall c :: 0 <= c < |w.claims| ==> ClaimOk(w.claims[c], w.db))
    && (w.db.task.status == Queued ==> w.claims == [])
    && AttemptsOk(w.claims)
    && (forall i :: i in w.running ==> RunnerOk(w, i))
    && SettledOk(w) && StaleOk(w)
    && (forall c :: c in w.current ==> c < |w.claims|)
  }

  ghost predicate Inv(cfg: Config, w: World) {
    && TaskOk(cfg, w.db, w.ros, w.lagging) && DistinctKeys(w.db.stages) && ProcessesOk(w)
  }

  // ---- rows that only grow keep processes in order -------------------------------------------

  /** The inputs of a stage with approved dependencies never change again. */
  lemma {:induction false} InputsPersist(s: Stage, ss: seq<Stage>, ts: seq<Stage>, n: nat)
    requires Advances(ss, ts) && DistinctKeys(ss) && Ready(s, ss) && n <= |ss|
    ensures InputsOf(s, ss[..n]) == InputsOf(s, ts[..n])
  {
    if n > 0 {
      InputsPersist(s, ss, ts, n - 1);
      assert ss[..n][..n - 1] == ss[..n - 1] && ts[..n][..n - 1] == ts[..n - 1];
      assert Evolves(ss[n - 1], ts[n - 1]);
      if ss[n - 1].key in s.dependsOn {
        var d :| 0 <= d < |s.dependsOn| && s.dependsOn[d] == ss[n - 1].key;
        assert KeyApproved(s.dependsOn[d], ss);
        var p :| 0 <= p < |ss| && ss[p].key == s.dependsOn[d] && ss[p].status == Approved;
        assert p == n - 1;
      }
    }
  }

  lemma InputsStay(s: Stage, t: Stage, ss: seq<Stage>, ts: seq<Stage>)
    requires Advances(ss, ts) && DistinctKeys(ss) && Ready(s, ss) && s.dependsOn == t.dependsOn
    ensures Ready(t, ts) && InputsOf(s, ss) == InputsOf(t, ts)
  {
    InputsPersist(s, ss, ts, |ss|);
    assert ss[..|ss|] == ss && ts[..|ts|] == ts;
    ReadyPersists(s, ss, ts);
    SameInputs(s, t, ts);
  }

  lemma {:induction false} SameInputs(s: Stage, t: Stage, ss: seq<Stage>)
    requires s.dependsOn == t.dependsOn
    ensures InputsOf(s, ss) == InputsOf(t, ss)
  {
    if ss != [] {
      SameInputs(s, t, ss[..|ss| - 1]);
    }
  }

  lemma SnapshotPersists(seen: seq<Stage>, db: DB, f: DB)
    requires SnapshotOk(seen, db) && Grows(db, f)
    ensures SnapshotOk(seen, f)
  {
    hide Ready, PastPlan;
    forall i | 0 <= i < |seen| ensures Evolves(seen[i], f.stages[i]) {
      assert Evolves(seen[i], db.stages[i]) && Evolves(db.stages[i], f.stages[i]);
      EvolvesIsTransitive(seen[i], db.stages[i], f.stages[i]);
    }
  }

  lemma EvolvesIsTransitive(r: Stage, s: Stage, t: Stage)
    requires Evolves(r, s) && Evolves(s, t)
    ensures Evolves(r, t)
  {
  }

  lemma FencePersists(c: Claim, r: Stage, t: Stage)
    requires ClaimFits(c, r) && Evolves(r, t)
    ensures ClaimFits(c, t)
  {
  }

  lemma ClaimPersists(c: Claim, db: DB, f: DB)
    requires ClaimOk(c, db) && Grows(db, f) && DistinctKeys(db.stages)
    ensures ClaimOk(c, f)
  {
    hide Ready, InputsOf, PastPlan;
    var i := c.stage;
    assert Evolves(db.stages[i], f.stages[i]);
    FencePersists(c, db.stages[i], f.stages[i]);
    InputsStay(db.stages[i], f.stages[i], db.stages, f.stages);
    assert PastPlan(db.stages[i]) ==> PastPlan(f.stages[i]);
  }

  predicate Busy(s: Stage) {
    s.status == Planning || s.status == Executing
  }

  /** Runners see no change of their rows: the step touched only rows that are in review or blocked. */
  ghost predicate RunnersUndisturbed(w: World, f: DB) {
    && (forall i :: i in w.running && i < |w.db.stages| && i < |f.stages| ==>
         f.stages[i].attempt == w.db.stages[i].attempt)
    && (forall i :: i in w.running && i < |w.db.stages| && i < |f.stages| && Busy(w.db.stages[i]) ==>
         f.stages[i] == w.db.stages[i])
  }

  lemma ProcessesPersist(w: World, f: DB)
    requires ProcessesOk(w) && DistinctKeys(w.db.stages) && Grows(w.db, f) && RunnersUndisturbed(w, f)
    ensures ProcessesOk(w.(db := f)) && DistinctKeys(f.stages)
  {
    hide SnapshotOk, ClaimFits, Ready, InputsOf, PastPlan, Evolves;
    var v := w.(db := f);
    forall p | 0 <= p < |v.passes| ensures PassOk(v.passes[p], f) {
      assert PassOk(w.passes[p], w.db);
      if v.passes[p].seen.Some? {
        SnapshotPersists(v.passes[p].seen.value, w.db, f);
      }
    }
    forall c | 0 <= c < |v.claims| ensures ClaimOk(v.claims[c], f) {
      assert ClaimOk(w.claims[c], w.db);
      ClaimPersists(w.claims[c], w.db, f);
    }
    RunnersPersist(w, f);
    VersionsPersist(w, f);
    KeysPersist(w.db.stages, f.stages);
  }

  lemma KeysPersist(ss: seq<Stage>, ts: seq<Stage>)
    requires DistinctKeys(ss) && Advances(ss, ts)
    ensures DistinctKeys(ts)
  {
    assert forall i :: 0 <= i < |ss| ==> Evolves(ss[i], ts[i]);
    assert forall i :: 0 <= i < |ss| ==> ss[i].key == ts[i].key;
  }

  lemma RunnersPersist(w: World, f: DB)
    requires ProcessesOk(w) && Grows(w.db, f) && RunnersUndisturbed(w, f)
    ensures forall i :: i in w.running ==> RunnerOk(w.(db := f), i)
  {
    hide SnapshotOk, Ready, InputsOf, PastPlan, Evolves;
    forall i | i in w.running ensures RunnerOk(w.(db := f), i) {
      assert RunnerOk(w, i);
      assert ClaimOk(w.claims[w.running[i]], w.db);
    }
  }

  lemma VersionsPersist(w: World, f: DB)
    requires SettledOk(w) && StaleOk(w) && Grows(w.db, f)
    ensures SettledOk(w.(db := f)) && StaleOk(w.(db := f))
  {
    assert forall i :: 0 <= i < |w.db.stages| ==> Evolves(w.db.stages[i], f.stages[i]);
    assert forall i :: 0 <= i < |w.db.stages| ==> w.db.stages[i].version <= f.stages[i].version;
  }
}
