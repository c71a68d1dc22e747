/** Every step of the protocol keeps the invariant, so it holds in every reachable world. */
module ProtocolSteps {
  import opened Options
  import opened Domain
  import opened Ledger
  import opened Transactions
  import opened StageRules
  import opened StageViews
  import opened TaskRules
  import opened TaskSteps
  import opened TaskActions
  import opened Protocol

  // ---- reads, exits and crashes -------------------------------------------------------

  lemma ReadTaskKeeps(cfg: Config, w: World)
    requires Inv(cfg, w)
    ensures Inv(cfg, Apply(cfg, w, ReadTask))
  {
    hide TaskOk, SnapshotOk, ClaimOk;
  }

  lemma SnapshotNow(cfg: Config, w: World)
    requires Inv(cfg, w)
    ensures SnapshotOk(w.db.stages, w.db)
  {
    forall i | 0 <= i < |w.db.stages| && PastPlan(w.db.stages[i]) ensures w.db.stages[i].plan.Some? {
      StageAt(cfg, w.db, w.ros, i);
    }
  }

  lemma ReadStagesKeeps(cfg: Config, w: World, p: nat)
    requires Inv(cfg, w)
    ensures Inv(cfg, Apply(cfg, w, ReadStages(p)))
  {
    hide TaskOk, SnapshotOk, ClaimOk;
    SnapshotNow(cfg, w);
  }

  lemma CrashKeeps(cfg: Config, w: World)
    requires Inv(cfg, w)
    ensures Inv(cfg, Apply(cfg, w, Crash))
  {
    hide TaskOk, SnapshotOk, ClaimOk;
  }

  lemma ExitKeeps(cfg: Config, w: World, c: nat)
    requires Inv(cfg, w)
    ensures Inv(cfg, Apply(cfg, w, Exit(c)))
  {
    hide TaskOk, PassOk, ClaimOk, AttemptsOk;
    var v := Apply(cfg, w, Exit(c));
    forall i | i in v.running ensures RunnerOk(v, i) {
      assert RunnerOk(w, i);
    }
  }

  // ---- steps that leave the runners' rows alone --------------------------------------------

  /** A transaction that disturbs no runner keeps the invariant. */
  lemma QuietStep(cfg: Config, w: World, f: DB, ros: seq<Reopened>, lagging: bool)
    requires Inv(cfg, w) && Grows(w.db, f) && RunnersUndisturbed(w, f) && TaskOk(cfg, f, ros, lagging)
    ensures Inv(cfg, w.(db := f, ros := ros, lagging := lagging))
  {
    hide TaskOk, PassOk, ClaimOk, RunnerOk, Grows;
    ProcessesPersist(w, f);
    ProcessesIgnoreHistory(w.(db := f), ros, lagging);
  }

  lemma ProcessesIgnoreHistory(w: World, ros: seq<Reopened>, lagging: bool)
    requires ProcessesOk(w)
    ensures ProcessesOk(w.(ros := ros, lagging := lagging))
  {
    hide PassOk, ClaimOk;
    forall i | i in w.running ensures RunnerOk(w.(ros := ros, lagging := lagging), i) {
      assert RunnerOk(w, i);
    }
  }

  lemma BeginRunKeeps(cfg: Config, w: World, p: nat)
    requires ValidConfig(cfg) && Inv(cfg, w)
    ensures Inv(cfg, Apply(cfg, w, BeginRun(p))) && Grows(w.db, Apply(cfg, w, BeginRun(p)).db)
  {
    hide TaskOk, ClaimOk, Evolves, SnapshotOk, AttemptsOk, SettledOk, StaleOk, StartTx, Grows;
    GrowsIsReflexive(w.db);
    if p < |w.passes| && w.passes[p].seen.Some? && !w.passes[p].ended && !w.passes[p].begun {
      StartKeeps(cfg, w.db, w.ros, w.lagging);
      StartIsQuiet(w);
      QuietStep(cfg, w, StartTx(w.db), w.ros, w.lagging);
      PassBegins(w.(db := StartTx(w.db)), p);
    }
  }

  lemma StartIsQuiet(w: World)
    ensures RunnersUndisturbed(w, StartTx(w.db)) && StartTx(w.db).task.status != Queued
  {
  }

  lemma PassBegins(w: World, p: nat)
    requires ProcessesOk(w) && p < |w.passes| && w.db.task.status != Queued
    ensures ProcessesOk(w.(passes := w.passes[p := w.passes[p].(begun := true)]))
  {
    hide ClaimOk, SnapshotOk, AttemptsOk;
    var u := w.(passes := w.passes[p := w.passes[p].(begun := true)]);
    forall i | i in u.running ensures RunnerOk(u, i) {
      assert RunnerOk(w, i);
    }
  }

  lemma ReportIsQuiet(w: World, c: Claim, body: Body)
    requires ProgressTx(w.db, c, body).Ok?
    ensures RunnersUndisturbed(w, ProgressTx(w.db, c, body).value)
  {
  }

  lemma ClaimsMeanStarted(cfg: Config, w: World)
    requires Inv(cfg, w) && w.claims != []
    ensures w.db.task.status != Queued
  {
    hide TaskOk, PassOk, ClaimOk, RunnerOk, AttemptsOk, SettledOk, StaleOk;
  }

  lemma ReportKeeps(cfg: Config, w: World, c: nat, body: Body)
    requires Inv(cfg, w)
    ensures Inv(cfg, Apply(cfg, w, Report(c, body))) && Grows(w.db, Apply(cfg, w, Report(c, body)).db)
  {
    hide TaskOk, ProcessesOk, Grows, RunnersUndisturbed;
    GrowsIsReflexive(w.db);
    if c < |w.claims| && Reportable(body) && ProgressTx(w.db, w.claims[c], body).Ok? {
      ReportIsQuiet(w, w.claims[c], body);
      hide ProgressTx;
      ClaimsMeanStarted(cfg, w);
      ProgressKeeps(cfg, w.db, w.ros, w.lagging, w.claims[c], body);
      QuietStep(cfg, w, ProgressTx(w.db, w.claims[c], body).value, w.ros, w.lagging);
    }
  }

  lemma FailKeepsWorld(cfg: Config, w: World, who: Option<Claim>)
    requires Inv(cfg, w) && FailTx(w.db, who).Ok?
    ensures Inv(cfg, w.(db := FailTx(w.db, who).value)) && Grows(w.db, FailTx(w.db, who).value)
  {
    hide TaskOk, ClaimOk, Evolves, PassOk, RunnerOk;
    FailKeeps(cfg, w.db, w.ros, w.lagging, who);
    QuietStep(cfg, w, FailTx(w.db, who).value, w.ros, w.lagging);
  }

  /** Only the stage of the decided approval changes, and it was in review. */
  lemma DecisionIsQuiet(cfg: Config, w: World, n: nat, version: nat, d: Domain.Decision,
                        feedback: Option<string>, edited: Option<string>)
    requires DecideTx(cfg, w.db, n, version, d, feedback, edited).Ok?
    ensures RunnersUndisturbed(w, DecideTx(cfg, w.db, n, version, d, feedback, edited).value)
  {
    DecideIsDecided(cfg, w.db, n, version, d, feedback, edited);
    hide DecideTx, Derive, Overwrite, Rejected;
  }

  lemma DecisionKeeps(cfg: Config, w: World, n: nat, version: nat, d: Domain.Decision,
                      feedback: Option<string>, edited: Option<string>)
    requires ValidConfig(cfg) && Inv(cfg, w)
    ensures var v := Apply(cfg, w, Decision(n, version, d, feedback, edited)); Inv(cfg, v) && Grows(w.db, v.db)
  {
    hide TaskOk, ClaimOk, Evolves, PassOk, RunnerOk, DecideTx, RunnersUndisturbed;
    GrowsIsReflexive(w.db);
    if DecideTx(cfg, w.db, n, version, d, feedback, edited).Ok? {
      DecideKeeps(cfg, w.db, w.ros, w.lagging, n, version, d, feedback, edited);
      DecisionIsQuiet(cfg, w, n, version, d, feedback, edited);
      QuietStep(cfg, w, DecideTx(cfg, w.db, n, version, d, feedback, edited).value, w.ros, false);
    }
  }

  lemma ControlIsQuiet(w: World, action: Action)
    requires action != Start && ControlTx(w.db, action).Ok?
    ensures RunnersUndisturbed(w, ControlTx(w.db, action).value)
  {
    hide Sum, TaskTransition;
  }

  lemma ActKeeps(cfg: Config, w: World, action: Action)
    requires ValidConfig(cfg) && Inv(cfg, w)
    ensures Inv(cfg, Apply(cfg, w, Act(action))) && Grows(w.db, Apply(cfg, w, Act(action)).db)
  {
    hide TaskOk, ProcessesOk, Grows, RunnersUndisturbed, Sum;
    GrowsIsReflexive(w.db);
    if action != Start && ControlTx(w.db, action).Ok? && |w.ros| == |w.db.stages| {
      ControlIsQuiet(w, action);
      hide ControlTx, RosAfter, LagAfter;
      ControlKeeps(cfg, w.db, w.ros, w.lagging, action);
      QuietStep(cfg, w, ControlTx(w.db, action).value, RosAfter(w.db, action, w.ros), LagAfter(w.db, action, w.lagging));
    }
  }

  lemma ChangeBudgetKeeps(cfg: Config, w: World, budget: int)
    requires Inv(cfg, w)
    ensures Inv(cfg, Apply(cfg, w, ChangeBudget(budget))) && Grows(w.db, Apply(cfg, w, ChangeBudget(budget)).db)
  {
    hide TaskOk, ClaimOk, Evolves, PassOk, RunnerOk;
    GrowsIsReflexive(w.db);
    if SetBudgetTx(w.db, budget).Ok? {
      SetBudgetKeeps(cfg, w.db, w.ros, w.lagging, budget);
      QuietStep(cfg, w, SetBudgetTx(w.db, budget).value, w.ros, w.lagging);
    }
  }

  lemma CheckBudgetKeeps(cfg: Config, w: World)
    requires Inv(cfg, w)
    ensures Inv(cfg, Apply(cfg, w, CheckBudget)) && Grows(w.db, Apply(cfg, w, CheckBudget).db)
  {
    hide TaskOk, ClaimOk, Evolves, PassOk, RunnerOk, Sum;
    BudgetKeeps(cfg, w.db, w.ros, w.lagging);
    QuietStep(cfg, w, BudgetTx(w.db).0, w.ros, w.lagging);
  }

  // ---- results of runners ----------------------------------------------------------------------

  /** Two claims of a stage with the same attempt are the same claim. */
  lemma AttemptIdentifies(claims: seq<Claim>, a: nat, b: nat)
    requires AttemptsOk(claims) && a < |claims| && b < |claims|
    requires claims[a].stage == claims[b].stage && claims[a].row.attempt == claims[b].row.attempt
    ensures a == b
  {
  }

  /** Only stage `i` changes, to a later version of the same attempt. */
  ghost predicate Settles(db: DB, f: DB, i: nat) {
    && i < |db.stages| && |f.stages| == |db.stages|
    && (forall j :: 0 <= j < |db.stages| && j != i ==> f.stages[j] == db.stages[j])
    && f.stages[i].attempt == db.stages[i].attempt && f.stages[i].version > db.stages[i].version
  }

  lemma SettleIsFirst(w: World, c: nat)
    requires ProcessesOk(w) && c < |w.claims| && w.claims[c].stage < |w.db.stages|
    requires w.claims[c].row == w.db.stages[w.claims[c].stage]
    ensures c in w.current && c !in w.settled
  {
    hide PassOk, ClaimOk, RunnerOk;
  }

  /** Without the runner of stage `i`. */
  function Without(w: World, i: nat): World {
    w.(running := w.running - {i})
  }

  lemma WithoutKeeps(w: World, i: nat)
    requires ProcessesOk(w)
    ensures ProcessesOk(Without(w, i))
  {
    hide PassOk, ClaimOk, AttemptsOk;
    forall j | j in Without(w, i).running ensures RunnerOk(Without(w, i), j) {
      assert RunnerOk(w, j);
    }
  }

  lemma SettleRunners(w: World, f: DB, c: nat)
    requires ProcessesOk(w) && c < |w.claims| && Settles(w.db, f, w.claims[c].stage)
    requires w.claims[c].row == w.db.stages[w.claims[c].stage]
    ensures forall j :: j in w.running ==> RunnerOk(w.(db := f, settled := w.settled + [c]), j)
    ensures RunnersUndisturbed(Without(w, w.claims[c].stage), f)
  {
    hide PassOk, ClaimOk, AttemptsOk, SettledOk, StaleOk;
    forall j | j in w.running ensures RunnerOk(w.(db := f, settled := w.settled + [c]), j) {
      assert RunnerOk(w, j);
      if j == w.claims[c].stage {
        AttemptIdentifies(w.claims, w.running[j], c);
      }
    }
  }

  lemma SettleStep(w: World, f: DB, c: nat)
    requires ProcessesOk(w) && DistinctKeys(w.db.stages) && Grows(w.db, f)
    requires c < |w.claims| && Settles(w.db, f, w.claims[c].stage)
    requires w.claims[c].row == w.db.stages[w.claims[c].stage]
    ensures ProcessesOk(w.(db := f, settled := w.settled + [c])) && DistinctKeys(f.stages)
  {
    hide PassOk, ClaimOk, Grows, AttemptsOk, RunnerOk, RunnersUndisturbed;
    var i := w.claims[c].stage;
    SettleIsFirst(w, c);
    WithoutKeeps(w, i);
    SettleRunners(w, f, c);
    var u := Without(w, i);
    ProcessesPersist(u, f);
    SettleVersions(u.(db := f), c);
  }

  lemma SettleVersions(w: World, c: nat)
    requires SettledOk(w) && StaleOk(w) && c < |w.claims| && c in w.current && c !in w.settled
    requires w.claims[c].stage < |w.db.stages| && w.claims[c].row.version < w.db.stages[w.claims[c].stage].version
    ensures SettledOk(w.(settled := w.settled + [c])) && StaleOk(w.(settled := w.settled + [c]))
  {
  }

  lemma CommitSettles(cfg: Config, w: World, c: nat, r: RunResult)
    requires c < |w.claims| && CommitTx(cfg, w.db, w.claims[c], r).Ok?
    requires w.claims[c].stage < |w.db.stages| && Fenced(w.claims[c], w.db.stages[w.claims[c].stage])
    ensures w.claims[c].row == w.db.stages[w.claims[c].stage]
    ensures Settles(w.db, CommitTx(cfg, w.db, w.claims[c], r).value, w.claims[c].stage)
  {
    CommitMatches(cfg, w.db, w.claims[c], r);
    CommitIsCommitted(cfg, w.db, w.claims[c], r);
  }

  lemma CommitStepKeeps(cfg: Config, w: World, c: nat, r: RunResult)
    requires ValidConfig(cfg) && Inv(cfg, w)
    ensures Inv(cfg, Apply(cfg, w, Commit(c, r))) && Grows(w.db, Apply(cfg, w, Commit(c, r)).db)
  {
    hide TaskOk, Evolves, PassOk, RunnerOk, CommitTx, Grows, SettledOk, StaleOk;
    GrowsIsReflexive(w.db);
    if c < |w.claims| && CommitTx(cfg, w.db, w.claims[c], r).Ok? {
      assert ClaimOk(w.claims[c], w.db);
      CommitKeeps(cfg, w.db, w.ros, w.lagging, w.claims[c], r);
      CommitSettles(cfg, w, c, r);
      var f := CommitTx(cfg, w.db, w.claims[c], r).value;
      SettleStep(w, f, c);
      ProcessesIgnoreHistory(w.(db := f, settled := w.settled + [c]), w.ros, false);
    }
  }

  lemma ParkSettles(w: World, c: nat)
    requires c < |w.claims| && !Terminal(w.db.task.status) && BlockTx(w.db, w.claims[c]).Ok?
    requires w.claims[c].stage < |w.db.stages| && Fenced(w.claims[c], w.db.stages[w.claims[c].stage])
    ensures w.claims[c].row == w.db.stages[w.claims[c].stage]
    ensures Settles(w.db, BlockTx(w.db, w.claims[c]).value, w.claims[c].stage)
  {
    BlockIsBlocked(w.db, w.claims[c]);
  }

  lemma ParkKeeps(cfg: Config, w: World, c: nat)
    requires ValidConfig(cfg) && Inv(cfg, w)
    ensures Inv(cfg, Apply(cfg, w, Park(c))) && Grows(w.db, Apply(cfg, w, Park(c)).db)
  {
    hide TaskOk, Evolves, PassOk, RunnerOk, BlockTx, Grows, SettledOk, StaleOk;
    GrowsIsReflexive(w.db);
    if c < |w.claims| && w.claims[c].mode == ExecuteMode && !Terminal(w.db.task.status) && BlockTx(w.db, w.claims[c]).Ok? {
      assert ClaimOk(w.claims[c], w.db);
      BlockKeeps(cfg, w.db, w.ros, w.lagging, w.claims[c]);
      ParkSettles(w, c);
      var f := BlockTx(w.db, w.claims[c]).value;
      SettleStep(w, f, c);
      ProcessesIgnoreHistory(w.(db := f, settled := w.settled + [c]), w.ros, false);
    }
  }
}
