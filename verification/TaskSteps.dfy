/** Every transaction keeps `TaskOk` and lets the rows only grow. */
module TaskSteps {
  import opened Options
  import opened Domain
  import opened Ledger
  import opened Transactions
  import opened StageRules
  import opened StageViews
  import opened TaskRules

  /** A claim is fenced: as long as its version is the row's, its copy is the row. */
  predicate Fenced(c: Claim, row: Stage) {
    && c.row.version <= row.version && c.row.attempt <= row.attempt
    && (c.row.version == row.version ==> c.row == row)
  }

  /** What Reconcile hands to a runner, as long as the claim is the current one. */
  predicate ClaimFits(c: Claim, row: Stage) {
    && Fenced(c, row) && c.row.status == ClaimedStatus(c.mode)
    && (c.mode == ExecuteMode && c.row == row ==> c.plan == Text(row.plan))
  }

  lemma StartKeeps(cfg: Config, db: DB, ros: seq<Reopened>, lagging: bool)
    requires ValidConfig(cfg) && TaskOk(cfg, db, ros, lagging)
    ensures TaskOk(cfg, StartTx(db), ros, lagging) && Grows(db, StartTx(db))
  {
    GrowsIsReflexive(db);
    hide StageOk, Evolves, Advances, ApprovalsGrow, ViewOf;
    if db.task.status == Queued {
      var s := SetStatus(db, Running);
      StatusEventKeepsViews(db, Running, None, RunStarted);
      SameViewsKeep(cfg, db, StartTx(db), ros);
      EmitKeepsJournal(s, None, RunStarted);
      EmitCounts(s, None, RunStarted, RunBegin);
      EmitCounts(s, None, RunStarted, RunEnd);
      assert RecordsOk(s);
      EmitKeepsRecords(s, None, RunStarted);
      NeverStuck(cfg, db.stages);
      assert db.stages[0].status == Pending;
      assert !SomeReview(db.stages) && !AllApproved(db.stages) && !SomeBlocked(db.stages);
    }
  }

  lemma DeriveKeeps(cfg: Config, db: DB, ros: seq<Reopened>, lagging: bool)
    requires TaskOk(cfg, db, ros, lagging)
    ensures TaskOk(cfg, DeriveTx(db), ros, false) && Grows(db, DeriveTx(db))
  {
    DeriveKeepsViews(db);
    SameViewsKeep(cfg, db, DeriveTx(db), ros);
    DeriveKeepsLedger(db);
    GrowsIsReflexive(db);
  }

  lemma ClaimAdvances(cfg: Config, db: DB, ros: seq<Reopened>, i: nat, s: Stage, mode: Mode)
    requires StagesOk(cfg, db, ros) && ClaimTx(db, i, s, mode).Ok?
    requires mode == ExecuteMode <==> s.status == Executing
    requires s.status == Pending || s.status == Planning || s.status == Executing
    ensures Grows(db, ClaimTx(db, i, s, mode).value)
  {
    var f := ClaimTx(db, i, s, mode).value;
    assert StageOk(RulesOf(cfg, i), ViewOf(db, i), ros[i]);
    assert Evolves(db.stages[i], f.stages[i]);
  }

  lemma ClaimKeeps(cfg: Config, db: DB, ros: seq<Reopened>, lagging: bool, i: nat, s: Stage, mode: Mode, seen: seq<Stage>)
    requires TaskOk(cfg, db, ros, lagging) && db.task.status != Queued
    requires ClaimTx(db, i, s, mode).Ok? && ModeFor(s, seen) == Some(mode)
    requires i < |db.stages| && s.dependsOn == db.stages[i].dependsOn
    ensures TaskOk(cfg, ClaimTx(db, i, s, mode).value, ros, lagging)
    ensures Grows(db, ClaimTx(db, i, s, mode).value)
  {
    var f := ClaimTx(db, i, s, mode).value;
    ClaimViews(db, i, s, mode);
    assert StageOk(RulesOf(cfg, i), ViewOf(db, i), ros[i]);
    ClaimKeepsStage(RulesOf(cfg, i), ViewOf(db, i), ros[i], mode);
    OnlyStageKeeps(cfg, db, f, i, ClaimView(ViewOf(db, i), mode), ros);
    ClaimAdvances(cfg, db, ros, i, s, mode);
    DepsPersist(db, f);
    if s.status == Pending {
      EmitKeepsLedger(ClaimStage(db, i, s.attempt, s.status, ClaimedStatus(mode)).value, Some(i), StageStarted);
    }
    ClaimKeepsStatus(db, i, s, mode, lagging);
  }

  /** A claim turns a runnable stage into a runnable stage. */
  lemma ClaimKeepsStatus(db: DB, i: nat, s: Stage, mode: Mode, lagging: bool)
    requires ClaimTx(db, i, s, mode).Ok? && StatusOk(db, lagging) && db.task.status != Queued
    requires i < |db.stages| && s.dependsOn == db.stages[i].dependsOn
    requires mode == ExecuteMode <==> s.status == Executing
    requires s.status == Pending || s.status == Planning || s.status == Executing
    ensures StatusOk(ClaimTx(db, i, s, mode).value, lagging)
  {
    var f := ClaimTx(db, i, s, mode).value;
    assert Runnable(db.stages[i], db.stages) by {
      if s.status == Pending {
        assert forall d :: 0 <= d < |s.dependsOn| ==> KeyApproved(s.dependsOn[d], db.stages);
      }
    }
    assert Runnable(f.stages[i], f.stages);
    assert SomeReview(db.stages) <==> SomeReview(f.stages) by {
      if SomeReview(db.stages) {
        var r :| 0 <= r < |db.stages| && InReview(db.stages[r].status);
        assert InReview(f.stages[r].status);
      }
      if SomeReview(f.stages) {
        var r :| 0 <= r < |f.stages| && InReview(f.stages[r].status);
        assert InReview(db.stages[r].status);
      }
    }
    assert !AllApproved(db.stages) && !AllApproved(f.stages);
  }

  lemma ProgressKeeps(cfg: Config, db: DB, ros: seq<Reopened>, lagging: bool, c: Claim, body: Body)
    requires TaskOk(cfg, db, ros, lagging) && db.task.status != Queued
    requires ProgressTx(db, c, body).Ok? && Ordinary(body) && Plain(body) && !body.StageStarted? && !body.StageCompleted?
    ensures TaskOk(cfg, ProgressTx(db, c, body).value, ros, lagging)
    ensures Grows(db, ProgressTx(db, c, body).value)
  {
    var f := ProgressTx(db, c, body).value;
    GrowsIsReflexive(db);
    hide StageOk, LedgerOk, Evolves, Advances, ApprovalsGrow, Ready, Derive;
    forall j | 0 <= j < |db.stages| ensures ViewOf(f, j) == ViewOf(db, j) {
      ViewEmit(db, Some(c.stage), body, j);
    }
    SameViewsKeep(cfg, db, f, ros);
    EmitKeepsLedger(db, Some(c.stage), body);
  }

  // ---- results of a runner -----------------------------------------------------------

  /** A result, or a failed publication, is a later content of the row it was claimed from. */
  lemma FinishEvolves(rules: Rules, v: View, ro: Reopened, c: Claim, r: RunResult, gated: bool)
    requires StageOk(rules, v, ro) && c.row == v.row && c.row.status == ClaimedStatus(c.mode)
    requires c.mode == ExecuteMode ==> c.plan == Text(v.row.plan)
    ensures Evolves(v.row, Overwrite(v.row, Finish(c, r, gated)))
    ensures c.mode == ExecuteMode ==>
      Evolves(v.row, Overwrite(v.row, c.row.(status := Blocked, blockedReason := Some(Publish))))
  {
  }

  lemma CommittedGrows(db: DB, c: Claim, r: RunResult, gated: bool)
    requires c.stage < |db.stages| && !Terminal(db.task.status)
    requires Evolves(db.stages[c.stage], Overwrite(db.stages[c.stage], Finish(c, r, gated)))
    ensures Grows(db, Committed(db, c, r, gated))
  {
    hide Finish, Overwrite;
  }

  lemma DeriveGrows(db: DB)
    requires !Terminal(db.task.status)
    ensures Grows(db, DeriveTx(db)) && DeriveTx(db).stages == db.stages && DeriveTx(db).approvals == db.approvals
  {
    hide Derive;
    assert Derive(db.task.status, db.stages) == Queued ==> db.task.status == Queued by {
      DeriveIsNotQueued(db.task.status, db.stages);
    }
  }

  lemma DeriveIsNotQueued(status: TaskStatus, stages: seq<Stage>)
    ensures Derive(status, stages) == Queued ==> status == Queued
  {
  }

  lemma CommitAdvances(cfg: Config, db: DB, ros: seq<Reopened>, c: Claim, r: RunResult)
    requires StagesOk(cfg, db, ros) && CommitTx(cfg, db, c, r).Ok? && c.stage < |db.stages|
    requires ClaimFits(c, db.stages[c.stage])
    ensures c.row == db.stages[c.stage] && !Terminal(db.task.status)
    ensures Grows(db, CommitTx(cfg, db, c, r).value)
  {
    hide StageOk, Derive, Evolves;
    var gated := Gate(cfg, c.stage, KindOf(c.mode));
    CommitIsCommitted(cfg, db, c, r);
    CommitMatches(cfg, db, c, r);
    var f := Committed(db, c, r, gated);
    FinishEvolves(RulesOf(cfg, c.stage), ViewOf(db, c.stage), ros[c.stage], c, r, gated);
    CommittedGrows(db, c, r, gated);
    assert f.task.status == db.task.status;
    DeriveGrows(f);
    GrowsIsTransitive(db, f, DeriveTx(f));
  }

  /** A commit that succeeds overwrites exactly the row its own claim produced. */
  lemma CommitMatches(cfg: Config, db: DB, c: Claim, r: RunResult)
    requires CommitTx(cfg, db, c, r).Ok? && c.stage < |db.stages| && Fenced(c, db.stages[c.stage])
    ensures c.row == db.stages[c.stage] && !Terminal(db.task.status)
  {
  }

  lemma CommittedLedger(db: DB, c: Claim, r: RunResult, gated: bool)
    requires LedgerOk(db) && Live(db.task.status) && c.stage < |db.stages|
    ensures LedgerOk(Committed(db, c, r, gated)) && Committed(db, c, r, gated).task.status == db.task.status
  {
    var i := c.stage;
    var u := db.(stages := db.stages[i := Overwrite(db.stages[i], Finish(c, r, gated))]);
    var d := if c.mode == ExecuteMode then RecordDeliverable(u, i, r) else u;
    assert LedgerOk(u);
    if c.mode == ExecuteMode {
      RecordKeepsLedger(u, Deliverable(i, r.ref, r.content, Some(Truncate(r.content, 400))), Some(i));
    }
    if gated {
      var a := NewApproval(i, KindOf(c.mode), RetryNo(c.row, KindOf(c.mode)), r.content);
      AskKeepsLedger(d, a, Some(i));
    } else if c.mode == ExecuteMode {
      EmitKeepsLedger(d, Some(i), StageCompleted(|db.deliverables|));
    }
  }

  lemma CommittedStatic(cfg: Config, db: DB, c: Claim, r: RunResult, gated: bool)
    requires StaticOk(cfg, db) && c.stage < |db.stages|
    ensures StaticOk(cfg, DeriveTx(Committed(db, c, r, gated)))
  {
    hide Derive;
  }

  lemma CommitKeeps(cfg: Config, db: DB, ros: seq<Reopened>, lagging: bool, c: Claim, r: RunResult)
    requires TaskOk(cfg, db, ros, lagging) && CommitTx(cfg, db, c, r).Ok? && c.stage < |db.stages|
    requires ClaimFits(c, db.stages[c.stage])
    ensures TaskOk(cfg, CommitTx(cfg, db, c, r).value, ros, false)
    ensures Grows(db, CommitTx(cfg, db, c, r).value)
  {
    hide StageOk, Ready, Derive, LedgerOk, ViewOf, CommitTx, Finish, Overwrite, Evolves;
    var i := c.stage;
    var gated := Gate(cfg, i, KindOf(c.mode));
    var f := CommitTx(cfg, db, c, r).value;
    CommitAdvances(cfg, db, ros, c, r);
    CommitViews(cfg, db, c, r);
    CommitIsCommitted(cfg, db, c, r);
    StageAt(cfg, db, ros, i);
    CommitKeepsStage(RulesOf(cfg, i), ViewOf(db, i), ros[i], c, r);
    OnlyStageKeeps(cfg, db, f, i, CommitView(ViewOf(db, i), c, r, gated), ros);
    CommittedLedger(db, c, r, gated);
    DeriveKeepsLedger(Committed(db, c, r, gated));
    CommittedStatic(cfg, db, c, r, gated);
    DepsPersist(db, f);
    DerivedStatusOk(Committed(db, c, r, gated));
  }

  lemma StageAt(cfg: Config, db: DB, ros: seq<Reopened>, i: nat)
    requires StagesOk(cfg, db, ros) && i < |db.stages|
    ensures StageOk(RulesOf(cfg, i), ViewOf(db, i), ros[i]) && ViewOf(db, i).row == db.stages[i]
  {
  }

  /** The row of a blocked publication, and its event. */
  function BlockedRows(db: DB, c: Claim): DB
    requires c.stage < |db.stages|
  {
    Emit(db.(stages := db.stages[c.stage := Overwrite(db.stages[c.stage], c.row.(status := Blocked, blockedReason := Some(Publish)))]),
         Some(c.stage), StageBlocked(Publish))
  }

  lemma BlockIsBlocked(db: DB, c: Claim)
    requires BlockTx(db, c).Ok? && !Terminal(db.task.status) && c.stage < |db.stages| && Fenced(c, db.stages[c.stage])
    ensures BlockTx(db, c).value == DeriveTx(BlockedRows(db, c)) && c.row == db.stages[c.stage]
  {
  }

  lemma BlockedGrows(db: DB, c: Claim)
    requires c.stage < |db.stages| && !Terminal(db.task.status)
    requires Evolves(db.stages[c.stage],
                     Overwrite(db.stages[c.stage], c.row.(status := Blocked, blockedReason := Some(Publish))))
    ensures Grows(db, BlockedRows(db, c))
    ensures Grows(db, DeriveTx(BlockedRows(db, c)))
  {
    hide Overwrite, Evolves;
    DeriveGrows(BlockedRows(db, c));
    assert forall i :: 0 <= i < |db.stages| ==> Evolves(db.stages[i], db.stages[i]) by {
      hide Overwrite;
      forall i | 0 <= i < |db.stages| ensures Evolves(db.stages[i], db.stages[i]) {
        EvolvesIsReflexive(db.stages[i]);
      }
    }
    GrowsIsTransitive(db, BlockedRows(db, c), DeriveTx(BlockedRows(db, c)));
  }

  lemma EvolvesIsReflexive(r: Stage)
    ensures Evolves(r, r)
  {
  }

  lemma BlockKeeps(cfg: Config, db: DB, ros: seq<Reopened>, lagging: bool, c: Claim)
    requires TaskOk(cfg, db, ros, lagging) && BlockTx(db, c).Ok? && !Terminal(db.task.status) && c.stage < |db.stages|
    requires ClaimFits(c, db.stages[c.stage]) && c.mode == ExecuteMode
    ensures TaskOk(cfg, BlockTx(db, c).value, ros, false)
    ensures Grows(db, BlockTx(db, c).value)
  {
    hide StageOk, Ready, Derive, ViewOf, Evolves, Count, UsageOf;
    var i := c.stage;
    var f := BlockTx(db, c).value;
    BlockViews(db, c);
    BlockIsBlocked(db, c);
    StageAt(cfg, db, ros, i);
    BlockKeepsStage(RulesOf(cfg, i), ViewOf(db, i), ros[i], c);
    OnlyStageKeeps(cfg, db, f, i, BlockView(ViewOf(db, i), c), ros);
    FinishEvolves(RulesOf(cfg, i), ViewOf(db, i), ros[i], c, RunResult("", None), false);
    BlockedGrows(db, c);
    DepsPersist(db, f);
    BlockedLedger(db, c);
    DeriveKeepsLedger(BlockedRows(db, c));
    DerivedStatusOk(BlockedRows(db, c));
  }

  lemma BlockedLedger(db: DB, c: Claim)
    requires LedgerOk(db) && Live(db.task.status) && c.stage < |db.stages|
    ensures LedgerOk(BlockedRows(db, c)) && BlockedRows(db, c).task.status == db.task.status
  {
    var u := db.(stages := BlockedRows(db, c).stages);
    assert LedgerOk(u);
    EmitKeepsLedger(u, Some(c.stage), StageBlocked(Publish));
  }

  lemma SameRowsKeep(cfg: Config, db: DB, f: DB)
    requires StaticOk(cfg, db) && DepsOk(db) && f.stages == db.stages && f.approvals == db.approvals
    ensures StaticOk(cfg, f) && DepsOk(f)
  {
    hide Ready;
  }

  lemma FailKeeps(cfg: Config, db: DB, ros: seq<Reopened>, lagging: bool, who: Option<Claim>)
    requires TaskOk(cfg, db, ros, lagging) && FailTx(db, who).Ok?
    ensures TaskOk(cfg, FailTx(db, who).value, ros, lagging)
    ensures Grows(db, FailTx(db, who).value)
  {
    GrowsIsReflexive(db);
    assert Derive(Failed, db.stages) == Failed;
    hide StageOk, LedgerOk, Evolves, Advances, ApprovalsGrow, ViewOf, Ready, Derive, StagesOk, DepsOk, StaticOk;
    if !Terminal(db.task.status) {
      var stage := if who.Some? then Some(who.value.stage) else None;
      var f := Emit(SetStatus(db, Failed), stage, RunFailed);
      assert FailTx(db, who).value == f;
      hide FailTx;
      StatusEventKeepsViews(db, Failed, stage, RunFailed);
      SameViewsKeep(cfg, db, f, ros);
      EndKeepsLedger(db, Failed, stage);
      SameRowsKeep(cfg, db, f);
    }
  }
}
