/** Decisions and task actions keep `TaskOk`; decisions on a live task are never refused. */
module TaskActions {
  import opened Options
  import opened Domain
  import opened Ledger
  import opened Transactions
  import opened StageRules
  import opened StageViews
  import opened TaskRules
  import opened TaskSteps

  // ---- decisions ---------------------------------------------------------------------

  lemma DecideEvolves(rules: Rules, v: View, ro: Reopened, kind: Kind, d: Decision,
                      feedback: Option<string>, edited: Option<string>)
    requires StageOk(rules, v, ro)
    requires Decide(v.row, kind, d, feedback, edited, rules.maxRetries).Ok?
    ensures Evolves(v.row, Overwrite(v.row, Decide(v.row, kind, d, feedback, edited, rules.maxRetries).value))
  {
  }

  lemma DecidedGrows(db: DB, n: nat, s: Stage, d: Decision, feedback: Option<string>, edited: Option<string>)
    requires n < |db.approvals| && db.approvals[n].stage < |db.stages| && db.approvals[n].verdict == Awaiting
    requires !Terminal(db.task.status)
    requires Evolves(db.stages[db.approvals[n].stage], Overwrite(db.stages[db.approvals[n].stage], s))
    ensures Grows(db, DecidedRows(db, n, s, d, feedback, edited))
  {
    hide Overwrite;
  }

  lemma SettleGrows(db: DB, i: nat, kind: Kind, s: Stage)
    requires SettleStage(db, i, kind, s).Ok? && !Terminal(db.task.status)
    ensures var f := SettleStage(db, i, kind, s).value;
      Grows(db, f) && f.task.status == db.task.status && f.stages == db.stages && f.approvals == db.approvals
  {
    hide Latest;
    GrowsIsReflexive(db);
  }

  lemma SettleLedger(db: DB, i: nat, kind: Kind, s: Stage)
    requires LedgerOk(db) && Live(db.task.status) && SettleStage(db, i, kind, s).Ok?
    ensures LedgerOk(SettleStage(db, i, kind, s).value)
  {
    hide LedgerOk, Emit;
    if s.status == Blocked {
      EmitKeepsLedger(db, Some(i), StageBlocked(Retries(kind)));
    } else if s.status == Approved {
      EmitKeepsLedger(db, Some(i), StageCompleted(Latest(db.deliverables, i).value));
    }
  }

  lemma DecidedLedger(db: DB, n: nat, s: Stage, d: Decision, feedback: Option<string>, edited: Option<string>)
    requires n < |db.approvals| && db.approvals[n].stage < |db.stages| && LedgerOk(db) && Live(db.task.status)
    requires db.approvals[n].verdict == Awaiting && VerdictOf(d) != Awaiting
    ensures LedgerOk(DecidedRows(db, n, s, d, feedback, edited))
    ensures DecidedRows(db, n, s, d, feedback, edited).task.status == db.task.status
  {
    var a := db.approvals[n];
    var db1 := db.(stages := db.stages[a.stage := Overwrite(db.stages[a.stage], s)]);
    assert LedgerOk(db1);
    AnswerKeepsLedger(db1, n, d, feedback, edited, Some(a.stage));
  }

  lemma OnlyKnownDecisions(s: Stage, kind: Kind, d: Decision, feedback: Option<string>, edited: Option<string>, max: nat)
    requires Decide(s, kind, d, feedback, edited, max).Ok?
    ensures VerdictOf(d) != Awaiting
  {
  }

  lemma DecidedStatic(cfg: Config, db: DB, n: nat, s: Stage, d: Decision, feedback: Option<string>, edited: Option<string>)
    requires StaticOk(cfg, db) && n < |db.approvals|
    ensures StaticOk(cfg, DecidedRows(db, n, s, d, feedback, edited))
  {
  }

  lemma DecideKeeps(cfg: Config, db: DB, ros: seq<Reopened>, lagging: bool, n: nat, version: nat, d: Decision,
                    feedback: Option<string>, edited: Option<string>)
    requires ValidConfig(cfg) && TaskOk(cfg, db, ros, lagging)
    requires DecideTx(cfg, db, n, version, d, feedback, edited).Ok?
    ensures TaskOk(cfg, DecideTx(cfg, db, n, version, d, feedback, edited).value, ros, false)
    ensures Grows(db, DecideTx(cfg, db, n, version, d, feedback, edited).value)
  {
    hide StageOk, Ready, Derive, Count, UsageOf, ViewOf, DecideTx, Decide, Overwrite, Evolves, Advances, DecidedRows, SettleStage;
    DecideIsDecided(cfg, db, n, version, d, feedback, edited);
    var a := db.approvals[n];
    var i := a.stage;
    var v := ViewOf(db, i);
    StageAt(cfg, db, ros, i);
    DecideViews(cfg, db, n, version, d, feedback, edited, ros[i]);
    var s := Decide(db.stages[i], a.kind, d, feedback, edited, cfg.maxRetries).value;
    var f := DecideTx(cfg, db, n, version, d, feedback, edited).value;
    var rows := DecidedRows(db, n, s, d, feedback, edited);
    var settled := SettleStage(rows, i, a.kind, s).value;
    PendingIsLast(RulesOf(cfg, i), db, n, ros[i]);
    assert Live(db.task.status) by {
      NotQueued(db, i, a.kind, lagging);
    }
    DecideKeepsStage(RulesOf(cfg, i), v, ros[i], a.kind, d, feedback, edited);
    OnlyStageKeeps(cfg, db, f, i, DecideView(v, s, a.kind, d, feedback, edited), ros);
    DecideEvolves(RulesOf(cfg, i), v, ros[i], a.kind, d, feedback, edited);
    DecidedGrows(db, n, s, d, feedback, edited);
    assert VerdictOf(d) != Awaiting by {
      OnlyKnownDecisions(db.stages[i], a.kind, d, feedback, edited, cfg.maxRetries);
    }
    DecidedLedger(db, n, s, d, feedback, edited);
    DecidedStatic(cfg, db, n, s, d, feedback, edited);
    SettleGrows(rows, i, a.kind, s);
    SettleLedger(rows, i, a.kind, s);
    DeriveGrows(settled);
    GrowsIsTransitive(db, rows, settled);
    GrowsIsTransitive(db, settled, f);
    DeriveKeepsLedger(settled);
    DecidedDeps(db, n, s, d, feedback, edited, lagging);
    assert DepsOk(f) by {
      assert f.stages == rows.stages;
    }
    DerivedStatusOk(settled);
  }

  lemma NotQueued(db: DB, i: nat, kind: Kind, lagging: bool)
    requires StatusOk(db, lagging) && i < |db.stages| && ReviewOf(db.stages[i].status, kind)
    ensures db.task.status != Queued
  {
  }

  lemma DecidedDeps(db: DB, n: nat, s: Stage, d: Decision, feedback: Option<string>, edited: Option<string>, lagging: bool)
    requires DepsOk(db) && n < |db.approvals| && db.approvals[n].stage < |db.stages|
    requires db.stages[db.approvals[n].stage].status != Pending
    requires Grows(db, DecidedRows(db, n, s, d, feedback, edited))
    ensures DepsOk(DecidedRows(db, n, s, d, feedback, edited))
  {
    DepsPersist(db, DecidedRows(db, n, s, d, feedback, edited));
  }

  /** A pending approval of a live task is never refused: any well-formed decision on it commits. */
  lemma DecisionAccepted(cfg: Config, db: DB, ros: seq<Reopened>, lagging: bool, n: nat, d: Decision,
                         feedback: Option<string>, edited: Option<string>)
    requires ValidConfig(cfg) && TaskOk(cfg, db, ros, lagging) && !Terminal(db.task.status)
    requires n < |db.approvals| && db.approvals[n].verdict == Awaiting
    requires ValidateDecision(d, feedback, edited).None?
    ensures DecideTx(cfg, db, n, 0, d, feedback, edited).Ok?
  {
    hide StageOk, ViewOf, Ready, Derive;
    var a := db.approvals[n];
    var i := a.stage;
    StageAt(cfg, db, ros, i);
    PendingIsLast(RulesOf(cfg, i), db, n, ros[i]);
    var s := Decide(db.stages[i], a.kind, d, feedback, edited, cfg.maxRetries);
    assert s.Ok?;
    ReviewHasDeliverable(RulesOf(cfg, i), db, i, ros[i]);
    DecidedKeepsIdentity(db.stages[i], a.kind, d, feedback, edited, cfg.maxRetries);
  }

  lemma DecidedKeepsIdentity(s: Stage, kind: Kind, d: Decision, feedback: Option<string>, edited: Option<string>, max: nat)
    requires Decide(s, kind, d, feedback, edited, max).Ok?
    ensures var t := Decide(s, kind, d, feedback, edited, max).value;
      t.attempt == s.attempt && t.version == s.version && (t.status == Approved ==> kind == DeliverableKind)
  {
  }

  lemma ReviewHasDeliverable(rules: Rules, db: DB, i: nat, ro: Reopened)
    requires i < |db.stages| && StageOk(rules, ViewOf(db, i), ro)
    ensures db.stages[i].status == DeliverableReview ==> Latest(db.deliverables, i).Some?
  {
  }

  // ---- actions on the task -------------------------------------------------------------

  function ReopenCounts(db: DB, ros: seq<Reopened>): seq<Reopened>
    requires |ros| == |db.stages|
  {
    seq(|ros|, i requires 0 <= i < |ros| => ReopenCount(db.stages[i], ros[i]))
  }

  /** The bookkeeping after an action: reopened stages are counted when a blocked task resumes. */
  function RosAfter(db: DB, action: Action, ros: seq<Reopened>): seq<Reopened>
    requires |ros| == |db.stages|
  {
    if action == Resume && db.task.status == TaskBlocked then ReopenCounts(db, ros) else ros
  }

  function LagAfter(db: DB, action: Action, lagging: bool): bool {
    if action == Resume && db.task.status == Paused then true else lagging
  }

  /** The rows of a resumed blocked task before its status changes. */
  function Opened(db: DB, action: Action): DB {
    if action == Resume && db.task.status == TaskBlocked then db.(stages := ReopenAll(db.stages)) else db
  }

  lemma ReopenEvolves(rules: Rules, v: View, ro: Reopened)
    requires StageOk(rules, v, ro)
    ensures Evolves(v.row, Reopen(v.row)) && (v.row.status == Pending <==> Reopen(v.row).status == Pending)
  {
    match v.row.blockedReason {
      case Some(Retries(DeliverableKind)) =>
      case Some(Retries(PlanKind)) =>
      case Some(Publish) =>
      case None =>
    }
  }

  lemma OpenedKeeps(cfg: Config, db: DB, ros: seq<Reopened>, action: Action)
    requires StagesOk(cfg, db, ros) && !Terminal(db.task.status)
    ensures StagesOk(cfg, Opened(db, action), RosAfter(db, action, ros))
    ensures Grows(db, Opened(db, action))
    ensures forall i :: 0 <= i < |db.stages| ==>
      (db.stages[i].status == Pending <==> Opened(db, action).stages[i].status == Pending)
  {
    hide StageOk, Evolves, Reopen, ReopenCount;
    var f := Opened(db, action);
    forall i | 0 <= i < |db.stages|
      ensures StageOk(RulesOf(cfg, i), ViewOf(f, i), RosAfter(db, action, ros)[i])
      ensures Evolves(db.stages[i], f.stages[i])
      ensures db.stages[i].status == Pending <==> f.stages[i].status == Pending
    {
      EvolvesIsReflexive(db.stages[i]);
      ReopenKeepsStage(RulesOf(cfg, i), ViewOf(db, i), ros[i]);
      ReopenEvolves(RulesOf(cfg, i), ViewOf(db, i), ros[i]);
    }
  }

  /** A resumed blocked task has work to do at once. */
  lemma ReopenedRuns(db: DB)
    requires Derive(TaskBlocked, db.stages) == TaskBlocked
    requires SomeReview(db.stages) || AllApproved(db.stages) || SomeRunnable(db.stages) || SomeBlocked(db.stages)
    ensures Derive(Running, ReopenAll(db.stages)) == Running
  {
    var ss, ts := db.stages, ReopenAll(db.stages);
    var b :| 0 <= b < |ss| && ss[b].status == Blocked;
    assert Runnable(ts[b], ts);
    assert !AllApproved(ts);
    forall r | 0 <= r < |ts| ensures !InReview(ts[r].status) {
      assert !InReview(ss[r].status);
    }
  }

  lemma ActionLedger(db: DB, action: Action)
    requires LedgerOk(db) && action != Start && TaskTransition(db.task.status, action).Ok?
    ensures LedgerOk(Emit(SetStatus(db, TaskTransition(db.task.status, action).value), None, ActionEvent(action)))
  {
    hide LedgerOk, Emit, SetStatus;
    var to := TaskTransition(db.task.status, action).value;
    if action == Cancel {
      EndKeepsLedger(db, Cancelled, None);
    } else {
      StatusKeepsLedger(db, to);
      assert SetStatus(db, to).task.status == to by {
        StatusIsSet(db, to);
      }
      EmitKeepsLedger(SetStatus(db, to), None, ActionEvent(action));
    }
  }

  lemma StatusIsSet(db: DB, to: TaskStatus)
    ensures SetStatus(db, to).task.status == to
  {
  }

  lemma ActionStatus(cfg: Config, db: DB, lagging: bool, action: Action)
    requires ValidConfig(cfg) && StaticOk(cfg, db) && StatusOk(db, lagging)
    requires action != Start && ControlTx(db, action).Ok?
    ensures StatusOk(ControlTx(db, action).value, LagAfter(db, action, lagging))
  {
    if action == Resume && db.task.status == TaskBlocked {
      NeverStuck(cfg, db.stages);
      ReopenedRuns(db);
    }
  }

  lemma ControlKeeps(cfg: Config, db: DB, ros: seq<Reopened>, lagging: bool, action: Action)
    requires ValidConfig(cfg) && TaskOk(cfg, db, ros, lagging)
    requires action != Start && ControlTx(db, action).Ok?
    ensures TaskOk(cfg, ControlTx(db, action).value, RosAfter(db, action, ros), LagAfter(db, action, lagging))
    ensures Grows(db, ControlTx(db, action).value)
  {
    hide StageOk, Ready, Derive, Count, UsageOf, Evolves, Sum, Reopen, ReopenCount, ViewOf;
    var f := ControlTx(db, action).value;
    var to := TaskTransition(db.task.status, action).value;
    var o := Opened(db, action);
    assert !Terminal(db.task.status);
    OpenedKeeps(cfg, db, ros, action);
    assert f == Emit(SetStatus(o, to), None, ActionEvent(action));
    StatusEventKeepsViews(o, to, None, ActionEvent(action));
    SameViewsKeep(cfg, o, f, RosAfter(db, action, ros));
    assert LedgerOk(o);
    ActionLedger(o, action);
    DepsPersist(db, f);
    ActionStatus(cfg, db, lagging, action);
    OpenedStatic(cfg, db, action);
  }

  lemma OpenedStatic(cfg: Config, db: DB, action: Action)
    requires StaticOk(cfg, db) && action != Start && ControlTx(db, action).Ok?
    ensures StaticOk(cfg, ControlTx(db, action).value)
  {
  }

  lemma SetBudgetKeeps(cfg: Config, db: DB, ros: seq<Reopened>, lagging: bool, budget: int)
    requires TaskOk(cfg, db, ros, lagging) && SetBudgetTx(db, budget).Ok?
    ensures TaskOk(cfg, SetBudgetTx(db, budget).value, ros, lagging)
    ensures Grows(db, SetBudgetTx(db, budget).value)
  {
    hide StageOk, Ready, Derive, Count, UsageOf;
    SameViewsKeep(cfg, db, SetBudgetTx(db, budget).value, ros);
    GrowsIsReflexive(db);
  }

  lemma BudgetKeeps(cfg: Config, db: DB, ros: seq<Reopened>, lagging: bool)
    requires TaskOk(cfg, db, ros, lagging)
    ensures TaskOk(cfg, BudgetTx(db).0, ros, lagging)
    ensures Grows(db, BudgetTx(db).0)
  {
    hide StageOk, Ready, Count, UsageOf, Sum, ViewOf;
    GrowsIsReflexive(db);
    if BudgetTx(db).0 != db {
      StatusEventKeepsViews(db, Paused, None, RunPaused(true));
      SameViewsKeep(cfg, db, BudgetTx(db).0, ros);
      StatusKeepsLedger(db, Paused);
      EmitKeepsLedger(SetStatus(db, Paused), None, RunPaused(true));
    }
  }
}
