/**
 * The transactions that change a task, each as a function of the rows. An error result means that the
 * transaction rolled back: the rows stay as they were.
 */
module Transactions {
  import opened Options
  import opened Domain
  import opened Ledger
  import Pipeline

  /** The pipeline snapshot a task was created with. */
  datatype Config = Config(specs: seq<Pipeline.StageSpec>, maxRetries: nat)

  datatype Mode = PlanMode | ExecuteMode

  datatype RunResult = RunResult(content: string, ref: Option<string>)

  /** What a dependent stage is given of a finished dependency. */
  datatype Input = Input(key: string, ref: Option<string>, summary: Option<string>)

  /** A claimed stage: the runner's private copy of the row and its input. */
  datatype Claim = Claim(stage: nat, row: Stage, mode: Mode, plan: string, inputs: seq<Input>)

  function KindName(kind: Kind): string {
    match kind
    case PlanKind => "plan"
    case DeliverableKind => "deliverable"
  }

  predicate Gate(cfg: Config, i: nat, kind: Kind) {
    i < |cfg.specs| && KindName(kind) in cfg.specs[i].approvals
  }

  function KindOf(mode: Mode): Kind {
    match mode
    case PlanMode => PlanKind
    case ExecuteMode => DeliverableKind
  }

  function ClaimedStatus(mode: Mode): StageStatus {
    match mode
    case PlanMode => Planning
    case ExecuteMode => Executing
  }

  /** stage.Truncate */
  function Truncate(s: string, n: nat): string {
    if |s| > n then s[..n] + "…" else s
  }

  /** Task.CreateTask: the rows of a new task. */
  function NewTask(cfg: Config, budget: nat): DB {
    DB(Task(Queued, 0, 0, budget),
       seq(|cfg.specs|, i requires 0 <= i < |cfg.specs| =>
         Stage(cfg.specs[i].id, cfg.specs[i].agent, cfg.specs[i].dependsOn, Pending,
               None, 0, None, None, 0, None, None, 0, 0, 0)),
       [], [], [], [])
  }

  // ---- orchestrator ------------------------------------------------------------

  /** deriveTx */
  function DeriveTx(db: DB): DB {
    var to := Derive(db.task.status, db.stages);
    if to == db.task.status then db
    else if to == Completed then Emit(SetStatus(db, to), None, RunCompleted)
    else SetStatus(db, to)
  }

  /** start; the pipeline's levels exist because the pipeline was validated when the task was created. */
  function StartTx(db: DB): DB {
    if db.task.status != Queued then db
    else Emit(SetStatus(db, Running), None, RunStarted)
  }

  /** What Reconcile does next with a stage it saw. */
  function ModeFor(s: Stage, seen: seq<Stage>): Option<Mode> {
    match s.status
    case Pending => if Ready(s, seen) then Some(PlanMode) else None
    case Planning => Some(PlanMode)
    case Executing => Some(ExecuteMode)
    case _ => None
  }

  /** claim: `s` is the copy read earlier, outside any transaction. */
  function ClaimTx(db: DB, i: nat, s: Stage, mode: Mode): Result<DB> {
    if Halted(db.task.status) then Err(Stale)
    else if s.status == Pending && !Ready(s, db.stages) then Err(Stale)
    else
      var u := ClaimStage(db, i, s.attempt, s.status, ClaimedStatus(mode));
      if u.Err? then u
      else if s.status == Pending then Ok(Emit(u.value, Some(i), StageStarted))
      else u
  }

  /** The runner's copy after the claim: the version is counted up from the copy, not read back. */
  function ClaimedCopy(s: Stage, mode: Mode): Stage {
    s.(status := ClaimedStatus(mode), attempt := s.attempt + 1, version := s.version + 1)
  }

  /** The results of the dependencies as Reconcile saw them. */
  function InputsOf(s: Stage, seen: seq<Stage>): seq<Input> {
    if seen == [] then []
    else
      var p := seen[|seen| - 1];
      InputsOf(s, seen[..|seen| - 1])
        + if p.key in s.dependsOn then [Input(p.key, p.deliverableRef, p.deliverableSummary)] else []
  }

  function MakeClaim(i: nat, s: Stage, mode: Mode, seen: seq<Stage>): Claim {
    Claim(i, ClaimedCopy(s, mode), mode, Text(s.plan), InputsOf(s, seen))
  }

  /** progress */
  function ProgressTx(db: DB, c: Claim, body: Body): Result<DB> {
    if Terminal(db.task.status) then Err(Stale)
    else if c.stage >= |db.stages| then Err(NoRow)
    else if db.stages[c.stage].attempt != c.row.attempt || db.stages[c.stage].status != c.row.status then Err(Stale)
    else Ok(Emit(db, Some(c.stage), body))
  }

  /** The runner's copy with the result of its work. */
  function Finish(c: Claim, r: RunResult, gated: bool): Stage {
    match c.mode
    case PlanMode => c.row.(plan := Some(r.content), status := if gated then PlanReview else Executing)
    case ExecuteMode =>
      c.row.(plan := Some(c.plan), status := if gated then DeliverableReview else Approved,
             deliverableRef := r.ref, deliverableSummary := Some(Truncate(r.content, 400)))
  }

  /** The deliverable row and event of an execution. */
  function RecordDeliverable(db: DB, i: nat, r: RunResult): DB {
    Emit(CreateDeliverable(db, Deliverable(i, r.ref, r.content, Some(Truncate(r.content, 400)))),
         Some(i), DeliverableProduced(|db.deliverables|))
  }

  function RequestApproval(db: DB, i: nat, kind: Kind, retryNo: nat, content: string): Result<DB> {
    var a := CreateApproval(db, i, kind, retryNo, content);
    if a.Err? then a else Ok(Emit(a.value, Some(i), ApprovalRequested(|db.approvals|)))
  }

  /** commit */
  function CommitTx(cfg: Config, db: DB, c: Claim, r: RunResult): Result<DB> {
    if Terminal(db.task.status) then Err(Stale)
    else
      var kind := KindOf(c.mode);
      var gated := Gate(cfg, c.stage, kind);
      var u := UpdateStage(db, c.stage, Finish(c, r, gated), c.row.status);
      if u.Err? then u
      else
        var d := if c.mode == ExecuteMode then RecordDeliverable(u.value, c.stage, r) else u.value;
        if gated then
          var a := RequestApproval(d, c.stage, kind, RetryNo(c.row, kind), r.content);
          if a.Err? then a else Ok(DeriveTx(a.value))
        else if c.mode == ExecuteMode then
          Ok(DeriveTx(Emit(d, Some(c.stage), StageCompleted(|db.deliverables|))))
        else Ok(DeriveTx(d))
  }

  /** block: a failed publication parks the stage. */
  function BlockTx(db: DB, c: Claim): Result<DB> {
    if Terminal(db.task.status) then Ok(db)
    else
      var u := UpdateStage(db, c.stage, c.row.(status := Blocked, blockedReason := Some(Publish)), c.row.status);
      if u.Err? then u
      else Ok(DeriveTx(Emit(u.value, Some(c.stage), StageBlocked(Publish))))
  }

  /** fail, for a whole task or for the attempt of a claim. */
  function FailTx(db: DB, who: Option<Claim>): Result<DB> {
    if Terminal(db.task.status) then Ok(db)
    else if who.Some? && who.value.stage >= |db.stages| then Err(NoRow)
    else if who.Some? && db.stages[who.value.stage].attempt != who.value.row.attempt then Err(Stale)
    else Ok(Emit(SetStatus(db, Failed), if who.Some? then Some(who.value.stage) else None, RunFailed))
  }

  // ---- approval, task and budget services -----------------------------------------

  /** The stage row, and the events of a decided stage. */
  function SettleStage(db: DB, i: nat, kind: Kind, s: Stage): Result<DB> {
    if s.status == Blocked then Ok(Emit(db, Some(i), StageBlocked(Retries(kind))))
    else if s.status == Approved then
      var d := Latest(db.deliverables, i);
      if d.None? then Err(NoRow) else Ok(Emit(db, Some(i), StageCompleted(d.value)))
    else Ok(db)
  }

  /** UpdateApproval; `version` is the approval's version as read before the transaction. */
  function DecideTx(cfg: Config, db: DB, n: nat, version: nat, d: Decision,
                    feedback: Option<string>, edited: Option<string>): Result<DB> {
    var invalid := ValidateDecision(d, feedback, edited);
    if invalid.Some? then Err(invalid.value)
    else if n >= |db.approvals| then Err(NoRow)
    else
      var a := db.approvals[n];
      if a.verdict != Awaiting || a.version != version then Err(AlreadyDecided)
      else if Terminal(db.task.status) then Err(InvalidTransition)
      else if a.stage >= |db.stages| then Err(NoRow)
      else
        var row := db.stages[a.stage];
        var s := Decide(row, a.kind, d, feedback, edited, cfg.maxRetries);
        if s.Err? then Err(s.error)
        else
          var db1 := db.(approvals := db.approvals[n := Decided(a, d, feedback, edited)]);
          var u := UpdateStage(db1, a.stage, s.value, row.status);
          if u.Err? then u
          else
            var settled := SettleStage(Emit(u.value, Some(a.stage), ApprovalDecided(n, d)), a.stage, a.kind, s.value);
            if settled.Err? then settled else Ok(DeriveTx(settled.value))
  }

  /** Resuming a blocked task returns a blocked stage to the phase it was blocked in. */
  function Reopen(s: Stage): Stage {
    if s.status != Blocked then s
    else
      Overwrite(s, s.(status := if s.blockedReason == Some(Retries(DeliverableKind)) || s.blockedReason == Some(Publish)
                                then Executing else Planning,
                      blockedReason := None))
  }

  function ReopenAll(stages: seq<Stage>): seq<Stage> {
    seq(|stages|, i requires 0 <= i < |stages| => Reopen(stages[i]))
  }

  function ActionEvent(action: Action): Body {
    match action
    case Pause => RunPaused(false)
    case Resume => RunResumed
    case Cancel => RunCancelled
    case Start => RunStarted
  }

  /** UpdateTask for pause, resume and cancel, the only actions the API routes to it. */
  function ControlTx(db: DB, action: Action): Result<DB>
    requires action != Start
  {
    var to := TaskTransition(db.task.status, action);
    if to.Err? then Err(to.error)
    else if action == Resume && Sum(db.usage) >= db.task.tokenBudget then Err(BudgetExceeded)
    else
      var db1 := if action == Resume && db.task.status == TaskBlocked then db.(stages := ReopenAll(db.stages)) else db;
      Ok(Emit(SetStatus(db1, to.value), None, ActionEvent(action)))
  }

  /** SetBudget */
  function SetBudgetTx(db: DB, budget: int): Result<DB> {
    if budget < 1 then Err(BadRequest)
    else if Terminal(db.task.status) then Err(InvalidTransition)
    else Ok(db.(task := db.task.(tokenBudget := budget, version := db.task.version + 1)))
  }

  /** The locked half of BudgetService.Check: the rows after it, and whether the budget is exhausted. */
  function BudgetTx(db: DB): (DB, bool) {
    if Sum(db.usage) < db.task.tokenBudget then (db, false)
    else if db.task.status != Running && db.task.status != WaitingApproval then (db, true)
    else (Emit(SetStatus(db, Paused), None, RunPaused(true)), true)
  }
}
