/** Rejections are bounded, and between two resumes only finitely much can be committed or decided. */
module Retry {
  import opened Options
  import opened Domain
  import opened Ledger
  import opened Transactions
  import opened StageRules
  import opened StageViews
  import opened TaskRules
  import opened TaskSteps
  import opened TaskActions
  import opened Protocol
  import opened ProtocolClaims
  import opened Safety

  /**
   * After a stage was reopened `n` times for a kind, that kind's counter is at most maxRetries - 1 + n
   * (exactly that, once n > 0) while the stage is open, and exactly maxRetries + n while it is blocked for the kind.
   */
  lemma RetryBound(cfg: Config, w: World, i: nat, kind: Kind)
    requires Reachable(cfg, w) && i < |w.db.stages|
    ensures |w.ros| == |w.db.stages|
    ensures var n := if kind == PlanKind then w.ros[i].plan else w.ros[i].deliverable;
      var c := RetryNo(w.db.stages[i], kind);
      if w.db.stages[i].status == Blocked && w.db.stages[i].blockedReason == Some(Retries(kind))
      then c == cfg.maxRetries + n
      else c + 1 <= cfg.maxRetries + n && (n > 0 ==> c + 1 == cfg.maxRetries + n)
  {
    StageFacts(cfg, w, i);
  }

  // ---- the measure ------------------------------------------------------------------------

  /** How far a stage is from its end, counting the rejections still allowed. */
  function Left(maxRetries: nat, s: Stage, ro: Reopened): nat {
    var plan := maxRetries + ro.plan - s.planRetryNo;
    var result := maxRetries + ro.deliverable - s.deliverableRetryNo;
    2 * ((if plan > 0 then plan else 0) + (if result > 0 then result else 0))
    + match s.status
      case Pending => 4
      case Planning => 4
      case PlanReview => 3
      case Executing => 2
      case DeliverableReview => 1
      case Approved => 0
      case Blocked => 0
  }

  function Lefts(cfg: Config, ss: seq<Stage>, ros: seq<Reopened>): seq<nat>
    requires |ros| == |ss|
  {
    seq(|ss|, i requires 0 <= i < |ss| => Left(cfg.maxRetries, ss[i], ros[i]))
  }

  /** The number of decided approvals. */
  function Answers(approvals: seq<Approval>): nat {
    if approvals == [] then 0
    else Answers(approvals[..|approvals| - 1]) + if approvals[|approvals| - 1].verdict == Awaiting then 0 else 1
  }

  /** Commits, blocks and decisions so far. */
  function Work(w: World): nat {
    |w.settled| + Answers(w.db.approvals)
  }

  function Measure(cfg: Config, w: World): nat
    requires |w.ros| == |w.db.stages|
  {
    Sum(Lefts(cfg, w.db.stages, w.ros))
  }

  lemma {:induction false} SumUpdate(m: seq<nat>, i: nat, x: nat)
    requires i < |m|
    ensures Sum(m[i := x]) + m[i] == Sum(m) + x
  {
    var front := m[..|m| - 1];
    if i < |front| {
      SumUpdate(front, i, x);
      assert m[i := x][..|front|] == front[i := x];
    } else {
      assert m[i := x][..|front|] == front;
    }
  }

  /** Changing one stage changes the measure by that stage's share. */
  lemma LeftUpdate(cfg: Config, ss: seq<Stage>, ros: seq<Reopened>, i: nat, s: Stage)
    requires |ros| == |ss| && i < |ss|
    ensures Sum(Lefts(cfg, ss[i := s], ros)) + Left(cfg.maxRetries, ss[i], ros[i])
         == Sum(Lefts(cfg, ss, ros)) + Left(cfg.maxRetries, s, ros[i])
  {
    hide Left;
    SumUpdate(Lefts(cfg, ss, ros), i, Left(cfg.maxRetries, s, ros[i]));
    assert Lefts(cfg, ss[i := s], ros) == Lefts(cfg, ss, ros)[i := Left(cfg.maxRetries, s, ros[i])];
  }

  lemma AnswersAppend(approvals: seq<Approval>, a: Approval)
    ensures Answers(approvals + [a]) == Answers(approvals) + if a.verdict == Awaiting then 0 else 1
  {
    assert (approvals + [a])[..|approvals|] == approvals;
  }

  lemma {:induction false} AnswersUpdate(approvals: seq<Approval>, n: nat, a: Approval)
    requires n < |approvals| && approvals[n].verdict == Awaiting && a.verdict != Awaiting
    ensures Answers(approvals[n := a]) == Answers(approvals) + 1
  {
    var front := approvals[..|approvals| - 1];
    if n < |front| {
      AnswersUpdate(front, n, a);
      assert approvals[n := a][..|front|] == front[n := a];
    } else {
      assert approvals[n := a][..|front|] == front;
    }
  }

  // ---- one stage at a time -----------------------------------------------------------------

  lemma FinishIsShorter(rules: Rules, v: View, ro: Reopened, c: Claim, r: RunResult, gated: bool)
    requires StageOk(rules, v, ro) && c.row == v.row && c.row.status == ClaimedStatus(c.mode)
    ensures Left(rules.maxRetries, Overwrite(v.row, Finish(c, r, gated)), ro) < Left(rules.maxRetries, v.row, ro)
    ensures c.mode == ExecuteMode ==>
      Left(rules.maxRetries, Overwrite(v.row, c.row.(status := Blocked, blockedReason := Some(Publish))), ro)
        < Left(rules.maxRetries, v.row, ro)
  {
  }

  lemma DecisionIsShorter(rules: Rules, v: View, ro: Reopened, kind: Kind, d: Domain.Decision,
                          feedback: Option<string>, edited: Option<string>)
    requires StageOk(rules, v, ro) && Decide(v.row, kind, d, feedback, edited, rules.maxRetries).Ok?
    ensures Left(rules.maxRetries, Overwrite(v.row, Decide(v.row, kind, d, feedback, edited, rules.maxRetries).value), ro)
      < Left(rules.maxRetries, v.row, ro)
  {
  }

  // ---- every step but resume -------------------------------------------------------------------

  /** The step changes no stage row and no approval, and settles nothing. */
  predicate Idle(w: World, v: World) {
    v.db.stages == w.db.stages && v.db.approvals == w.db.approvals && v.ros == w.ros && v.settled == w.settled
  }

  predicate Moving(step: Step) {
    step.Advance? || step.Commit? || step.Park? || step.Decision? || step == Act(Resume)
  }

  lemma OtherStepsAreIdle(cfg: Config, w: World, step: Step)
    requires !Moving(step)
    ensures Idle(w, Apply(cfg, w, step))
  {
    hide Sum, Derive;
  }

  /** Measure and work together never grow: every commit, block and decision is paid for. */
  ghost predicate Paid(cfg: Config, w: World, v: World) {
    && |w.ros| == |w.db.stages| && |v.ros| == |v.db.stages|
    && Measure(cfg, v) + Work(v) <= Measure(cfg, w) + Work(w)
  }

  lemma AdvancePays(cfg: Config, w: World, p: nat)
    requires Inv(cfg, w) && Working(w, p)
    ensures Paid(cfg, w, AdvancePass(w, p))
  {
    hide StageOk, LedgerOk, DepsOk, StatusOk, ProcessesOk, Derive, Ready, InputsOf, Sum, Answers, Lefts;
    var pass := w.passes[p];
    var seen, i := pass.seen.value, pass.next;
    if i < |seen| && i !in w.running && ModeFor(seen[i], seen).Some?
      && ClaimTx(w.db, i, seen[i], ModeFor(seen[i], seen).value).Ok? {
      var mode := ModeFor(seen[i], seen).value;
      var row := w.db.stages[i].(status := ClaimedStatus(mode), attempt := w.db.stages[i].attempt + 1,
                                 version := w.db.stages[i].version + 1);
      assert AdvancePass(w, p).db.stages == w.db.stages[i := row];
      LeftUpdate(cfg, w.db.stages, w.ros, i, row);
    }
  }

  lemma CommitPays(cfg: Config, w: World, c: nat, r: RunResult)
    requires Inv(cfg, w) && c < |w.claims| && CommitTx(cfg, w.db, w.claims[c], r).Ok?
    ensures Paid(cfg, w, Apply(cfg, w, Commit(c, r)))
  {
    hide StageOk, LedgerOk, DepsOk, StatusOk, Derive, Ready, InputsOf, Sum, Answers, Lefts, Left, CommitTx, Finish, Overwrite, Truncate;
    var claim := w.claims[c];
    var i := claim.stage;
    var gated := Gate(cfg, i, KindOf(claim.mode));
    assert ClaimOk(claim, w.db);
    StageAt(cfg, w.db, w.ros, i);
    CommitMatches(cfg, w.db, claim, r);
    CommitIsCommitted(cfg, w.db, claim, r);
    FinishIsShorter(RulesOf(cfg, i), ViewOf(w.db, i), w.ros[i], claim, r, gated);
    var row := Overwrite(w.db.stages[i], Finish(claim, r, gated));
    LeftUpdate(cfg, w.db.stages, w.ros, i, row);
    CommittedApprovals(w.db, claim, r, gated);
  }

  lemma CommittedApprovals(db: DB, c: Claim, r: RunResult, gated: bool)
    requires c.stage < |db.stages|
    ensures var f := DeriveTx(Committed(db, c, r, gated));
      Answers(f.approvals) == Answers(db.approvals)
      && f.stages == db.stages[c.stage := Overwrite(db.stages[c.stage], Finish(c, r, gated))]
  {
    hide Derive;
    AnswersAppend(db.approvals, NewApproval(c.stage, KindOf(c.mode), RetryNo(c.row, KindOf(c.mode)), r.content));
  }

  lemma ParkPays(cfg: Config, w: World, c: nat)
    requires Inv(cfg, w) && c < |w.claims| && w.claims[c].mode == ExecuteMode
    requires !Terminal(w.db.task.status) && BlockTx(w.db, w.claims[c]).Ok?
    ensures Paid(cfg, w, Apply(cfg, w, Park(c)))
  {
    hide StageOk, LedgerOk, DepsOk, StatusOk, Derive, Ready, InputsOf, Sum, Answers, Lefts, Left, Overwrite;
    var claim := w.claims[c];
    var i := claim.stage;
    assert ClaimOk(claim, w.db);
    StageAt(cfg, w.db, w.ros, i);
    BlockIsBlocked(w.db, claim);
    FinishIsShorter(RulesOf(cfg, i), ViewOf(w.db, i), w.ros[i], claim, RunResult("", None), false);
    LeftUpdate(cfg, w.db.stages, w.ros, i,
               Overwrite(w.db.stages[i], claim.row.(status := Blocked, blockedReason := Some(Publish))));
  }

  lemma DecisionPays(cfg: Config, w: World, n: nat, version: nat, d: Domain.Decision,
                     feedback: Option<string>, edited: Option<string>)
    requires Inv(cfg, w) && DecideTx(cfg, w.db, n, version, d, feedback, edited).Ok?
    ensures Paid(cfg, w, Apply(cfg, w, Decision(n, version, d, feedback, edited)))
  {
    hide StageOk, LedgerOk, DepsOk, StatusOk, ProcessesOk, Derive, Sum, Answers, Lefts, Left, Overwrite, Decide, DecideTx;
    DecideIsDecided(cfg, w.db, n, version, d, feedback, edited);
    var a := w.db.approvals[n];
    var i := a.stage;
    StageAt(cfg, w.db, w.ros, i);
    var s := Decide(w.db.stages[i], a.kind, d, feedback, edited, cfg.maxRetries).value;
    OnlyKnownDecisions(w.db.stages[i], a.kind, d, feedback, edited, cfg.maxRetries);
    DecisionIsShorter(RulesOf(cfg, i), ViewOf(w.db, i), w.ros[i], a.kind, d, feedback, edited);
    LeftUpdate(cfg, w.db.stages, w.ros, i, Overwrite(w.db.stages[i], s));
    AnswersUpdate(w.db.approvals, n, Ledger.Decided(a, d, feedback, edited));
    DecidedApprovals(w.db, n, s, d, feedback, edited);
  }

  lemma DecidedApprovals(db: DB, n: nat, s: Stage, d: Domain.Decision, feedback: Option<string>, edited: Option<string>)
    requires n < |db.approvals| && db.approvals[n].stage < |db.stages|
    requires var a := db.approvals[n]; SettleStage(DecidedRows(db, n, s, d, feedback, edited), a.stage, a.kind, s).Ok?
    ensures var a := db.approvals[n];
      var f := DeriveTx(SettleStage(DecidedRows(db, n, s, d, feedback, edited), a.stage, a.kind, s).value);
      && f.approvals == db.approvals[n := Ledger.Decided(a, d, feedback, edited)]
      && f.stages == db.stages[a.stage := Overwrite(db.stages[a.stage], s)]
  {
    hide Derive, Latest;
  }

  lemma StepPays(cfg: Config, w: World, step: Step)
    requires ValidConfig(cfg) && Inv(cfg, w) && step != Act(Resume)
    ensures Paid(cfg, w, Apply(cfg, w, step))
  {
    hide Inv, Sum, Answers, Lefts, CommitTx, BlockTx, DecideTx, AdvancePass;
    assert |w.ros| == |w.db.stages| by {
      RosSize(cfg, w);
    }
    match step {
      case Advance(p) =>
        if Working(w, p) {
          AdvancePays(cfg, w, p);
        }
      case Commit(c, r) =>
        if c < |w.claims| && CommitTx(cfg, w.db, w.claims[c], r).Ok? {
          CommitPays(cfg, w, c, r);
        }
      case Park(c) =>
        if c < |w.claims| && w.claims[c].mode == ExecuteMode && !Terminal(w.db.task.status)
          && BlockTx(w.db, w.claims[c]).Ok? {
          ParkPays(cfg, w, c);
        }
      case Decision(n, version, d, feedback, edited) =>
        if DecideTx(cfg, w.db, n, version, d, feedback, edited).Ok? {
          DecisionPays(cfg, w, n, version, d, feedback, edited);
        }
      case _ => OtherStepsAreIdle(cfg, w, step);
    }
  }

  lemma RosSize(cfg: Config, w: World)
    requires Inv(cfg, w)
    ensures |w.ros| == |w.db.stages|
  {
  }

  /**
   * Between resumes, the commits, blocks and decisions of any run are at most as many as the measure
   * at its start: only finitely many happen, whatever the runners do and the humans decide.
   */
  lemma {:induction false} WorkIsBounded(cfg: Config, w: World, steps: seq<Step>)
    requires Reachable(cfg, w)
    requires forall k :: 0 <= k < |steps| ==> steps[k] != Act(Resume)
    ensures |w.ros| == |w.db.stages|
    ensures Work(Run(cfg, w, steps)) <= Work(w) + Measure(cfg, w)
  {
    hide Inv, Measure, Work;
    ReachableInv(cfg, w);
    RosSize(cfg, w);
    RunPays(cfg, w, steps);
  }

  lemma {:induction false} RunPays(cfg: Config, w: World, steps: seq<Step>)
    requires ValidConfig(cfg) && Inv(cfg, w)
    requires forall k :: 0 <= k < |steps| ==> steps[k] != Act(Resume)
    ensures Paid(cfg, w, Run(cfg, w, steps))
  {
    hide Inv, Measure, Work, Apply;
    RosSize(cfg, w);
    if steps != [] {
      var before := Run(cfg, w, steps[..|steps| - 1]);
      RunPays(cfg, w, steps[..|steps| - 1]);
      InvAlongRun(cfg, w, steps[..|steps| - 1]);
      StepPays(cfg, before, steps[|steps| - 1]);
    }
  }

  /** A new task can see at most 4 * maxRetries + 4 commits, blocks and decisions for each stage before a resume. */
  lemma NewTaskWork(cfg: Config, budget: nat, steps: seq<Step>)
    requires ValidConfig(cfg) && budget > 0
    requires forall k :: 0 <= k < |steps| ==> steps[k] != Act(Resume)
    ensures Work(Run(cfg, Initial(cfg, budget), steps)) <= |cfg.specs| * (4 * cfg.maxRetries + 4)
  {
    hide Inv;
    var w := Initial(cfg, budget);
    assert w == Run(cfg, w, []);
    assert Reachable(cfg, w);
    WorkIsBounded(cfg, w, steps);
    hide Run, Reachable;
    NewTaskMeasure(cfg, budget);
  }

  lemma NewTaskMeasure(cfg: Config, budget: nat)
    requires ValidConfig(cfg)
    ensures var w := Initial(cfg, budget);
      |w.ros| == |w.db.stages| && Work(w) == 0 && Measure(cfg, w) == |cfg.specs| * (4 * cfg.maxRetries + 4)
  {
    var w := Initial(cfg, budget);
    ConstantSum(Lefts(cfg, w.db.stages, w.ros), 4 * cfg.maxRetries + 4);
  }

  lemma {:induction false} ConstantSum(m: seq<nat>, x: nat)
    requires forall k :: 0 <= k < |m| ==> m[k] == x
    ensures Sum(m) == |m| * x
  {
    if m != [] {
      ConstantSum(m[..|m| - 1], x);
    }
  }
}
