/** What the invariant means: the promises of the protocol over every run. */
module Safety {
  import opened Options
  import opened Domain
  import opened Ledger
  import opened Transactions
  import opened StageRules
  import opened StageViews
  import opened TaskRules
  import opened TaskSteps
  import opened TaskActions
  import opened Protocol
  import opened ProtocolSteps
  import opened ProtocolClaims

  /** Some run of some task leads to `w`. */
  ghost predicate Reachable(cfg: Config, w: World) {
    ValidConfig(cfg) && exists budget: nat, steps :: budget > 0 && w == Run(cfg, Initial(cfg, budget), steps)
  }

  lemma ReachableInv(cfg: Config, w: World)
    requires Reachable(cfg, w)
    ensures Inv(cfg, w)
  {
    var budget: nat, steps :| budget > 0 && w == Run(cfg, Initial(cfg, budget), steps);
    AlwaysInv(cfg, budget, steps);
  }

  // ---- approvals ---------------------------------------------------------------------------

  lemma StageFacts(cfg: Config, w: World, i: nat)
    requires Reachable(cfg, w) && i < |w.db.stages|
    ensures |w.ros| == |w.db.stages| && StageOk(RulesOf(cfg, i), ViewOf(w.db, i), w.ros[i])
  {
    hide StageOk, ProcessesOk;
    ReachableInv(cfg, w);
    StageAt(cfg, w.db, w.ros, i);
  }

  function Approvals(db: DB, i: nat, kind: Kind): seq<Approval> {
    Of(db.approvals, i, kind)
  }

  /** Approvals of a kind are numbered without gaps, all but the last rejected; the counter counts rejections. */
  lemma ApprovalsAreNumbered(cfg: Config, w: World, i: nat, kind: Kind)
    requires Reachable(cfg, w) && i < |w.db.stages|
    ensures var l, c := Approvals(w.db, i, kind), RetryNo(w.db.stages[i], kind);
      && c <= |l| <= c + 1
      && (forall n :: 0 <= n < |l| ==> l[n].retryNo == n)
      && (forall n :: 0 <= n < c ==> l[n].verdict == Refused)
      && (|l| == c + 1 ==> l[c].verdict != Refused)
  {
    StageFacts(cfg, w, i);
  }

  lemma {:induction false} RankIsMonotone(approvals: seq<Approval>, n: nat, m: nat)
    requires n < m < |approvals|
    requires approvals[n].stage == approvals[m].stage && approvals[n].kind == approvals[m].kind
    ensures Rank(approvals, n) < Rank(approvals, m)
  {
    OfAt(approvals[..m], n);
    assert approvals[..m][..n] == approvals[..n];
  }

  /** Where an approval of the table stands among those of its stage and kind. */
  lemma InPlace(cfg: Config, w: World, n: nat)
    requires Reachable(cfg, w) && n < |w.db.approvals|
    ensures var a := w.db.approvals[n];
      a.stage < |w.db.stages| && Rank(w.db.approvals, n) < |Approvals(w.db, a.stage, a.kind)|
      && Approvals(w.db, a.stage, a.kind)[Rank(w.db.approvals, n)] == a && a.retryNo == Rank(w.db.approvals, n)
  {
    hide StageOk, ProcessesOk, StagesOk, LedgerOk, StatusOk, DepsOk;
    ReachableInv(cfg, w);
    OfAt(w.db.approvals, n);
    ApprovalsAreNumbered(cfg, w, w.db.approvals[n].stage, w.db.approvals[n].kind);
  }

  /** A pending approval belongs to a stage in review of its kind, and carries the current retry number. */
  lemma PendingMeansReview(cfg: Config, w: World, n: nat)
    requires Reachable(cfg, w) && n < |w.db.approvals| && w.db.approvals[n].verdict == Awaiting
    ensures var a := w.db.approvals[n];
      a.stage < |w.db.stages| && ReviewOf(w.db.stages[a.stage].status, a.kind)
      && a.retryNo == RetryNo(w.db.stages[a.stage], a.kind) == Rank(w.db.approvals, n) && a.version == 0
  {
    hide StageOk, Rank, Of;
    InPlace(cfg, w, n);
    var i := w.db.approvals[n].stage;
    StageFacts(cfg, w, i);
    PendingIsLast(RulesOf(cfg, i), w.db, n, w.ros[i]);
  }

  lemma {:induction false} OfComesFrom(approvals: seq<Approval>, i: nat, kind: Kind, m: nat) returns (n: nat)
    requires m < |Of(approvals, i, kind)|
    ensures n < |approvals| && approvals[n] == Of(approvals, i, kind)[m]
  {
    var front := approvals[..|approvals| - 1];
    if m < |Of(front, i, kind)| {
      n := OfComesFrom(front, i, kind, m);
    } else {
      n := |approvals| - 1;
    }
  }

  /**
   * A stage is in plan or deliverable review exactly when it has a pending approval of that kind whose
   * number is the kind's counter, and it never has two pending approvals.
   */
  lemma ReviewIffPending(cfg: Config, w: World, i: nat, kind: Kind)
    requires Reachable(cfg, w) && i < |w.db.stages|
    ensures ReviewOf(w.db.stages[i].status, kind) <==>
      exists n :: 0 <= n < |w.db.approvals| && w.db.approvals[n].stage == i && w.db.approvals[n].kind == kind
        && w.db.approvals[n].verdict == Awaiting && w.db.approvals[n].retryNo == RetryNo(w.db.stages[i], kind)
    ensures forall n, m :: 0 <= n < m < |w.db.approvals| && w.db.approvals[n].stage == w.db.approvals[m].stage ==>
      !(w.db.approvals[n].verdict == Awaiting && w.db.approvals[m].verdict == Awaiting)
  {
    if ReviewOf(w.db.stages[i].status, kind) {
      ReviewPends(cfg, w, i, kind);
      var n := OfComesFrom(w.db.approvals, i, kind, RetryNo(w.db.stages[i], kind));
      OfSound(w.db.approvals, i, kind, RetryNo(w.db.stages[i], kind));
    }
    forall n: nat | n < |w.db.approvals| && w.db.approvals[n].verdict == Awaiting
      ensures var a := w.db.approvals[n];
        a.stage < |w.db.stages| && ReviewOf(w.db.stages[a.stage].status, a.kind)
    {
      PendingMeansReview(cfg, w, n);
    }
    forall n: nat, m: nat | n < m < |w.db.approvals| && w.db.approvals[n].stage == w.db.approvals[m].stage
      && w.db.approvals[n].verdict == Awaiting && w.db.approvals[m].verdict == Awaiting
      ensures false
    {
      PendingMeansReview(cfg, w, n);
      PendingMeansReview(cfg, w, m);
      RankIsMonotone(w.db.approvals, n, m);
    }
  }

  lemma ReviewPends(cfg: Config, w: World, i: nat, kind: Kind)
    requires Reachable(cfg, w) && i < |w.db.stages| && ReviewOf(w.db.stages[i].status, kind)
    ensures Pends(Approvals(w.db, i, kind), RetryNo(w.db.stages[i], kind))
    ensures Approvals(w.db, i, kind)[RetryNo(w.db.stages[i], kind)].retryNo == RetryNo(w.db.stages[i], kind)
  {
    StageFacts(cfg, w, i);
  }

  /** Before a stage that is planning or executing asks for its next approval, both indexes are free. */
  lemma IndexesAreFree(cfg: Config, w: World, i: nat, kind: Kind)
    requires Reachable(cfg, w) && i < |w.db.stages|
    requires w.db.stages[i].status == if kind == PlanKind then Planning else Executing
    ensures !PendingTaken(w.db.approvals, i)
    ensures !NumberTaken(w.db.approvals, i, kind, RetryNo(w.db.stages[i], kind))
  {
    StageFacts(cfg, w, i);
    var c := RetryNo(w.db.stages[i], kind);
    assert |Approvals(w.db, i, kind)| == c;
    forall n: nat | n < |w.db.approvals| && w.db.approvals[n].stage == i
      ensures w.db.approvals[n].verdict != Awaiting
      ensures !(w.db.approvals[n].kind == kind && w.db.approvals[n].retryNo == c)
    {
      InPlace(cfg, w, n);
      if w.db.approvals[n].verdict == Awaiting {
        PendingMeansReview(cfg, w, n);
      }
    }
  }

  /**
   * Exactly when a commit succeeds: the task is not terminal and the stage row is still the very copy
   * the runner claimed. Otherwise it is stale; it never breaks a unique index.
   */
  lemma CommitSucceedsIff(cfg: Config, w: World, c: nat, r: RunResult)
    requires Reachable(cfg, w) && c < |w.claims|
    ensures w.claims[c].stage < |w.db.stages|
    ensures CommitTx(cfg, w.db, w.claims[c], r).Ok? <==>
      !Terminal(w.db.task.status) && w.claims[c].row == w.db.stages[w.claims[c].stage]
    ensures CommitTx(cfg, w.db, w.claims[c], r).Err? ==> CommitTx(cfg, w.db, w.claims[c], r).error == Stale
  {
    hide StageOk, TaskOk, Derive, Ready, InputsOf, PastPlan;
    ReachableInv(cfg, w);
    assert ClaimOk(w.claims[c], w.db);
    var i := w.claims[c].stage;
    var claim := w.claims[c];
    if !Terminal(w.db.task.status) && claim.row == w.db.stages[i] {
      IndexesAreFree(cfg, w, i, KindOf(claim.mode));
      var d := if claim.mode == ExecuteMode then RecordDeliverable(w.db, i, r) else w.db;
      assert d.approvals == w.db.approvals;
    } else if CommitTx(cfg, w.db, claim, r).Ok? {
      CommitMatches(cfg, w.db, claim, r);
    }
  }

  /** A pending approval of a live task, read at any time while it was pending, can always be decided. */
  lemma PendingIsDecidable(cfg: Config, w: World, steps: seq<Step>, n: nat, d: Domain.Decision,
                           feedback: Option<string>, edited: Option<string>)
    requires Reachable(cfg, w) && n < |w.db.approvals| && w.db.approvals[n].verdict == Awaiting
    ensures var v := Run(cfg, w, steps);
      && n < |v.db.approvals|
      && (v.db.approvals[n].verdict == Awaiting && !Terminal(v.db.task.status)
          && ValidateDecision(d, feedback, edited).None? ==>
            DecideTx(cfg, v.db, n, w.db.approvals[n].version, d, feedback, edited).Ok?)
  {
    hide Inv, DecideTx, Of, Rank;
    ReachableInv(cfg, w);
    InvAlongRun(cfg, w, steps);
    var v := Run(cfg, w, steps);
    PendingMeansReview(cfg, w, n);
    if v.db.approvals[n].verdict == Awaiting && !Terminal(v.db.task.status) && ValidateDecision(d, feedback, edited).None? {
      assert TaskOk(cfg, v.db, v.ros, v.lagging) by {
        InvIsTaskOk(cfg, v);
      }
      DecisionAccepted(cfg, v.db, v.ros, v.lagging, n, d, feedback, edited);
    }
  }

  lemma InvIsTaskOk(cfg: Config, w: World)
    requires Inv(cfg, w)
    ensures TaskOk(cfg, w.db, w.ros, w.lagging)
  {
  }

  // ---- the human gate ---------------------------------------------------------------------------

  /** What a granted approval lets pass: the text that was asked about, or the edited text. */
  ghost predicate Passed(db: DB, i: nat, kind: Kind, text: Option<string>) {
    exists n :: 0 <= n < |db.approvals| && db.approvals[n].stage == i && db.approvals[n].kind == kind
      && (|| (db.approvals[n].verdict == Accepted && text == Some(db.approvals[n].content))
          || (db.approvals[n].verdict == Edited && text == db.approvals[n].edited))
  }

  lemma GrantPasses(db: DB, i: nat, kind: Kind, c: nat)
    requires Granted(Of(db.approvals, i, kind), c)
    ensures Passed(db, i, kind, GrantedText(Of(db.approvals, i, kind), c))
  {
    var n := OfComesFrom(db.approvals, i, kind, c);
    OfSound(db.approvals, i, kind, c);
  }

  /** With the plan gate on, every execution uses exactly a text that a human approved, or edited. */
  lemma ExecutionsUseApprovedPlans(cfg: Config, w: World, c: nat)
    requires Reachable(cfg, w) && c < |w.claims| && w.claims[c].mode == ExecuteMode
    requires Gate(cfg, w.claims[c].stage, PlanKind)
    ensures Passed(w.db, w.claims[c].stage, PlanKind, Some(w.claims[c].plan))
  {
    ReachableInv(cfg, w);
    assert ClaimOk(w.claims[c], w.db);
    var i := w.claims[c].stage;
    StageFacts(cfg, w, i);
    GrantPasses(w.db, i, PlanKind, w.db.stages[i].planRetryNo);
  }

  /** With the deliverable gate on, a stage is approved only when its last deliverable approval was granted. */
  lemma ApprovedMeansGranted(cfg: Config, w: World, i: nat)
    requires Reachable(cfg, w) && i < |w.db.stages| && w.db.stages[i].status == Approved
    requires Gate(cfg, i, DeliverableKind)
    ensures var l := Approvals(w.db, i, DeliverableKind);
      |l| > 0 && (l[|l| - 1].verdict == Accepted || l[|l| - 1].verdict == Edited)
      && (l[|l| - 1].verdict == Edited ==> w.db.stages[i].deliverableSummary == l[|l| - 1].edited)
  {
    StageFacts(cfg, w, i);
  }

  /** A stage that executes never plans again and keeps its plan; an approved row never changes at all. */
  lemma PlansAndApprovalsAreFinal(cfg: Config, w: World, steps: seq<Step>, i: nat)
    requires Reachable(cfg, w) && i < |w.db.stages|
    ensures var v := Run(cfg, w, steps);
      && i < |v.db.stages|
      && (PastPlan(w.db.stages[i]) ==> PastPlan(v.db.stages[i]) && v.db.stages[i].plan == w.db.stages[i].plan)
      && (w.db.stages[i].status == Approved ==> v.db.stages[i] == w.db.stages[i])
  {
    hide Inv, PastPlan;
    ReachableInv(cfg, w);
    InvAlongRun(cfg, w, steps);
    assert Evolves(w.db.stages[i], Run(cfg, w, steps).db.stages[i]);
  }

  /** The results a runner was given are those its dependencies still have after any further steps. */
  lemma InputsAreFinal(cfg: Config, w: World, steps: seq<Step>, c: nat)
    requires Reachable(cfg, w) && c < |w.claims|
    ensures var v := Run(cfg, w, steps); var i := w.claims[c].stage;
      i < |v.db.stages| && Ready(v.db.stages[i], v.db.stages)
      && w.claims[c].inputs == InputsOf(v.db.stages[i], v.db.stages)
  {
    ReachableInv(cfg, w);
    InvAlongRun(cfg, w, steps);
    assert ClaimOk(w.claims[c], w.db);
    ClaimPersists(w.claims[c], w.db, Run(cfg, w, steps).db);
  }

  // ---- no lost update ------------------------------------------------------------------------------

  /**
   * A commit or block that succeeds was claimed from an up-to-date copy, overwrites exactly the row
   * that claim produced, and is the first result of its claim.
   */
  lemma SettlingIsFenced(cfg: Config, w: World, c: nat, r: RunResult)
    requires Reachable(cfg, w) && c < |w.claims|
    requires CommitTx(cfg, w.db, w.claims[c], r).Ok?
      || (BlockTx(w.db, w.claims[c]).Ok? && !Terminal(w.db.task.status))
    ensures w.claims[c].stage < |w.db.stages| && w.claims[c].row == w.db.stages[w.claims[c].stage]
    ensures c in w.current && c !in w.settled
  {
    ReachableInv(cfg, w);
    assert ClaimOk(w.claims[c], w.db);
    if CommitTx(cfg, w.db, w.claims[c], r).Ok? {
      CommitMatches(cfg, w.db, w.claims[c], r);
    } else {
      BlockIsBlocked(w.db, w.claims[c]);
    }
    SettleIsFirst(w, c);
  }

  /** Each attempt number of a stage has at most one claim, and at most one result. */
  lemma OneResultPerAttempt(cfg: Config, w: World, k: nat, l: nat)
    requires Reachable(cfg, w) && k < l < |w.settled|
    ensures w.settled[k] < |w.claims| && w.settled[l] < |w.claims|
    ensures var a, b := w.claims[w.settled[k]], w.claims[w.settled[l]];
      a.stage != b.stage || a.row.attempt != b.row.attempt
  {
    hide TaskOk, PassOk, ClaimOk, RunnerOk;
    ReachableInv(cfg, w);
    var a, b := w.settled[k], w.settled[l];
    if w.claims[a].stage == w.claims[b].stage && w.claims[a].row.attempt == w.claims[b].row.attempt {
      AttemptIdentifies(w.claims, a, b);
    }
  }

  /**
   * No lost work: on a live task, the live runner of a stage that was claimed from an up-to-date copy
   * and has not settled yet can always commit.
   */
  lemma LiveRunnerCanCommit(cfg: Config, w: World, i: nat, r: RunResult)
    requires Reachable(cfg, w) && i in w.running && !Terminal(w.db.task.status)
    requires w.running[i] in w.current && w.running[i] !in w.settled
    ensures w.running[i] < |w.claims| && CommitTx(cfg, w.db, w.claims[w.running[i]], r).Ok?
  {
    ReachableInv(cfg, w);
    assert RunnerOk(w, i);
    CommitSucceedsIff(cfg, w, w.running[i], r);
  }

  /** Nothing changes a terminal task: a late result adds no deliverable, approval or event. */
  lemma TerminalIsFinal(cfg: Config, w: World, steps: seq<Step>)
    requires Reachable(cfg, w) && Terminal(w.db.task.status)
    ensures Run(cfg, w, steps).db == w.db
  {
    hide Inv;
    ReachableInv(cfg, w);
    InvAlongRun(cfg, w, steps);
  }

  // ---- the ledger -----------------------------------------------------------------------------------

  /**
   * The events of a task are numbered 1 to event_seq without a gap, and usage rows repeat the usage
   * events. Each stage that left pending has one stage.started, each approved stage one stage.completed.
   * A closing event is in the log exactly when the task is terminal; it is then the only one, and last.
   * Every approval, decision and deliverable is announced exactly once.
   */
  lemma LedgerShape(cfg: Config, w: World)
    requires Reachable(cfg, w)
    ensures |w.db.events| == w.db.task.eventSeq
    ensures forall n :: 0 <= n < |w.db.events| ==> w.db.events[n].number == n + 1
    ensures w.db.usage == UsageOf(w.db.events)
    ensures forall i: nat :: i < |w.db.stages| ==>
      Count(w.db.events, Started(i)) == (if w.db.stages[i].status == Pending then 0 else 1)
      && Count(w.db.events, Finished(i)) == (if w.db.stages[i].status == Approved then 1 else 0)
    ensures Count(w.db.events, RunEnd) == (if Terminal(w.db.task.status) then 1 else 0)
    ensures Terminal(w.db.task.status) ==>
      w.db.events != [] && w.db.events[|w.db.events| - 1].body == EndOf(w.db.task.status)
    ensures Count(w.db.events, RunBegin) <= 1
    ensures w.db.task.status == Queued ==> w.db.events == []
    ensures forall n: nat ::
      Count(w.db.events, Asked(n)) == (if n < |w.db.approvals| then 1 else 0)
      && Count(w.db.events, Answered(n)) == (if n < |w.db.approvals| && w.db.approvals[n].verdict != Awaiting then 1 else 0)
      && Count(w.db.events, Produced(n)) == (if n < |w.db.deliverables| then 1 else 0)
  {
    ReachableInv(cfg, w);
    forall i: nat | i < |w.db.stages|
      ensures Count(w.db.events, Started(i)) == (if w.db.stages[i].status == Pending then 0 else 1)
      ensures Count(w.db.events, Finished(i)) == (if w.db.stages[i].status == Approved then 1 else 0)
    {
      StageFacts(cfg, w, i);
    }
  }

  // ---- status and progress ------------------------------------------------------------------------------

  /**
   * The task status agrees with the stages after every transaction; "running" may lag only after a
   * resume from a pause.
   */
  lemma StatusAgrees(cfg: Config, w: World)
    requires Reachable(cfg, w)
    ensures w.db.task.status == Completed ==> AllApproved(w.db.stages)
    ensures w.db.task.status == WaitingApproval ==> SomeReview(w.db.stages)
    ensures w.db.task.status == TaskBlocked ==>
      SomeBlocked(w.db.stages) && !SomeReview(w.db.stages) && !SomeRunnable(w.db.stages) && !AllApproved(w.db.stages)
    ensures w.db.task.status == Running && !w.lagging ==>
      SomeRunnable(w.db.stages) && !SomeReview(w.db.stages) && !AllApproved(w.db.stages)
  {
    hide StagesOk, LedgerOk, ProcessesOk;
    ReachableInv(cfg, w);
    NeverStuck(cfg, w.db.stages);
  }

  /** In no reachable world are all stages stuck: one is in review, runnable or blocked, or all are approved. */
  lemma SomethingCanHappen(cfg: Config, w: World)
    requires Reachable(cfg, w)
    ensures SomeReview(w.db.stages) || AllApproved(w.db.stages) || SomeRunnable(w.db.stages) || SomeBlocked(w.db.stages)
  {
    hide StagesOk, LedgerOk, ProcessesOk, StatusOk;
    ReachableInv(cfg, w);
    NeverStuck(cfg, w.db.stages);
  }

  /** A stage leaves pending only after everything it depends on, along any chain, is approved. */
  lemma {:induction false} DependenciesFirst(cfg: Config, w: World, chain: seq<int>, n: nat)
    requires Reachable(cfg, w) && Pipeline.Chain(cfg.specs, chain) && 0 < n < |chain|
    requires |w.db.stages| == |cfg.specs| && w.db.stages[chain[0]].status != Pending
    ensures 0 <= chain[n] < |w.db.stages| && w.db.stages[chain[n]].status == Approved
  {
    hide StagesOk, LedgerOk, ProcessesOk, StatusOk;
    ReachableInv(cfg, w);
    if n > 1 {
      DependenciesFirst(cfg, w, chain, n - 1);
    }
    var a, b := chain[n - 1], chain[n];
    assert Pipeline.Depends(cfg.specs, a, b);
    assert Ready(w.db.stages[a], w.db.stages);
    var d :| 0 <= d < |cfg.specs[a].dependsOn| && cfg.specs[a].dependsOn[d] == cfg.specs[b].id;
    assert KeyApproved(w.db.stages[a].dependsOn[d], w.db.stages);
    var p :| 0 <= p < |w.db.stages| && w.db.stages[p].key == w.db.stages[b].key && w.db.stages[p].status == Approved;
  }
}
