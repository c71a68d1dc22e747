/**
 * The whole task: what its rows always satisfy (`TaskOk`) and how they may change from one
 * transaction to the next (`Grows`).
 */
module TaskRules {
  import opened Options
  import opened Domain
  import opened Ledger
  import opened Transactions
  import opened StageRules
  import opened StageViews

  /** What ParsePipeline guarantees of the pipeline a task is created with. */
  ghost predicate ValidConfig(cfg: Config) {
    && |cfg.specs| > 0 && 1 <= cfg.maxRetries <= 10
    && Pipeline.UniqueIds(cfg.specs) && Pipeline.KnownDeps(cfg.specs) && Pipeline.Layered(cfg.specs)
  }

  // ---- the ledger ---------------------------------------------------------------

  /** Sequence numbers are 1, 2, ..., event_seq, and usage rows repeat the usage events. */
  ghost predicate JournalOk(db: DB) {
    && |db.events| == db.task.eventSeq
    && (forall n :: 0 <= n < |db.events| ==> db.events[n].number == n + 1)
    && db.usage == UsageOf(db.events)
  }

  function EndOf(status: TaskStatus): Body
    requires Terminal(status)
  {
    if status == Completed then RunCompleted else if status == Failed then RunFailed else RunCancelled
  }

  predicate Begun(db: DB) {
    db.events != [] && db.events[0].body == RunStarted
  }

  /** One run.started, first; one closing event, last, exactly when the task is terminal. */
  ghost predicate RunOk(db: DB) {
    && (db.task.status == Queued ==> db.events == [])
    && Count(db.events, RunBegin) == (if Begun(db) then 1 else 0)
    && (db.task.status != Queued && db.task.status != Failed && db.task.status != Cancelled ==> Begun(db))
    && Count(db.events, RunEnd) == (if Terminal(db.task.status) then 1 else 0)
    && (Terminal(db.task.status) ==> db.events != [] && db.events[|db.events| - 1].body == EndOf(db.task.status))
  }

  /**
   * The ledger tells of every approval request, decision and deliverable exactly once, and of nothing
   * else.
   */
  ghost predicate RecordsOk(db: DB) {
    && (forall n: nat :: Count(db.events, Asked(n)) == if n < |db.approvals| then 1 else 0)
    && (forall n: nat :: Count(db.events, Answered(n)) ==
         if n < |db.approvals| && db.approvals[n].verdict != Awaiting then 1 else 0)
    && (forall n: nat :: Count(db.events, Produced(n)) == if n < |db.deliverables| then 1 else 0)
  }

  ghost predicate LedgerOk(db: DB) {
    JournalOk(db) && RunOk(db) && RecordsOk(db)
  }

  /** An event that is about no approval and no deliverable. */
  predicate Plain(body: Body) {
    !body.ApprovalRequested? && !body.ApprovalDecided? && !body.DeliverableProduced?
  }

  lemma EveryCount(db: DB, stage: Option<nat>, body: Body)
    ensures forall tag ::
      Count(Emit(db, stage, body).events, tag)
        == Count(db.events, tag) + if Tagged(Event(db.task.eventSeq + 1, stage, body), tag) then 1 else 0
  {
    forall tag
      ensures Count(Emit(db, stage, body).events, tag)
        == Count(db.events, tag) + if Tagged(Event(db.task.eventSeq + 1, stage, body), tag) then 1 else 0
    {
      EmitCounts(db, stage, body, tag);
    }
  }

  lemma EmitKeepsRecords(db: DB, stage: Option<nat>, body: Body)
    requires RecordsOk(db) && Plain(body)
    ensures RecordsOk(Emit(db, stage, body))
  {
    EveryCount(db, stage, body);
  }

  /** A new deliverable and its event; a new approval and its request; a decision and its event. */
  lemma RecordKeepsLedger(db: DB, d: Deliverable, stage: Option<nat>)
    requires LedgerOk(db) && Live(db.task.status)
    ensures LedgerOk(Emit(CreateDeliverable(db, d), stage, DeliverableProduced(|db.deliverables|)))
  {
    var body := DeliverableProduced(|db.deliverables|);
    var g := CreateDeliverable(db, d);
    OrdinaryKeepsRun(g, stage, body);
    EveryCount(g, stage, body);
  }

  lemma AskKeepsLedger(db: DB, a: Approval, stage: Option<nat>)
    requires LedgerOk(db) && Live(db.task.status) && a.verdict == Awaiting
    ensures LedgerOk(Emit(db.(approvals := db.approvals + [a]), stage, ApprovalRequested(|db.approvals|)))
  {
    var body := ApprovalRequested(|db.approvals|);
    var g := db.(approvals := db.approvals + [a]);
    OrdinaryKeepsRun(g, stage, body);
    EveryCount(g, stage, body);
  }

  lemma AnswerKeepsLedger(db: DB, n: nat, d: Decision, feedback: Option<string>, edited: Option<string>, stage: Option<nat>)
    requires LedgerOk(db) && Live(db.task.status) && n < |db.approvals|
    requires db.approvals[n].verdict == Awaiting && VerdictOf(d) != Awaiting
    ensures LedgerOk(Emit(db.(approvals := db.approvals[n := Ledger.Decided(db.approvals[n], d, feedback, edited)]),
                          stage, ApprovalDecided(n, d)))
  {
    var body := ApprovalDecided(n, d);
    var g := db.(approvals := db.approvals[n := Ledger.Decided(db.approvals[n], d, feedback, edited)]);
    OrdinaryKeepsRun(g, stage, body);
    EveryCount(g, stage, body);
  }

  predicate Live(status: TaskStatus) {
    !Terminal(status) && status != Queued
  }

  predicate Ordinary(body: Body) {
    body != RunStarted && body != RunCompleted && body != RunFailed && body != RunCancelled
  }

  lemma EmitKeepsJournal(db: DB, stage: Option<nat>, body: Body)
    requires JournalOk(db)
    ensures JournalOk(Emit(db, stage, body))
  {
    UsageAppend(db.events, Event(db.task.eventSeq + 1, stage, body));
  }

  lemma OrdinaryKeepsRun(db: DB, stage: Option<nat>, body: Body)
    requires JournalOk(db) && RunOk(db) && Live(db.task.status) && Ordinary(body)
    ensures JournalOk(Emit(db, stage, body)) && RunOk(Emit(db, stage, body))
  {
    EmitKeepsJournal(db, stage, body);
    EmitCounts(db, stage, body, RunBegin);
    EmitCounts(db, stage, body, RunEnd);
  }

  lemma EmitKeepsLedger(db: DB, stage: Option<nat>, body: Body)
    requires LedgerOk(db) && Live(db.task.status) && Ordinary(body) && Plain(body)
    ensures LedgerOk(Emit(db, stage, body))
  {
    OrdinaryKeepsRun(db, stage, body);
    EmitKeepsRecords(db, stage, body);
  }

  lemma StatusKeepsLedger(db: DB, to: TaskStatus)
    requires LedgerOk(db) && Live(db.task.status) && Live(to)
    ensures LedgerOk(SetStatus(db, to))
  {
  }

  lemma EndKeepsLedger(db: DB, to: TaskStatus, stage: Option<nat>)
    requires LedgerOk(db) && !Terminal(db.task.status) && Terminal(to)
    requires to == Completed ==> Live(db.task.status)
    ensures LedgerOk(Emit(SetStatus(db, to), stage, EndOf(to)))
  {
    hide Count, UsageOf;
    var s := SetStatus(db, to);
    assert JournalOk(s);
    EmitKeepsJournal(s, stage, EndOf(to));
    EmitCounts(s, stage, EndOf(to), RunBegin);
    EmitCounts(s, stage, EndOf(to), RunEnd);
    assert RecordsOk(s);
    EmitKeepsRecords(s, stage, EndOf(to));
  }

  lemma DeriveKeepsLedger(db: DB)
    requires LedgerOk(db)
    ensures LedgerOk(DeriveTx(db))
  {
    var to := Derive(db.task.status, db.stages);
    if to != db.task.status {
      if to == Completed {
        EndKeepsLedger(db, to, None);
      } else {
        StatusKeepsLedger(db, to);
      }
    }
  }

  // ---- status and dependencies ------------------------------------------------------

  /**
   * The task status agrees with the stages. Only a task resumed from a pause may say "running" until
   * the status is next derived.
   */
  predicate StatusOk(db: DB, lagging: bool) {
    && (db.task.status == Derive(db.task.status, db.stages) || (lagging && db.task.status == Running))
    && (db.task.status == Completed ==> AllApproved(db.stages))
    && (db.task.status == Queued ==> forall i :: 0 <= i < |db.stages| ==> db.stages[i].status == Pending)
  }

  /** No stage has left pending before its dependencies were approved. */
  ghost predicate DepsOk(db: DB) {
    forall i :: 0 <= i < |db.stages| && db.stages[i].status != Pending ==> Ready(db.stages[i], db.stages)
  }

  ghost predicate StaticOk(cfg: Config, db: DB) {
    && |db.stages| == |cfg.specs|
    && (forall i :: 0 <= i < |db.stages| ==>
         db.stages[i].key == cfg.specs[i].id && db.stages[i].dependsOn == cfg.specs[i].dependsOn)
    && (forall n :: 0 <= n < |db.approvals| ==> db.approvals[n].stage < |db.stages|)
  }

  ghost predicate StagesOk(cfg: Config, db: DB, ros: seq<Reopened>) {
    |ros| == |db.stages| && forall i :: 0 <= i < |db.stages| ==> StageOk(RulesOf(cfg, i), ViewOf(db, i), ros[i])
  }

  ghost predicate TaskOk(cfg: Config, db: DB, ros: seq<Reopened>, lagging: bool) {
    && StaticOk(cfg, db) && StagesOk(cfg, db, ros) && LedgerOk(db) && DepsOk(db) && StatusOk(db, lagging)
  }

  // ---- how rows change -----------------------------------------------------------------

  /** Later contents of a stage row. */
  predicate Evolves(r: Stage, t: Stage) {
    && r.key == t.key && r.role == t.role && r.dependsOn == t.dependsOn
    && r.version <= t.version && (r.version == t.version ==> r == t)
    && r.attempt <= t.attempt && r.planRetryNo <= t.planRetryNo && r.deliverableRetryNo <= t.deliverableRetryNo
    && (r.status == Approved ==> t == r)
    && (PastPlan(r) ==> PastPlan(t) && t.plan == r.plan)
    && (r.status != Pending ==> t.status != Pending)
  }

  ghost predicate Advances(ss: seq<Stage>, ts: seq<Stage>) {
    |ss| == |ts| && forall i :: 0 <= i < |ss| ==> Evolves(ss[i], ts[i])
  }

  /** A decided approval never changes, and its question never does. */
  predicate Keeps(a: Approval, b: Approval) {
    && a.stage == b.stage && a.kind == b.kind && a.retryNo == b.retryNo && a.content == b.content
    && (a.verdict != Awaiting ==> b == a)
  }

  ghost predicate ApprovalsGrow(a: seq<Approval>, b: seq<Approval>) {
    |a| <= |b| && forall n :: 0 <= n < |a| ==> Keeps(a[n], b[n])
  }

  ghost predicate Grows(db: DB, f: DB) {
    && Advances(db.stages, f.stages) && ApprovalsGrow(db.approvals, f.approvals)
    && db.deliverables <= f.deliverables && db.events <= f.events && db.usage <= f.usage
    && (db.task.status != Queued ==> f.task.status != Queued)
    && (Terminal(db.task.status) ==> f == db)
  }

  lemma GrowsIsReflexive(db: DB)
    ensures Grows(db, db)
  {
  }

  lemma GrowsIsTransitive(a: DB, b: DB, c: DB)
    requires Grows(a, b) && Grows(b, c)
    ensures Grows(a, c)
  {
    forall i | 0 <= i < |a.stages| ensures Evolves(a.stages[i], c.stages[i]) {
      assert Evolves(a.stages[i], b.stages[i]) && Evolves(b.stages[i], c.stages[i]);
    }
    forall n | 0 <= n < |a.approvals| ensures Keeps(a.approvals[n], c.approvals[n]) {
      assert Keeps(a.approvals[n], b.approvals[n]) && Keeps(b.approvals[n], c.approvals[n]);
    }
  }

  /** An approved dependency stays approved. */
  lemma ReadyPersists(s: Stage, ss: seq<Stage>, ts: seq<Stage>)
    requires Ready(s, ss) && Advances(ss, ts)
    ensures Ready(s, ts)
  {
    forall d | 0 <= d < |s.dependsOn| ensures KeyApproved(s.dependsOn[d], ts) {
      assert KeyApproved(s.dependsOn[d], ss);
      var p :| 0 <= p < |ss| && ss[p].key == s.dependsOn[d] && ss[p].status == Approved;
      assert Evolves(ss[p], ts[p]);
    }
  }

  /** Stages that were past pending keep their approved dependencies. */
  lemma DepsPersist(db: DB, f: DB)
    requires DepsOk(db) && Advances(db.stages, f.stages)
    requires forall i :: 0 <= i < |db.stages| && db.stages[i].status == Pending && f.stages[i].status != Pending ==>
      Ready(db.stages[i], db.stages)
    ensures DepsOk(f)
  {
    forall i | 0 <= i < |f.stages| && f.stages[i].status != Pending ensures Ready(f.stages[i], f.stages) {
      assert Evolves(db.stages[i], f.stages[i]);
      ReadyPersists(db.stages[i], db.stages, f.stages);
    }
  }

  lemma DerivedStatusOk(db: DB)
    requires db.task.status != Completed && db.task.status != Queued
    ensures StatusOk(DeriveTx(db), false)
  {
  }

  lemma OnlyStageKeeps(cfg: Config, db: DB, f: DB, i: nat, v: View, ros: seq<Reopened>)
    requires StagesOk(cfg, db, ros) && OnlyStage(db, f, i, v) && StageOk(RulesOf(cfg, i), v, ros[i])
    ensures StagesOk(cfg, f, ros)
  {
    hide StageOk, ViewOf;
  }

  lemma SameViewsKeep(cfg: Config, db: DB, f: DB, ros: seq<Reopened>)
    requires StagesOk(cfg, db, ros) && SameViews(db, f)
    ensures StagesOk(cfg, f, ros)
  {
    hide StageOk, ViewOf;
  }

  // ---- the graph keeps a task moving -----------------------------------------------------

  /**
   * Starting from any stage that is not approved, some stage is not approved although all its
   * dependencies are.
   */
  lemma {:induction false} FirstUnapproved(cfg: Config, ss: seq<Stage>, i: nat, k: nat) returns (j: nat)
    requires ValidConfig(cfg) && |ss| == |cfg.specs| && i < |ss| && i in Pipeline.Done(cfg.specs, k)
    requires forall n :: 0 <= n < |ss| ==> ss[n].key == cfg.specs[n].id && ss[n].dependsOn == cfg.specs[n].dependsOn
    requires ss[i].status != Approved
    ensures j < |ss| && ss[j].status != Approved && Ready(ss[j], ss)
    decreases k
  {
    hide Pipeline.Next;
    if Ready(ss[i], ss) {
      j := i;
    } else {
      var d :| 0 <= d < |ss[i].dependsOn| && !KeyApproved(ss[i].dependsOn[d], ss);
      assert Pipeline.Named(cfg.specs, Pipeline.All(cfg.specs), cfg.specs[i].dependsOn[d]);
      var p :| 0 <= p < |ss| && cfg.specs[p].id == ss[i].dependsOn[d];
      assert ss[p].key == ss[i].dependsOn[d];
      Pipeline.DepsOfDone(cfg.specs, k, i, p);
      j := FirstUnapproved(cfg, ss, p, k - 1);
    }
  }

  /** Never stuck: the last branch of Derive, which keeps the old status, is never taken. */
  lemma NeverStuck(cfg: Config, ss: seq<Stage>)
    requires ValidConfig(cfg) && |ss| == |cfg.specs|
    requires forall n :: 0 <= n < |ss| ==> ss[n].key == cfg.specs[n].id && ss[n].dependsOn == cfg.specs[n].dependsOn
    ensures SomeReview(ss) || AllApproved(ss) || SomeRunnable(ss) || SomeBlocked(ss)
  {
    if !AllApproved(ss) {
      var i :| 0 <= i < |ss| && ss[i].status != Approved;
      var k: nat :| Pipeline.Done(cfg.specs, k) == Pipeline.All(cfg.specs);
      assert i in Pipeline.All(cfg.specs);
      var j := FirstUnapproved(cfg, ss, i, k);
      assert InReview(ss[j].status) || Runnable(ss[j], ss) || ss[j].status == Blocked;
    }
  }
}
