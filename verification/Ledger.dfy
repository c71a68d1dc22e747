/** The rows of one task and the SQL statements that read and change them. */
module Ledger {
  import opened Options
  import opened Domain

  datatype Task = Task(status: TaskStatus, version: nat, eventSeq: nat, tokenBudget: nat)

  datatype Verdict = Awaiting | Accepted | Refused | Edited

  datatype Approval = Approval(
    stage: nat, kind: Kind, retryNo: nat, verdict: Verdict, content: string,
    feedback: Option<string>, edited: Option<string>, version: nat)

  datatype Deliverable = Deliverable(stage: nat, ref: Option<string>, content: string, summary: Option<string>)

  datatype Body =
    | RunStarted | RunPaused(byBudget: bool) | RunResumed | RunCompleted | RunFailed | RunCancelled
    | StageStarted | StageCompleted(deliverable: nat) | StageBlocked(reason: Reason)
    | DeliverableProduced(deliverable: nat)
    | ApprovalRequested(approval: nat) | ApprovalDecided(approval: nat, decision: Decision)
    | AgentActivity(text: string) | PullRequestOpened(url: string) | Usage(tokens: nat)

  datatype Event = Event(number: nat, stage: Option<nat>, body: Body)

  /** A row's identifier is its position; rows are never deleted. */
  datatype DB = DB(
    task: Task, stages: seq<Stage>, approvals: seq<Approval>, deliverables: seq<Deliverable>,
    events: seq<Event>, usage: seq<nat>)

  // ---- statements --------------------------------------------------------------

  /** updateTaskStatus, with the version read under the same lock. */
  function SetStatus(db: DB, status: TaskStatus): DB {
    db.(task := db.task.(status := status, version := db.task.version + 1))
  }

  /** Emitter.Emit: next sequence number, event row, and a usage row for a usage event. */
  function Emit(db: DB, stage: Option<nat>, body: Body): DB {
    var n := db.task.eventSeq + 1;
    db.(task := db.task.(eventSeq := n),
        events := db.events + [Event(n, stage, body)],
        usage := if body.Usage? then db.usage + [body.tokens] else db.usage)
  }

  /** updateStage writes these columns of `s` over the row, and bumps the version. */
  function Overwrite(row: Stage, s: Stage): Stage {
    row.(status := s.status, plan := s.plan, planRetryNo := s.planRetryNo,
         deliverableRef := s.deliverableRef, deliverableSummary := s.deliverableSummary,
         deliverableRetryNo := s.deliverableRetryNo, lastFeedback := s.lastFeedback,
         blockedReason := s.blockedReason, retryCount := s.planRetryNo + s.deliverableRetryNo,
         version := row.version + 1)
  }

  /** The row is the one the caller last saw: same attempt, status and version. */
  predicate UpdateMatches(row: Stage, s: Stage, oldStatus: StageStatus) {
    row.attempt == s.attempt && row.status == oldStatus && row.version == s.version
  }

  function UpdateStage(db: DB, i: nat, s: Stage, oldStatus: StageStatus): Result<DB> {
    if i < |db.stages| && UpdateMatches(db.stages[i], s, oldStatus)
    then Ok(db.(stages := db.stages[i := Overwrite(db.stages[i], s)]))
    else Err(Stale)
  }

  /** claimStage tests attempt and status, but not the version. */
  function ClaimStage(db: DB, i: nat, attempt: nat, oldStatus: StageStatus, to: StageStatus): Result<DB> {
    if i < |db.stages| && db.stages[i].attempt == attempt && db.stages[i].status == oldStatus then
      var row := db.stages[i];
      Ok(db.(stages := db.stages[i := row.(status := to, attempt := row.attempt + 1, version := row.version + 1)]))
    else Err(NoRow)
  }

  /** ux_approval_stage_pending: at most one pending approval a stage. */
  predicate PendingTaken(approvals: seq<Approval>, stage: nat) {
    exists n :: 0 <= n < |approvals| && approvals[n].stage == stage && approvals[n].verdict == Awaiting
  }

  /** ux_approval_stage_kind_retry: one approval for each stage, kind and retry number. */
  predicate NumberTaken(approvals: seq<Approval>, stage: nat, kind: Kind, retryNo: nat) {
    exists n :: 0 <= n < |approvals| && approvals[n].stage == stage && approvals[n].kind == kind
      && approvals[n].retryNo == retryNo
  }

  function CreateApproval(db: DB, stage: nat, kind: Kind, retryNo: nat, content: string): Result<DB> {
    if PendingTaken(db.approvals, stage) || NumberTaken(db.approvals, stage, kind, retryNo)
    then Err(UniqueViolation)
    else Ok(db.(approvals := db.approvals + [Approval(stage, kind, retryNo, Awaiting, content, None, None, 0)]))
  }

  function VerdictOf(d: Decision): Verdict {
    match d
    case Approve => Accepted
    case Reject => Refused
    case Edit => Edited
    case Unknown(_) => Awaiting
  }

  function Decided(a: Approval, d: Decision, feedback: Option<string>, edited: Option<string>): Approval {
    a.(verdict := VerdictOf(d), feedback := feedback, edited := edited, version := a.version + 1)
  }

  function CreateDeliverable(db: DB, d: Deliverable): DB {
    db.(deliverables := db.deliverables + [d])
  }

  /** latestDeliverableID: the newest deliverable of a stage. */
  function Latest(ds: seq<Deliverable>, stage: nat): Option<nat> {
    if ds == [] then None
    else if ds[|ds| - 1].stage == stage then Some(|ds| - 1)
    else Latest(ds[..|ds| - 1], stage)
  }

  /** taskTokensUsed */
  function Sum(usage: seq<nat>): nat {
    if usage == [] then 0 else Sum(usage[..|usage| - 1]) + usage[|usage| - 1]
  }

  // ---- projections used to state properties -------------------------------------

  /** The approvals of one stage and kind, in the order they were requested. */
  function Of(approvals: seq<Approval>, stage: nat, kind: Kind): seq<Approval> {
    if approvals == [] then []
    else
      var a := approvals[|approvals| - 1];
      Of(approvals[..|approvals| - 1], stage, kind) + if a.stage == stage && a.kind == kind then [a] else []
  }

  datatype Tag =
    | Started(stage: nat) | Finished(stage: nat) | RunBegin | RunEnd
    | Asked(approval: nat) | Answered(approval: nat) | Produced(deliverable: nat)

  predicate Tagged(e: Event, tag: Tag) {
    match tag
    case Started(i) => e.stage == Some(i) && e.body == StageStarted
    case Finished(i) => e.stage == Some(i) && e.body.StageCompleted?
    case RunBegin => e.body == RunStarted
    case RunEnd => e.body == RunCompleted || e.body == RunFailed || e.body == RunCancelled
    case Asked(n) => e.body == ApprovalRequested(n)
    case Answered(n) => e.body.ApprovalDecided? && e.body.approval == n
    case Produced(d) => e.body == DeliverableProduced(d)
  }

  function Count(events: seq<Event>, tag: Tag): nat {
    if events == [] then 0
    else Count(events[..|events| - 1], tag) + if Tagged(events[|events| - 1], tag) then 1 else 0
  }

  /** The amounts of the usage events, in order. */
  function UsageOf(events: seq<Event>): seq<nat> {
    if events == [] then []
    else
      var b := events[|events| - 1].body;
      UsageOf(events[..|events| - 1]) + if b.Usage? then [b.tokens] else []
  }

  lemma OfAppend(approvals: seq<Approval>, a: Approval, stage: nat, kind: Kind)
    ensures Of(approvals + [a], stage, kind)
         == Of(approvals, stage, kind) + if a.stage == stage && a.kind == kind then [a] else []
  {
    assert (approvals + [a])[..|approvals|] == approvals;
  }

  /** How many earlier approvals share the stage and kind of approval `n`. */
  function Rank(approvals: seq<Approval>, n: nat): nat
    requires n < |approvals|
  {
    |Of(approvals[..n], approvals[n].stage, approvals[n].kind)|
  }

  lemma {:induction false} OfAt(approvals: seq<Approval>, n: nat)
    requires n < |approvals|
    ensures var a := approvals[n];
      Rank(approvals, n) < |Of(approvals, a.stage, a.kind)| && Of(approvals, a.stage, a.kind)[Rank(approvals, n)] == a
  {
    var front := approvals[..|approvals| - 1];
    if n < |front| {
      OfAt(front, n);
      assert front[..n] == approvals[..n];
    } else {
      assert front == approvals[..n];
    }
  }

  lemma {:induction false} OfUpdate(approvals: seq<Approval>, n: nat, a: Approval, stage: nat, kind: Kind)
    requires n < |approvals| && a.stage == approvals[n].stage && a.kind == approvals[n].kind
    ensures Rank(approvals, n) < |Of(approvals, a.stage, a.kind)|
    ensures Of(approvals[n := a], stage, kind)
         == if a.stage == stage && a.kind == kind then Of(approvals, stage, kind)[Rank(approvals, n) := a]
            else Of(approvals, stage, kind)
  {
    OfAt(approvals, n);
    var front := approvals[..|approvals| - 1];
    if n < |front| {
      OfUpdate(front, n, a, stage, kind);
      assert approvals[n := a][..|front|] == front[n := a];
      assert front[..n] == approvals[..n];
    } else {
      assert approvals[n := a][..|front|] == front;
      assert front == approvals[..n];
    }
  }

  /** Every approval in the projection is an approval of that stage and kind. */
  lemma {:induction false} OfSound(approvals: seq<Approval>, stage: nat, kind: Kind, m: nat)
    requires m < |Of(approvals, stage, kind)|
    ensures Of(approvals, stage, kind)[m].stage == stage && Of(approvals, stage, kind)[m].kind == kind
  {
    var front := approvals[..|approvals| - 1];
    if m < |Of(front, stage, kind)| {
      OfSound(front, stage, kind, m);
    }
  }

  lemma CountAppend(events: seq<Event>, e: Event, tag: Tag)
    ensures Count(events + [e], tag) == Count(events, tag) + if Tagged(e, tag) then 1 else 0
  {
    assert (events + [e])[..|events|] == events;
  }

  lemma UsageAppend(events: seq<Event>, e: Event)
    ensures UsageOf(events + [e]) == UsageOf(events) + if e.body.Usage? then [e.body.tokens] else []
  {
    assert (events + [e])[..|events|] == events;
  }

  lemma LatestAppend(ds: seq<Deliverable>, d: Deliverable, stage: nat)
    ensures Latest(ds + [d], stage) == if d.stage == stage then Some(|ds|) else Latest(ds, stage)
  {
    assert (ds + [d])[..|ds|] == ds;
  }

  lemma {:induction false} LatestFound(ds: seq<Deliverable>, stage: nat)
    ensures Latest(ds, stage).Some? ==>
      Latest(ds, stage).value < |ds| && ds[Latest(ds, stage).value].stage == stage
  {
    if ds != [] && ds[|ds| - 1].stage != stage {
      LatestFound(ds[..|ds| - 1], stage);
    }
  }

  lemma SumAppend(usage: seq<nat>, n: nat)
    ensures Sum(usage + [n]) == Sum(usage) + n
  {
    assert (usage + [n])[..|usage|] == usage;
  }
}
