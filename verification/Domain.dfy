/** Task, stage and approval rows and the pure state rules of internal/domain. */
module Domain {
  import opened Options

  datatype TaskStatus = Queued | Running | WaitingApproval | Paused | TaskBlocked | Completed | Failed | Cancelled

  datatype StageStatus = Pending | Planning | PlanReview | Executing | DeliverableReview | Approved | Blocked

  /** The two approvals a stage may ask for. */
  datatype Kind = PlanKind | DeliverableKind

  /** Why a stage is blocked: the retry limit of one kind, or a failed publication. */
  datatype Reason = Retries(kind: Kind) | Publish

  datatype Action = Start | Pause | Resume | Cancel

  datatype Decision = Approve | Reject | Edit | Unknown(text: string)

  datatype Error =
    | InvalidTransition
    | FeedbackRequired
    | EditedContentRequired
    | BadRequest
    | AlreadyDecided
    | BudgetExceeded
    | PipelineCycle
    | Stale           // store.ErrStale: the caller's view of the stage is out of date
    | NoRow           // a conditional update with RETURNING matched nothing
    | UniqueViolation // a unique index refused an insert

  datatype Result<+T> = Ok(value: T) | Err(error: Error)

  datatype Stage = Stage(
    key: string, role: string, dependsOn: seq<string>, status: StageStatus,
    plan: Option<string>, planRetryNo: nat,
    deliverableRef: Option<string>, deliverableSummary: Option<string>, deliverableRetryNo: nat,
    lastFeedback: Option<string>, blockedReason: Option<Reason>,
    attempt: nat, version: nat, retryCount: nat)

  predicate Terminal(status: TaskStatus) {
    status == Completed || status == Failed || status == Cancelled
  }

  /** A status in which no stage may be claimed. */
  predicate Halted(status: TaskStatus) {
    Terminal(status) || status == Paused || status == TaskBlocked
  }

  function TaskTransition(status: TaskStatus, action: Action): Result<TaskStatus> {
    match action
    case Start => if status == Queued then Ok(Running) else Err(InvalidTransition)
    case Pause => if status == Running || status == WaitingApproval then Ok(Paused) else Err(InvalidTransition)
    case Resume => if status == Paused || status == TaskBlocked then Ok(Running) else Err(InvalidTransition)
    case Cancel => if !Terminal(status) then Ok(Cancelled) else Err(InvalidTransition)
  }

  predicate ReviewOf(status: StageStatus, kind: Kind) {
    match kind
    case PlanKind => status == PlanReview
    case DeliverableKind => status == DeliverableReview
  }

  predicate InReview(status: StageStatus) {
    status == PlanReview || status == DeliverableReview
  }

  /** The stage has a plan that needs no further approval: it never plans again. */
  predicate PastPlan(s: Stage) {
    || s.status == Executing || s.status == DeliverableReview || s.status == Approved
    || (s.status == Blocked && s.blockedReason != Some(Retries(PlanKind)))
  }

  function RetryNo(s: Stage, kind: Kind): nat {
    match kind
    case PlanKind => s.planRetryNo
    case DeliverableKind => s.deliverableRetryNo
  }

  function Text(s: Option<string>): string {
    if s.Some? then s.value else ""
  }

  // ---- readiness -----------------------------------------------------------

  predicate KeyApproved(key: string, stages: seq<Stage>) {
    exists p :: 0 <= p < |stages| && stages[p].key == key && stages[p].status == Approved
  }

  predicate Ready(s: Stage, stages: seq<Stage>) {
    forall d :: 0 <= d < |s.dependsOn| ==> KeyApproved(s.dependsOn[d], stages)
  }

  method IsReady(s: Stage, stages: seq<Stage>) returns (r: bool)
    ensures r == Ready(s, stages)
  {
    for d := 0 to |s.dependsOn|
      invariant forall k :: 0 <= k < d ==> KeyApproved(s.dependsOn[k], stages)
    {
      var found := false;
      for p := 0 to |stages|
        invariant !found
        invariant forall k :: 0 <= k < p ==> !(stages[k].key == s.dependsOn[d] && stages[k].status == Approved)
      {
        if stages[p].key == s.dependsOn[d] && stages[p].status == Approved {
          found := true;
          break;
        }
      }
      if !found {
        assert !KeyApproved(s.dependsOn[d], stages);
        return false;
      }
    }
    return true;
  }

  // ---- the task status derived from its stages -----------------------------

  predicate Runnable(s: Stage, stages: seq<Stage>) {
    s.status == Planning || s.status == Executing || (s.status == Pending && Ready(s, stages))
  }

  predicate SomeReview(stages: seq<Stage>) {
    exists i :: 0 <= i < |stages| && InReview(stages[i].status)
  }

  predicate SomeRunnable(stages: seq<Stage>) {
    exists i :: 0 <= i < |stages| && Runnable(stages[i], stages)
  }

  predicate SomeBlocked(stages: seq<Stage>) {
    exists i :: 0 <= i < |stages| && stages[i].status == Blocked
  }

  predicate AllApproved(stages: seq<Stage>) {
    |stages| > 0 && forall i :: 0 <= i < |stages| ==> stages[i].status == Approved
  }

  /** Statuses that only an explicit action leaves. */
  predicate Fixed(status: TaskStatus) {
    Terminal(status) || status == Paused || status == Queued
  }

  function Derive(status: TaskStatus, stages: seq<Stage>): TaskStatus {
    if Fixed(status) then status
    else if SomeReview(stages) then WaitingApproval
    else if AllApproved(stages) then Completed
    else if SomeRunnable(stages) then Running
    else if SomeBlocked(stages) then TaskBlocked
    else status
  }

  method DeriveStatus(status: TaskStatus, stages: seq<Stage>) returns (to: TaskStatus)
    ensures to == Derive(status, stages)
  {
    if Fixed(status) {
      return status;
    }
    var review, runnable, blocked, all := false, false, false, |stages| > 0;
    for i := 0 to |stages|
      invariant review <==> exists k :: 0 <= k < i && InReview(stages[k].status)
      invariant runnable <==> exists k :: 0 <= k < i && Runnable(stages[k], stages)
      invariant blocked <==> exists k :: 0 <= k < i && stages[k].status == Blocked
      invariant all <==> |stages| > 0 && forall k :: 0 <= k < i ==> stages[k].status == Approved
    {
      var s := stages[i];
      var ready := false;
      if s.status == Pending {
        ready := IsReady(s, stages);
      }
      review := review || s.status == PlanReview || s.status == DeliverableReview;
      runnable := runnable || s.status == Planning || s.status == Executing || (s.status == Pending && ready);
      blocked := blocked || s.status == Blocked;
      all := all && s.status == Approved;
    }
    if review {
      return WaitingApproval;
    }
    if all {
      return Completed;
    }
    if runnable {
      return Running;
    }
    if blocked {
      return TaskBlocked;
    }
    return status;
  }

  // ---- decisions -----------------------------------------------------------

  predicate IsSpace(c: char) {
    || c == '\t' || c == '\n' || c == '\U{000B}' || c == '\U{000C}' || c == '\r' || c == ' '
    || c == '\U{0085}' || c == '\U{00A0}' || c == '\U{1680}' || ('\U{2000}' <= c <= '\U{200A}')
    || c == '\U{2028}' || c == '\U{2029}' || c == '\U{202F}' || c == '\U{205F}' || c == '\U{3000}'
  }

  /** strings.TrimSpace leaves nothing. */
  predicate Blank(s: Option<string>) {
    forall k :: 0 <= k < |Text(s)| ==> IsSpace(Text(s)[k])
  }

  function ValidateDecision(d: Decision, feedback: Option<string>, edited: Option<string>): Option<Error> {
    match d
    case Approve => None
    case Reject => if Blank(feedback) then Some(FeedbackRequired) else None
    case Edit => if Blank(edited) then Some(EditedContentRequired) else None
    case Unknown(_) => Some(BadRequest)
  }

  /** One more rejection of a kind: back to work, or blocked at the limit. */
  function Rejected(s: Stage, kind: Kind, maxRetries: nat): Stage {
    var t := match kind
      case PlanKind => s.(status := Planning, planRetryNo := s.planRetryNo + 1)
      case DeliverableKind => s.(status := Executing, deliverableRetryNo := s.deliverableRetryNo + 1);
    var u := t.(retryCount := t.planRetryNo + t.deliverableRetryNo);
    if RetryNo(u, kind) >= maxRetries
    then u.(status := Blocked, blockedReason := Some(Retries(kind)))
    else u
  }

  function Decide(s: Stage, kind: Kind, d: Decision, feedback: Option<string>, edited: Option<string>,
                  maxRetries: nat): Result<Stage> {
    var invalid := ValidateDecision(d, feedback, edited);
    if invalid.Some? then Err(invalid.value)
    else if !ReviewOf(s.status, kind) then Err(InvalidTransition)
    else
      var t := s.(lastFeedback := feedback);
      Ok(if d == Reject then Rejected(t, kind, maxRetries)
         else match kind
           case PlanKind => if d == Edit then t.(status := Executing, plan := edited) else t.(status := Executing)
           case DeliverableKind =>
             if d == Edit then t.(status := Approved, deliverableSummary := edited) else t.(status := Approved))
  }
}
