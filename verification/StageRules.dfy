/**
 * One stage with its approvals and its share of the ledger: the invariant `StageOk`, and the changes
 * a transaction makes to it.
 */
module StageRules {
  import opened Options
  import opened Domain
  import opened Ledger
  import opened Transactions

  /** How often resuming a blocked task reopened the stage, by the kind it was blocked for. */
  datatype Reopened = Reopened(plan: nat, deliverable: nat)

  /** Everything the tables hold about one stage. */
  datatype View = View(
    row: Stage, plans: seq<Approval>, results: seq<Approval>,
    started: nat, finished: nat, latest: Option<Deliverable>)

  datatype Rules = Rules(planGate: bool, resultGate: bool, maxRetries: nat)

  function RulesOf(cfg: Config, i: nat): Rules {
    Rules(Gate(cfg, i, PlanKind), Gate(cfg, i, DeliverableKind), cfg.maxRetries)
  }

  function LatestRow(ds: seq<Deliverable>, i: nat): Option<Deliverable> {
    LatestFound(ds, i);
    if Latest(ds, i).Some? then Some(ds[Latest(ds, i).value]) else None
  }

  function ViewOf(db: DB, i: nat): View
    requires i < |db.stages|
  {
    View(db.stages[i], Of(db.approvals, i, PlanKind), Of(db.approvals, i, DeliverableKind),
         Count(db.events, Started(i)), Count(db.events, Finished(i)), LatestRow(db.deliverables, i))
  }

  // ---- the invariant ---------------------------------------------------------------

  /**
   * Approvals of a kind are numbered 0, 1, 2, ...; all but possibly the last are rejected, and the
   * retry counter `c` is the number of rejected ones.
   */
  predicate Numbered(a: seq<Approval>, c: nat) {
    && (|a| == c || |a| == c + 1)
    && (forall n :: 0 <= n < |a| ==> a[n].retryNo == n)
    && (forall n :: 0 <= n < c ==> a[n].verdict == Refused && !Blank(a[n].feedback))
    && (|a| == c + 1 ==> a[c].verdict != Refused)
    && (forall n :: 0 <= n < |a| && a[n].verdict == Awaiting ==> a[n].version == 0)
  }

  /** The last approval awaits a decision. */
  predicate Pends(a: seq<Approval>, c: nat) {
    |a| == c + 1 && a[c].verdict == Awaiting
  }

  /** The last approval was granted, or granted with an edited text. */
  predicate Granted(a: seq<Approval>, c: nat) {
    |a| == c + 1 && (a[c].verdict == Accepted || a[c].verdict == Edited)
  }

  /** The text a human let pass. */
  function GrantedText(a: seq<Approval>, c: nat): Option<string>
    requires Granted(a, c)
  {
    if a[c].verdict == Accepted then Some(a[c].content) else a[c].edited
  }

  predicate RetryOk(c: nat, maxRetries: nat, reopened: nat, blocked: bool) {
    if blocked then c == maxRetries + reopened
    else c + 1 <= maxRetries + reopened && (reopened > 0 ==> c + 1 == maxRetries + reopened)
  }

  predicate PlanOk(rules: Rules, v: View) {
    var s := v.row;
    if PastPlan(s) then
      s.plan.Some? && (rules.planGate ==> Granted(v.plans, s.planRetryNo) && GrantedText(v.plans, s.planRetryNo) == s.plan)
    else if s.status == PlanReview then
      rules.planGate && Pends(v.plans, s.planRetryNo) && s.plan == Some(v.plans[s.planRetryNo].content)
    else |v.plans| == s.planRetryNo
  }

  predicate ResultOk(rules: Rules, v: View) {
    var s := v.row;
    && (!PastPlan(s) ==> v.results == [] && s.deliverableRetryNo == 0)
    && (s.status == DeliverableReview ==>
         rules.resultGate && Pends(v.results, s.deliverableRetryNo)
         && v.latest.Some? && v.latest.value.content == v.results[s.deliverableRetryNo].content)
    && (s.status == Approved ==>
         && (rules.resultGate ==> Granted(v.results, s.deliverableRetryNo))
         && (rules.resultGate && v.results[s.deliverableRetryNo].verdict == Edited ==>
              s.deliverableSummary == v.results[s.deliverableRetryNo].edited))
    && (s.status == Executing || s.status == Blocked ==> |v.results| == s.deliverableRetryNo)
    && (s.status == DeliverableReview || s.status == Approved ==>
         v.latest.Some? && v.latest.value.ref == s.deliverableRef)
    && (s.status == DeliverableReview || (s.status == Approved && !rules.resultGate)
        || (s.status == Approved && v.results[s.deliverableRetryNo].verdict == Accepted) ==>
         s.deliverableSummary == v.latest.value.summary)
  }

  /**
   * While a stage works or waits to work again, its feedback is that of the last decision on it: the
   * last rejection of the kind it works on, or the decision that let its plan pass.
   */
  predicate FeedbackOk(v: View)
    requires Numbered(v.plans, v.row.planRetryNo) && Numbered(v.results, v.row.deliverableRetryNo)
  {
    var s := v.row;
    && (!PastPlan(s) && s.planRetryNo > 0 ==> s.lastFeedback == v.plans[s.planRetryNo - 1].feedback)
    && (PastPlan(s) && s.status != Approved && s.deliverableRetryNo > 0 ==>
         s.lastFeedback == v.results[s.deliverableRetryNo - 1].feedback)
    && (PastPlan(s) && s.status != Approved && s.deliverableRetryNo == 0 && |v.plans| > 0 ==>
         s.lastFeedback == v.plans[|v.plans| - 1].feedback)
  }

  predicate StageOk(rules: Rules, v: View, ro: Reopened) {
    var s := v.row;
    && (s.blockedReason.Some? <==> s.status == Blocked)
    && Numbered(v.plans, s.planRetryNo) && Numbered(v.results, s.deliverableRetryNo)
    && (!rules.planGate ==> v.plans == []) && (!rules.resultGate ==> v.results == [])
    && PlanOk(rules, v) && ResultOk(rules, v) && FeedbackOk(v)
    && RetryOk(s.planRetryNo, rules.maxRetries, ro.plan, s.blockedReason == Some(Retries(PlanKind)))
    && RetryOk(s.deliverableRetryNo, rules.maxRetries, ro.deliverable, s.blockedReason == Some(Retries(DeliverableKind)))
    && s.retryCount == s.planRetryNo + s.deliverableRetryNo
    && v.started == (if s.status == Pending then 0 else 1)
    && v.finished == (if s.status == Approved then 1 else 0)
  }

  // ---- changes of one stage ------------------------------------------------------------

  function ClaimView(v: View, mode: Mode): View {
    var s := v.row;
    v.(row := s.(status := ClaimedStatus(mode), attempt := s.attempt + 1, version := s.version + 1),
       started := v.started + if s.status == Pending then 1 else 0)
  }

  function NewApproval(i: nat, kind: Kind, retryNo: nat, content: string): Approval {
    Approval(i, kind, retryNo, Awaiting, content, None, None, 0)
  }

  function CommitView(v: View, c: Claim, r: RunResult, gated: bool): View {
    var row := Overwrite(v.row, Finish(c, r, gated));
    var ask := if gated then [NewApproval(c.stage, KindOf(c.mode), RetryNo(c.row, KindOf(c.mode)), r.content)] else [];
    match c.mode
    case PlanMode => v.(row := row, plans := v.plans + ask)
    case ExecuteMode =>
      v.(row := row, results := v.results + ask,
         finished := v.finished + (if gated then 0 else 1),
         latest := Some(Deliverable(c.stage, r.ref, r.content, Some(Truncate(r.content, 400)))))
  }

  function BlockView(v: View, c: Claim): View {
    v.(row := Overwrite(v.row, c.row.(status := Blocked, blockedReason := Some(Publish))))
  }

  /** The last approval of `kind` is decided; `s` is the stage after Decide. */
  function DecideView(v: View, s: Stage, kind: Kind, d: Decision, feedback: Option<string>, edited: Option<string>): View
    requires kind == PlanKind ==> |v.plans| > 0
    requires kind == DeliverableKind ==> |v.results| > 0
  {
    var w := v.(row := Overwrite(v.row, s), finished := v.finished + if s.status == Approved then 1 else 0);
    match kind
    case PlanKind =>
      var last := |v.plans| - 1;
      w.(plans := v.plans[last := Ledger.Decided(v.plans[last], d, feedback, edited)])
    case DeliverableKind =>
      var last := |v.results| - 1;
      w.(results := v.results[last := Ledger.Decided(v.results[last], d, feedback, edited)])
  }

  function ReopenCount(s: Stage, ro: Reopened): Reopened {
    if s.status != Blocked then ro
    else match s.blockedReason
      case Some(Retries(PlanKind)) => ro.(plan := ro.plan + 1)
      case Some(Retries(DeliverableKind)) => ro.(deliverable := ro.deliverable + 1)
      case _ => ro
  }

  // ---- each change keeps the invariant ----------------------------------------------------

  lemma ClaimKeepsStage(rules: Rules, v: View, ro: Reopened, mode: Mode)
    requires StageOk(rules, v, ro)
    requires match mode
      case PlanMode => v.row.status == Pending || v.row.status == Planning
      case ExecuteMode => v.row.status == Executing
    ensures StageOk(rules, ClaimView(v, mode), ro)
  {
  }

  lemma PlanKeepsStage(rules: Rules, v: View, ro: Reopened, c: Claim, r: RunResult)
    requires StageOk(rules, v, ro) && c.row == v.row && c.mode == PlanMode && c.row.status == Planning
    ensures StageOk(rules, CommitView(v, c, r, rules.planGate), ro)
  {
  }

  lemma ExecutionKeepsStage(rules: Rules, v: View, ro: Reopened, c: Claim, r: RunResult)
    requires StageOk(rules, v, ro) && c.row == v.row && c.mode == ExecuteMode && c.row.status == Executing
    requires c.plan == Text(v.row.plan)
    ensures StageOk(rules, CommitView(v, c, r, rules.resultGate), ro)
  {
  }

  lemma CommitKeepsStage(rules: Rules, v: View, ro: Reopened, c: Claim, r: RunResult)
    requires StageOk(rules, v, ro) && c.row == v.row && c.row.status == ClaimedStatus(c.mode)
    requires c.mode == ExecuteMode ==> c.plan == Text(v.row.plan)
    ensures StageOk(rules, CommitView(v, c, r, if c.mode == PlanMode then rules.planGate else rules.resultGate), ro)
  {
    hide StageOk, CommitView;
    if c.mode == PlanMode {
      PlanKeepsStage(rules, v, ro, c, r);
    } else {
      ExecutionKeepsStage(rules, v, ro, c, r);
    }
  }

  lemma BlockKeepsStage(rules: Rules, v: View, ro: Reopened, c: Claim)
    requires StageOk(rules, v, ro) && c.row == v.row && v.row.status == Executing
    ensures StageOk(rules, BlockView(v, c), ro)
  {
  }

  lemma ReviewHasApproval(rules: Rules, v: View, ro: Reopened)
    requires StageOk(rules, v, ro)
    ensures v.row.status == PlanReview ==> |v.plans| > 0
    ensures v.row.status == DeliverableReview ==> |v.results| > 0
  {
  }

  lemma DecidePlanKeepsStage(rules: Rules, v: View, ro: Reopened, d: Decision,
                             feedback: Option<string>, edited: Option<string>)
    requires StageOk(rules, v, ro) && rules.maxRetries > 0
    requires Decide(v.row, PlanKind, d, feedback, edited, rules.maxRetries).Ok? && |v.plans| > 0
    ensures var s := Decide(v.row, PlanKind, d, feedback, edited, rules.maxRetries).value;
      StageOk(rules, DecideView(v, s, PlanKind, d, feedback, edited), ro)
  {
    assert edited.None? ==> Blank(edited);
  }

  lemma DecideResultKeepsStage(rules: Rules, v: View, ro: Reopened, d: Decision,
                               feedback: Option<string>, edited: Option<string>)
    requires StageOk(rules, v, ro) && rules.maxRetries > 0
    requires Decide(v.row, DeliverableKind, d, feedback, edited, rules.maxRetries).Ok? && |v.results| > 0
    ensures var s := Decide(v.row, DeliverableKind, d, feedback, edited, rules.maxRetries).value;
      StageOk(rules, DecideView(v, s, DeliverableKind, d, feedback, edited), ro)
  {
    if d == Reject {
    } else if d == Edit {
    } else {
    }
  }

  lemma DecideKeepsStage(rules: Rules, v: View, ro: Reopened, kind: Kind, d: Decision,
                         feedback: Option<string>, edited: Option<string>)
    requires StageOk(rules, v, ro) && rules.maxRetries > 0
    requires Decide(v.row, kind, d, feedback, edited, rules.maxRetries).Ok?
    ensures kind == PlanKind ==> |v.plans| > 0
    ensures kind == DeliverableKind ==> |v.results| > 0
    ensures var s := Decide(v.row, kind, d, feedback, edited, rules.maxRetries).value;
      StageOk(rules, DecideView(v, s, kind, d, feedback, edited), ro)
  {
    hide StageOk, DecideView;
    ReviewHasApproval(rules, v, ro);
    if kind == PlanKind {
      DecidePlanKeepsStage(rules, v, ro, d, feedback, edited);
    } else {
      DecideResultKeepsStage(rules, v, ro, d, feedback, edited);
    }
  }

  lemma ReopenKeepsStage(rules: Rules, v: View, ro: Reopened)
    requires StageOk(rules, v, ro)
    ensures StageOk(rules, v.(row := Reopen(v.row)), ReopenCount(v.row, ro))
  {
  }
}
