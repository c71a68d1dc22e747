/** Each transaction, seen stage by stage: it changes the view of at most one stage. */
module StageViews {
  import opened Options
  import opened Domain
  import opened Ledger
  import opened Transactions
  import opened StageRules

  /** `f` holds the same stages as `db`, and only stage `i` may look different: as `v`. */
  ghost predicate OnlyStage(db: DB, f: DB, i: nat, v: View) {
    && |f.stages| == |db.stages| && i < |db.stages|
    && forall j :: 0 <= j < |db.stages| ==> ViewOf(f, j) == if j == i then v else ViewOf(db, j)
  }

  ghost predicate SameViews(db: DB, f: DB) {
    && |f.stages| == |db.stages|
    && forall j :: 0 <= j < |db.stages| ==> ViewOf(f, j) == ViewOf(db, j)
  }

  lemma EmitCounts(db: DB, stage: Option<nat>, body: Body, tag: Tag)
    ensures var e := Event(db.task.eventSeq + 1, stage, body);
      Count(Emit(db, stage, body).events, tag) == Count(db.events, tag) + if Tagged(e, tag) then 1 else 0
  {
    CountAppend(db.events, Event(db.task.eventSeq + 1, stage, body), tag);
  }

  /** An event moves the counters of its own stage only. */
  lemma ViewEmit(db: DB, stage: Option<nat>, body: Body, j: nat)
    requires j < |db.stages|
    ensures var v := ViewOf(db, j);
      ViewOf(Emit(db, stage, body), j)
        == v.(started := v.started + if stage == Some(j) && body.StageStarted? then 1 else 0,
              finished := v.finished + if stage == Some(j) && body.StageCompleted? then 1 else 0)
  {
    EmitCounts(db, stage, body, Started(j));
    EmitCounts(db, stage, body, Finished(j));
  }

  lemma DeriveKeepsViews(db: DB)
    ensures SameViews(db, DeriveTx(db))
  {
    var to := Derive(db.task.status, db.stages);
    if to == Completed && to != db.task.status {
      forall j | 0 <= j < |db.stages| ensures ViewOf(DeriveTx(db), j) == ViewOf(db, j) {
        ViewEmit(SetStatus(db, to), None, RunCompleted, j);
        assert ViewOf(SetStatus(db, to), j) == ViewOf(db, j);
      }
    }
  }

  lemma StatusEventKeepsViews(db: DB, to: TaskStatus, stage: Option<nat>, body: Body)
    requires !body.StageStarted? && !body.StageCompleted?
    ensures SameViews(db, Emit(SetStatus(db, to), stage, body))
  {
    forall j | 0 <= j < |db.stages| ensures ViewOf(Emit(SetStatus(db, to), stage, body), j) == ViewOf(db, j) {
      ViewEmit(SetStatus(db, to), stage, body, j);
      assert ViewOf(SetStatus(db, to), j) == ViewOf(db, j);
    }
  }

  lemma ClaimViews(db: DB, i: nat, s: Stage, mode: Mode)
    requires ClaimTx(db, i, s, mode).Ok? && s.status == db.stages[i].status
    ensures OnlyStage(db, ClaimTx(db, i, s, mode).value, i, ClaimView(ViewOf(db, i), mode))
  {
    var u := ClaimStage(db, i, s.attempt, s.status, ClaimedStatus(mode)).value;
    if s.status == Pending {
      forall j | 0 <= j < |db.stages|
        ensures ViewOf(Emit(u, Some(i), StageStarted), j)
             == if j == i then ClaimView(ViewOf(db, i), mode) else ViewOf(db, j)
      {
        ViewEmit(u, Some(i), StageStarted, j);
        assert j != i ==> ViewOf(u, j) == ViewOf(db, j);
      }
    }
  }

  lemma ViewApproval(db: DB, a: Approval, j: nat)
    requires j < |db.stages|
    ensures ViewOf(db.(approvals := db.approvals + [a]), j)
         == ViewOf(db, j).(
              plans := ViewOf(db, j).plans + (if a.stage == j && a.kind == PlanKind then [a] else []),
              results := ViewOf(db, j).results + (if a.stage == j && a.kind == DeliverableKind then [a] else []))
  {
    OfAppend(db.approvals, a, j, PlanKind);
    OfAppend(db.approvals, a, j, DeliverableKind);
  }

  lemma ViewDeliverable(db: DB, d: Deliverable, j: nat)
    requires j < |db.stages|
    ensures ViewOf(CreateDeliverable(db, d), j)
         == ViewOf(db, j).(latest := if d.stage == j then Some(d) else ViewOf(db, j).latest)
  {
    LatestAppend(db.deliverables, d, j);
    LatestFound(db.deliverables, j);
  }

  /** The rows of a commit before the task status is derived again. */
  function Committed(db: DB, c: Claim, r: RunResult, gated: bool): DB
    requires c.stage < |db.stages|
  {
    var u := db.(stages := db.stages[c.stage := Overwrite(db.stages[c.stage], Finish(c, r, gated))]);
    var d := if c.mode == ExecuteMode then RecordDeliverable(u, c.stage, r) else u;
    if gated then
      var a := NewApproval(c.stage, KindOf(c.mode), RetryNo(c.row, KindOf(c.mode)), r.content);
      Emit(d.(approvals := d.approvals + [a]), Some(c.stage), ApprovalRequested(|d.approvals|))
    else if c.mode == ExecuteMode then Emit(d, Some(c.stage), StageCompleted(|db.deliverables|))
    else d
  }

  lemma CommitIsCommitted(cfg: Config, db: DB, c: Claim, r: RunResult)
    requires CommitTx(cfg, db, c, r).Ok?
    ensures c.stage < |db.stages|
    ensures CommitTx(cfg, db, c, r).value == DeriveTx(Committed(db, c, r, Gate(cfg, c.stage, KindOf(c.mode))))
  {
  }

  lemma RecordViews(db: DB, i: nat, r: RunResult, j: nat)
    requires j < |db.stages|
    ensures ViewOf(RecordDeliverable(db, i, r), j)
         == ViewOf(db, j).(latest := if i == j then Some(Deliverable(i, r.ref, r.content, Some(Truncate(r.content, 400))))
                                     else ViewOf(db, j).latest)
  {
    var row := Deliverable(i, r.ref, r.content, Some(Truncate(r.content, 400)));
    ViewDeliverable(db, row, j);
    ViewEmit(CreateDeliverable(db, row), Some(i), DeliverableProduced(|db.deliverables|), j);
  }

  lemma AskViews(db: DB, i: nat, a: Approval, n: nat, j: nat)
    requires j < |db.stages| && a.stage == i
    ensures var f := Emit(db.(approvals := db.approvals + [a]), Some(i), ApprovalRequested(n));
      ViewOf(f, j) == if i != j then ViewOf(db, j)
                      else ViewOf(db, j).(
                        plans := ViewOf(db, j).plans + (if a.kind == PlanKind then [a] else []),
                        results := ViewOf(db, j).results + (if a.kind == DeliverableKind then [a] else []))
  {
    ViewApproval(db, a, j);
    ViewEmit(db.(approvals := db.approvals + [a]), Some(i), ApprovalRequested(n), j);
  }

  lemma CommittedViews(db: DB, c: Claim, r: RunResult, gated: bool)
    requires c.stage < |db.stages|
    ensures OnlyStage(db, Committed(db, c, r, gated), c.stage, CommitView(ViewOf(db, c.stage), c, r, gated))
  {
    var i := c.stage;
    var f := Committed(db, c, r, gated);
    var u := db.(stages := db.stages[i := Overwrite(db.stages[i], Finish(c, r, gated))]);
    var d := if c.mode == ExecuteMode then RecordDeliverable(u, i, r) else u;
    var a := NewApproval(i, KindOf(c.mode), RetryNo(c.row, KindOf(c.mode)), r.content);
    forall j | 0 <= j < |db.stages|
      ensures ViewOf(f, j) == if j == i then CommitView(ViewOf(db, i), c, r, gated) else ViewOf(db, j)
    {
      RecordViews(u, i, r, j);
      if gated {
        AskViews(d, i, a, |d.approvals|, j);
      } else if c.mode == ExecuteMode {
        ViewEmit(d, Some(i), StageCompleted(|db.deliverables|), j);
      }
    }
  }

  lemma CommitViews(cfg: Config, db: DB, c: Claim, r: RunResult)
    requires CommitTx(cfg, db, c, r).Ok?
    ensures c.stage < |db.stages|
    ensures OnlyStage(db, CommitTx(cfg, db, c, r).value, c.stage,
                      CommitView(ViewOf(db, c.stage), c, r, Gate(cfg, c.stage, KindOf(c.mode))))
  {
    CommitIsCommitted(cfg, db, c, r);
    var gated := Gate(cfg, c.stage, KindOf(c.mode));
    CommittedViews(db, c, r, gated);
    DeriveKeepsViews(Committed(db, c, r, gated));
  }

  lemma BlockViews(db: DB, c: Claim)
    requires BlockTx(db, c).Ok? && !Terminal(db.task.status)
    ensures c.stage < |db.stages|
    ensures OnlyStage(db, BlockTx(db, c).value, c.stage, BlockView(ViewOf(db, c.stage), c))
  {
    var i := c.stage;
    var u := UpdateStage(db, i, c.row.(status := Blocked, blockedReason := Some(Publish)), c.row.status).value;
    var e := Emit(u, Some(i), StageBlocked(Publish));
    forall j | 0 <= j < |db.stages|
      ensures ViewOf(e, j) == if j == i then BlockView(ViewOf(db, i), c) else ViewOf(db, j)
    {
      ViewEmit(u, Some(i), StageBlocked(Publish), j);
    }
    DeriveKeepsViews(e);
  }

  /** Deciding approval `n` changes one element of one projection. */
  lemma ViewDecided(db: DB, n: nat, d: Decision, feedback: Option<string>, edited: Option<string>, j: nat)
    requires n < |db.approvals| && j < |db.stages|
    ensures var a := db.approvals[n];
      var b := Ledger.Decided(a, d, feedback, edited);
      var v := ViewOf(db, j);
      && Rank(db.approvals, n) < |Of(db.approvals, a.stage, a.kind)|
      && Of(db.approvals, a.stage, a.kind)[Rank(db.approvals, n)] == a
      && ViewOf(db.(approvals := db.approvals[n := b]), j)
         == if a.stage != j then v
            else if a.kind == PlanKind then v.(plans := v.plans[Rank(db.approvals, n) := b])
            else v.(results := v.results[Rank(db.approvals, n) := b])
  {
    var b := Ledger.Decided(db.approvals[n], d, feedback, edited);
    OfAt(db.approvals, n);
    OfUpdate(db.approvals, n, b, j, PlanKind);
    OfUpdate(db.approvals, n, b, j, DeliverableKind);
  }

  lemma SettleViews(db: DB, i: nat, kind: Kind, s: Stage, j: nat)
    requires j < |db.stages| && SettleStage(db, i, kind, s).Ok?
    ensures |SettleStage(db, i, kind, s).value.stages| == |db.stages|
    ensures ViewOf(SettleStage(db, i, kind, s).value, j)
         == ViewOf(db, j).(finished := ViewOf(db, j).finished + if i == j && s.status == Approved then 1 else 0)
  {
    if s.status == Blocked {
      ViewEmit(db, Some(i), StageBlocked(Retries(kind)), j);
    } else if s.status == Approved {
      ViewEmit(db, Some(i), StageCompleted(Latest(db.deliverables, i).value), j);
    }
  }

  /** The rows of a decision before the stage is settled and the task status derived. */
  function DecidedRows(db: DB, n: nat, s: Stage, d: Decision, feedback: Option<string>, edited: Option<string>): DB
    requires n < |db.approvals| && db.approvals[n].stage < |db.stages|
  {
    var a := db.approvals[n];
    var db1 := db.(approvals := db.approvals[n := Ledger.Decided(a, d, feedback, edited)],
                   stages := db.stages[a.stage := Overwrite(db.stages[a.stage], s)]);
    Emit(db1, Some(a.stage), ApprovalDecided(n, d))
  }

  lemma DecideIsDecided(cfg: Config, db: DB, n: nat, version: nat, d: Decision,
                        feedback: Option<string>, edited: Option<string>)
    requires DecideTx(cfg, db, n, version, d, feedback, edited).Ok?
    ensures n < |db.approvals| && db.approvals[n].stage < |db.stages| && db.approvals[n].verdict == Awaiting
    ensures db.approvals[n].version == version && !Terminal(db.task.status)
    ensures var a := db.approvals[n];
      var s := Decide(db.stages[a.stage], a.kind, d, feedback, edited, cfg.maxRetries);
      && s.Ok?
      && SettleStage(DecidedRows(db, n, s.value, d, feedback, edited), a.stage, a.kind, s.value).Ok?
      && DecideTx(cfg, db, n, version, d, feedback, edited).value
         == DeriveTx(SettleStage(DecidedRows(db, n, s.value, d, feedback, edited), a.stage, a.kind, s.value).value)
  {
  }

  /** The approval decided is the last of its kind: a pending approval is never followed by another. */
  lemma PendingIsLast(rules: Rules, db: DB, n: nat, ro: Reopened)
    requires n < |db.approvals| && db.approvals[n].stage < |db.stages| && db.approvals[n].verdict == Awaiting
    requires StageOk(rules, ViewOf(db, db.approvals[n].stage), ro)
    ensures var a := db.approvals[n];
      var l := Of(db.approvals, a.stage, a.kind);
      Rank(db.approvals, n) == |l| - 1 && l[|l| - 1] == a
      && ReviewOf(db.stages[a.stage].status, a.kind) && a.version == 0
      && |l| == RetryNo(db.stages[a.stage], a.kind) + 1
  {
    OfAt(db.approvals, n);
    var v := ViewOf(db, db.approvals[n].stage);
    match db.approvals[n].kind {
      case PlanKind => AwaitingIsLast(v.plans, v.row.planRetryNo, Rank(db.approvals, n));
      case DeliverableKind => AwaitingIsLast(v.results, v.row.deliverableRetryNo, Rank(db.approvals, n));
    }
  }

  lemma AwaitingIsLast(l: seq<Approval>, c: nat, m: nat)
    requires Numbered(l, c) && m < |l| && l[m].verdict == Awaiting
    ensures m == c && |l| == c + 1 && l[m].version == 0 && Pends(l, c)
  {
  }

  lemma DecideViews(cfg: Config, db: DB, n: nat, version: nat, d: Decision,
                    feedback: Option<string>, edited: Option<string>, ro: Reopened)
    requires DecideTx(cfg, db, n, version, d, feedback, edited).Ok?
    requires StageOk(RulesOf(cfg, db.approvals[n].stage), ViewOf(db, db.approvals[n].stage), ro)
    ensures var a := db.approvals[n];
      var s := Decide(db.stages[a.stage], a.kind, d, feedback, edited, cfg.maxRetries);
      && a.stage < |db.stages| && s.Ok?
      && (a.kind == PlanKind ==> |ViewOf(db, a.stage).plans| > 0)
      && (a.kind == DeliverableKind ==> |ViewOf(db, a.stage).results| > 0)
      && OnlyStage(db, DecideTx(cfg, db, n, version, d, feedback, edited).value, a.stage,
                   DecideView(ViewOf(db, a.stage), s.value, a.kind, d, feedback, edited))
  {
    DecideIsDecided(cfg, db, n, version, d, feedback, edited);
    var a := db.approvals[n];
    var i := a.stage;
    PendingIsLast(RulesOf(cfg, i), db, n, ro);
    var s := Decide(db.stages[i], a.kind, d, feedback, edited, cfg.maxRetries).value;
    var rows := DecidedRows(db, n, s, d, feedback, edited);
    var f := SettleStage(rows, i, a.kind, s).value;
    forall j | 0 <= j < |db.stages|
      ensures ViewOf(f, j) == if j == i then DecideView(ViewOf(db, i), s, a.kind, d, feedback, edited) else ViewOf(db, j)
    {
      SettledViews(db, n, s, d, feedback, edited, j);
    }
    DeriveKeepsViews(f);
  }

  lemma SettledViews(db: DB, n: nat, s: Stage, d: Decision, feedback: Option<string>, edited: Option<string>, j: nat)
    requires n < |db.approvals| && db.approvals[n].stage < |db.stages| && j < |db.stages|
    requires Rank(db.approvals, n) == |Of(db.approvals, db.approvals[n].stage, db.approvals[n].kind)| - 1
    requires var a := db.approvals[n];
      SettleStage(DecidedRows(db, n, s, d, feedback, edited), a.stage, a.kind, s).Ok?
    ensures var a := db.approvals[n];
      var f := SettleStage(DecidedRows(db, n, s, d, feedback, edited), a.stage, a.kind, s).value;
      |f.stages| == |db.stages| && ViewOf(f, j) == if j == a.stage then DecideView(ViewOf(db, j), s, a.kind, d, feedback, edited) else ViewOf(db, j)
  {
    hide Of, Rank, Count, LatestRow, Emit, Overwrite;
    DecidedRowsViews(db, n, s, d, feedback, edited, j);
    var rows := DecidedRows(db, n, s, d, feedback, edited);
    var a := db.approvals[n];
    SettleViews(rows, a.stage, a.kind, s, j);
    if j == a.stage {
      var w := DecideView(ViewOf(db, j), s, a.kind, d, feedback, edited);
      match a.kind {
        case PlanKind =>
          assert ViewOf(rows, j).plans == w.plans && ViewOf(rows, j).results == w.results;
        case DeliverableKind =>
          assert ViewOf(rows, j).plans == w.plans && ViewOf(rows, j).results == w.results;
      }
    }
  }

  lemma DecidedRowsViews(db: DB, n: nat, s: Stage, d: Decision, feedback: Option<string>, edited: Option<string>, j: nat)
    requires n < |db.approvals| && db.approvals[n].stage < |db.stages| && j < |db.stages|
    ensures |DecidedRows(db, n, s, d, feedback, edited).stages| == |db.stages|
    ensures var a := db.approvals[n];
      var b := Ledger.Decided(a, d, feedback, edited);
      var v := ViewOf(db, j);
      var w := v.(row := if j == a.stage then Overwrite(v.row, s) else v.row);
      && Rank(db.approvals, n) < |Of(db.approvals, a.stage, a.kind)|
      && Of(db.approvals, a.stage, a.kind)[Rank(db.approvals, n)] == a
      && ViewOf(DecidedRows(db, n, s, d, feedback, edited), j)
         == if a.stage != j then w
            else if a.kind == PlanKind then w.(plans := v.plans[Rank(db.approvals, n) := b])
            else w.(results := v.results[Rank(db.approvals, n) := b])
  {
    var a := db.approvals[n];
    var b := Ledger.Decided(a, d, feedback, edited);
    ViewDecided(db, n, d, feedback, edited, j);
    var db1 := db.(approvals := db.approvals[n := b], stages := db.stages[a.stage := Overwrite(db.stages[a.stage], s)]);
    ViewEmit(db1, Some(a.stage), ApprovalDecided(n, d), j);
  }
}
