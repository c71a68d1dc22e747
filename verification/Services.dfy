/**
 * The services as methods that change the store statement by statement. Each is proved against its
 * transaction function: on success the rows are the function's and exactly the new events are
 * published; on failure nothing changes and nothing is published.
 */
module Services {
  import opened Options
  import opened Domain
  import opened Ledger
  import opened Transactions
  import opened StoreModel
  import opened Protocol

  /** The new state of a store after a transaction that ended as `r`. */
  ghost predicate Settled(before: DB, sent: seq<Event>, r: Result<DB>, e: Option<Error>, after: DB, published: seq<Event>) {
    match r
    case Ok(f) =>
      && e == None && after == f && |before.events| <= |f.events|
      && published == sent + f.events[|before.events|..]
    case Err(x) => e == Some(x) && after == before && published == sent
  }

  /** Inside a transaction: the hooks registered so far are the events appended so far. */
  ghost predicate Hooked(before: DB, after: seq<Event>, now: DB) {
    now.events == before.events + after
  }

  /** deriveTx */
  method DeriveIn(store: Store, locked: Task, ghost before: DB) returns (e: Option<Error>)
    requires locked.version == store.task.version && locked.status == store.task.status
    requires Hooked(before, store.after, store.View())
    modifies store`task, store`events, store`usage, store`after
    ensures e == None && store.View() == DeriveTx(old(store.View()))
    ensures Hooked(before, store.after, store.View())
  {
    var to := DeriveStatus(locked.status, store.stages);
    if to == locked.status {
      return None;
    }
    var copy;
    e, copy := store.ChangeStatus(locked, to);
    if e.Some? {
      return e;
    }
    if to == Completed {
      store.EmitEvent(None, RunCompleted);
    }
    return None;
  }

  /** Orchestrator: start, claim, progress, commit, block, fail and the stage loop of Reconcile. */
  class Orchestrator {
    const store: Store
    const cfg: Config
    var claims: seq<Claim>
    var running: map<nat, nat>

    constructor (store: Store, cfg: Config)
      ensures this.store == store && this.cfg == cfg && claims == [] && running == map[]
    {
      this.store, this.cfg, claims, running := store, cfg, [], map[];
    }

    method Start() returns (e: Option<Error>)
      modifies store
      ensures Settled(old(store.View()), old(store.published), Ok(StartTx(old(store.View()))), e, store.View(), store.published)
    {
      var saved := store.Begin();
      var locked := store.task;
      e := None;
      if locked.status == Queued {
        var copy;
        e, copy := store.ChangeStatus(locked, Running);
        if e.None? {
          store.EmitEvent(None, RunStarted);
        }
      }
      store.Close(saved, e);
    }

    method Claim(i: nat, seen: Stage, mode: Mode) returns (e: Option<Error>, s: Stage)
      modifies store
      ensures Settled(old(store.View()), old(store.published), ClaimTx(old(store.View()), i, seen, mode), e,
                      store.View(), store.published)
      ensures e.None? ==> s == ClaimedCopy(seen, mode)
    {
      s := seen;
      var saved := store.Begin();
      if Halted(store.task.status) {
        store.Rollback(saved);
        return Some(Stale), s;
      }
      if seen.status == Pending {
        var ready := IsReady(seen, store.stages);
        if !ready {
          store.Rollback(saved);
          return Some(Stale), s;
        }
      }
      var to := if mode == ExecuteMode then Executing else Planning;
      var attempt;
      e, attempt := store.ClaimRow(i, seen.attempt, seen.status, to);
      if e.Some? {
        store.Rollback(saved);
        return e, s;
      }
      if seen.status == Pending {
        store.EmitEvent(Some(i), StageStarted);
      }
      s := seen.(status := to, attempt := attempt, version := seen.version + 1);
      store.Finish();
      return None, s;
    }

    method Progress(c: Claim, body: Body) returns (e: Option<Error>)
      modifies store
      ensures Settled(old(store.View()), old(store.published), ProgressTx(old(store.View()), c, body), e,
                      store.View(), store.published)
    {
      var saved := store.Begin();
      if Terminal(store.task.status) {
        e := Some(Stale);
      } else if c.stage >= |store.stages| {
        e := Some(NoRow);
      } else if store.stages[c.stage].attempt != c.row.attempt || store.stages[c.stage].status != c.row.status {
        e := Some(Stale);
      } else {
        store.EmitEvent(Some(c.stage), body);
        e := None;
      }
      store.Close(saved, e);
    }

    method CommitRows(c: Claim, r: RunResult) returns (e: Option<Error>)
      requires store.after == []
      modifies store
      ensures e == (match CommitTx(cfg, old(store.View()), c, r) case Ok(_) => None case Err(x) => Some(x))
      ensures e.None? ==> store.View() == CommitTx(cfg, old(store.View()), c, r).value
      ensures e.None? ==> Hooked(old(store.View()), store.after, store.View())
      ensures store.published == old(store.published)
    {
      hide Overwrite, Domain.Derive, Truncate, DeriveTx, Emit, RecordDeliverable, RequestApproval;
      ghost var before := store.View();
      var locked := store.task;
      if Terminal(locked.status) {
        return Some(Stale);
      }
      var kind, retryNo := PlanKind, c.row.planRetryNo;
      var s := c.row.(plan := Some(r.content), status := Executing);
      if c.mode == ExecuteMode {
        kind, retryNo := DeliverableKind, c.row.deliverableRetryNo;
        s := c.row.(plan := Some(c.plan), status := Approved, deliverableRef := r.ref,
                    deliverableSummary := Some(Truncate(r.content, 400)));
      }
      var gated := Gate(cfg, c.stage, kind);
      if gated {
        s := s.(status := if kind == PlanKind then PlanReview else DeliverableReview);
      }
      e := store.UpdateRow(c.stage, s, c.row.status);
      if e.Some? {
        return;
      }
      var did := |store.deliverables|;
      if c.mode == ExecuteMode {
        Record(c.stage, r, before);
      }
      if gated {
        e := Ask(c.stage, kind, retryNo, r.content, before);
        if e.Some? {
          return;
        }
      } else if c.mode == ExecuteMode {
        store.EmitEvent(Some(c.stage), StageCompleted(did));
      }
      e := DeriveIn(store, locked, before);
    }

    /** The deliverable of an execution and its event. */
    method Record(i: nat, r: RunResult, ghost before: DB)
      requires Hooked(before, store.after, store.View())
      modifies store`deliverables, store`task, store`events, store`usage, store`after
      ensures store.View() == RecordDeliverable(old(store.View()), i, r)
      ensures Hooked(before, store.after, store.View())
      ensures store.task.status == old(store.task).status && store.task.version == old(store.task).version
    {
      var did := |store.deliverables|;
      store.InsertDeliverable(Deliverable(i, r.ref, r.content, Some(Truncate(r.content, 400))));
      store.EmitEvent(Some(i), DeliverableProduced(did));
    }

    /** The approval a gated result waits for, and its event. */
    method Ask(i: nat, kind: Kind, retryNo: nat, content: string, ghost before: DB) returns (e: Option<Error>)
      requires Hooked(before, store.after, store.View())
      modifies store`approvals, store`task, store`events, store`usage, store`after
      ensures e == (match RequestApproval(old(store.View()), i, kind, retryNo, content) case Ok(_) => None case Err(x) => Some(x))
      ensures e.None? ==> store.View() == RequestApproval(old(store.View()), i, kind, retryNo, content).value
      ensures e.None? ==> Hooked(before, store.after, store.View())
      ensures store.task.status == old(store.task).status && store.task.version == old(store.task).version
    {
      var aid := |store.approvals|;
      e := store.InsertApproval(i, kind, retryNo, content);
      if e.None? {
        store.EmitEvent(Some(i), ApprovalRequested(aid));
      }
    }

    method Commit(c: Claim, r: RunResult) returns (e: Option<Error>)
      modifies store
      ensures Settled(old(store.View()), old(store.published), CommitTx(cfg, old(store.View()), c, r), e,
                      store.View(), store.published)
    {
      var saved := store.Begin();
      e := CommitRows(c, r);
      store.Close(saved, e);
    }

    method Block(c: Claim) returns (e: Option<Error>)
      modifies store
      ensures Settled(old(store.View()), old(store.published), BlockTx(old(store.View()), c), e, store.View(), store.published)
    {
      var saved := store.Begin();
      var locked := store.task;
      if Terminal(locked.status) {
        store.Finish();
        return None;
      }
      e := store.UpdateRow(c.stage, c.row.(status := Blocked, blockedReason := Some(Publish)), c.row.status);
      if e.Some? {
        store.Rollback(saved);
        return e;
      }
      store.EmitEvent(Some(c.stage), StageBlocked(Publish));
      e := DeriveIn(store, locked, saved);
      store.Finish();
    }

    method Fail(who: Option<Claim>) returns (e: Option<Error>)
      modifies store
      ensures Settled(old(store.View()), old(store.published), FailTx(old(store.View()), who), e, store.View(), store.published)
    {
      var saved := store.Begin();
      var locked := store.task;
      if Terminal(locked.status) {
        store.Finish();
        return None;
      }
      var stage: Option<nat> := None;
      if who.Some? {
        if who.value.stage >= |store.stages| {
          store.Rollback(saved);
          return Some(NoRow);
        }
        if store.stages[who.value.stage].attempt != who.value.row.attempt {
          store.Rollback(saved);
          return Some(Stale);
        }
        stage := Some(who.value.stage);
      }
      var copy;
      e, copy := store.ChangeStatus(locked, Failed);
      if e.None? {
        store.EmitEvent(stage, RunFailed);
      }
      store.Close(saved, e);
    }

    /** The final derive of Reconcile. */
    method DeriveTask()
      modifies store
      ensures Settled(old(store.View()), old(store.published), Ok(DeriveTx(old(store.View()))), None,
                      store.View(), store.published)
    {
      var saved := store.Begin();
      var e := DeriveIn(store, store.task, saved);
      store.Finish();
    }

    /**
     * One turn of Reconcile's stage loop, or its final derive: the same change of rows, claims, running
     * map and position as the protocol step `Advance`, and what it appends to the log is published.
     */
    method AdvanceStage(pass: Pass) returns (next: Pass)
      requires pass.seen.Some? && pass.begun && !pass.ended
      modifies this`claims, this`running, store
      ensures var w := World(old(store.View()), [pass], old(claims), old(running), [], {}, [], false);
        var v := AdvancePass(w, 0);
        claims == v.claims && running == v.running && next == v.passes[0]
        && Settled(old(store.View()), old(store.published), Ok(v.db), None, store.View(), store.published)
    {
      var seen, i := pass.seen.value, pass.next;
      if i >= |seen| {
        DeriveTask();
        return pass.(ended := true);
      }
      next := pass.(next := i + 1);
      if i in running {
        return;
      }
      var mode: Option<Mode> := None;
      match seen[i].status {
        case Pending =>
          var ready := IsReady(seen[i], seen);
          if ready {
            mode := Some(PlanMode);
          }
        case Planning => mode := Some(PlanMode);
        case Executing => mode := Some(ExecuteMode);
        case _ =>
      }
      if mode.None? {
        return;
      }
      var e, claimed := Claim(i, seen[i], mode.value);
      if e == Some(Stale) {
        return;
      }
      if e.Some? {
        return pass.(ended := true);
      }
      running := running[i := |claims|];
      claims := claims + [Transactions.Claim(i, claimed, mode.value, Text(claimed.plan), InputsOf(seen[i], seen))];
    }
  }

  /** ApprovalService.UpdateApproval */
  class ApprovalService {
    const store: Store
    const cfg: Config

    constructor (store: Store, cfg: Config)
      ensures this.store == store && this.cfg == cfg
    {
      this.store, this.cfg := store, cfg;
    }

    method DecideRows(n: nat, version: nat, d: Decision, feedback: Option<string>, edited: Option<string>)
      returns (e: Option<Error>)
      requires store.after == [] && ValidateDecision(d, feedback, edited).None? && n < |store.approvals|
      modifies store
      ensures e == (match DecideTx(cfg, old(store.View()), n, version, d, feedback, edited)
                    case Ok(_) => None case Err(x) => Some(x))
      ensures e.None? ==> store.View() == DecideTx(cfg, old(store.View()), n, version, d, feedback, edited).value
      ensures e.None? ==> Hooked(old(store.View()), store.after, store.View())
      ensures store.published == old(store.published)
    {
      hide Overwrite, Domain.Derive, DeriveTx, Emit, SettleStage, Domain.Decide;
      ghost var before := store.View();
      var locked := store.task;
      var a := store.approvals[n];
      var rows := store.DecideRow(n, d, feedback, edited, version);
      if rows != 1 {
        return Some(AlreadyDecided);
      }
      if Terminal(locked.status) {
        return Some(InvalidTransition);
      }
      if a.stage >= |store.stages| {
        return Some(NoRow);
      }
      var row := store.stages[a.stage];
      var s := Decide(row, a.kind, d, feedback, edited, cfg.maxRetries);
      if s.Err? {
        return Some(s.error);
      }
      e := store.UpdateRow(a.stage, s.value, row.status);
      if e.Some? {
        return;
      }
      store.EmitEvent(Some(a.stage), ApprovalDecided(n, d));
      e := Settle(a.stage, a.kind, s.value, before);
      if e.Some? {
        return;
      }
      e := DeriveIn(store, locked, before);
    }

    /** The event of a stage that the decision blocked or approved. */
    method Settle(i: nat, kind: Kind, s: Stage, ghost before: DB) returns (e: Option<Error>)
      requires Hooked(before, store.after, store.View())
      modifies store`task, store`events, store`usage, store`after
      ensures e == (match SettleStage(old(store.View()), i, kind, s) case Ok(_) => None case Err(x) => Some(x))
      ensures e.None? ==> store.View() == SettleStage(old(store.View()), i, kind, s).value
      ensures e.None? ==> Hooked(before, store.after, store.View())
      ensures store.task.status == old(store.task).status && store.task.version == old(store.task).version
    {
      e := None;
      if s.status == Blocked {
        store.EmitEvent(Some(i), StageBlocked(Retries(kind)));
      }
      if s.status == Approved {
        var did := store.LatestDeliverable(i);
        if did.None? {
          return Some(NoRow);
        }
        store.EmitEvent(Some(i), StageCompleted(did.value));
      }
    }

    method UpdateApproval(n: nat, version: nat, d: Decision, feedback: Option<string>, edited: Option<string>)
      returns (e: Option<Error>)
      modifies store
      ensures Settled(old(store.View()), old(store.published), DecideTx(cfg, old(store.View()), n, version, d, feedback, edited),
                      e, store.View(), store.published)
    {
      e := ValidateDecision(d, feedback, edited);
      if e.Some? {
        return;
      }
      if n >= |store.approvals| {
        return Some(NoRow);
      }
      var saved := store.Begin();
      e := DecideRows(n, version, d, feedback, edited);
      store.Close(saved, e);
    }
  }

  /** TaskService and BudgetService */
  class TaskService {
    const store: Store

    constructor (store: Store)
      ensures this.store == store
    {
      this.store := store;
    }

    /** The loop of UpdateTask that unblocks every blocked stage. */
    method Unblock()
      modifies store`stages
      ensures store.stages == ReopenAll(old(store.stages))
    {
      var all := store.stages;
      hide Overwrite;
      for i := 0 to |all|
        invariant |store.stages| == |all|
        invariant forall k :: 0 <= k < |all| ==> store.stages[k] == if k < i then Reopen(all[k]) else all[k]
      {
        var s := all[i];
        if s.status != Blocked {
          continue;
        }
        s := s.(status := Planning);
        if all[i].blockedReason == Some(Retries(DeliverableKind)) || all[i].blockedReason == Some(Publish) {
          s := s.(status := Executing);
        }
        s := s.(blockedReason := None);
        var e := store.UpdateRow(i, s, Blocked);
      }
    }

    method UpdateTask(action: Action) returns (e: Option<Error>)
      requires action != Start
      modifies store
      ensures Settled(old(store.View()), old(store.published), ControlTx(old(store.View()), action), e,
                      store.View(), store.published)
    {
      var saved := store.Begin();
      var locked := store.task;
      var to := TaskTransition(locked.status, action);
      if to.Err? {
        store.Rollback(saved);
        return Some(to.error);
      }
      if action == Resume {
        var used := store.TokensUsed();
        if used >= locked.tokenBudget {
          store.Rollback(saved);
          return Some(BudgetExceeded);
        }
      }
      if action == Resume && locked.status == TaskBlocked {
        Unblock();
      }
      var copy;
      e, copy := store.ChangeStatus(locked, to.value);
      if e.None? {
        store.EmitEvent(None, ActionEvent(action));
      }
      store.Close(saved, e);
    }

    method SetBudget(budget: int) returns (e: Option<Error>)
      modifies store
      ensures Settled(old(store.View()), old(store.published), SetBudgetTx(old(store.View()), budget), e,
                      store.View(), store.published)
    {
      if budget < 1 {
        return Some(BadRequest);
      }
      var saved := store.Begin();
      if Terminal(store.task.status) {
        store.Rollback(saved);
        return Some(InvalidTransition);
      }
      store.UpdateBudget(budget, store.task.version);
      store.Finish();
      return None;
    }

    /** The locked half of BudgetService.Check. */
    method CheckLocked() returns (exceeded: bool)
      modifies store
      ensures (store.View(), exceeded) == BudgetTx(old(store.View()))
      ensures store.published == old(store.published) + store.events[|old(store.events)|..]
    {
      var saved := store.Begin();
      var used := store.TokensUsed();
      if used < store.task.tokenBudget {
        store.Finish();
        return false;
      }
      if store.task.status == Running || store.task.status == WaitingApproval {
        var e, copy := store.ChangeStatus(store.task, Paused);
        store.EmitEvent(None, RunPaused(true));
      }
      store.Finish();
      return true;
    }
  }
}
