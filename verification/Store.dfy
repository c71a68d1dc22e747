/** The rows of one task as mutable state, with the SQL statements and transactions that change them. */
module StoreModel {
  import opened Options
  import opened Domain
  import opened Ledger

  class Store {
    var task: Task
    var stages: seq<Stage>
    var approvals: seq<Approval>
    var deliverables: seq<Deliverable>
    var events: seq<Event>
    var usage: seq<nat>
    var after: seq<Event>      // publications waiting for the commit of the open transaction
    var published: seq<Event>  // what the after-commit hooks have handed to the bus

    function View(): DB
      reads this
    {
      DB(task, stages, approvals, deliverables, events, usage)
    }

    constructor (db: DB)
      ensures View() == db && after == [] && published == []
    {
      task, stages, approvals, deliverables := db.task, db.stages, db.approvals, db.deliverables;
      events, usage, after, published := db.events, db.usage, [], [];
    }

    // ---- WithTx ----------------------------------------------------------------------

    method Begin() returns (saved: DB)
      modifies this`after
      ensures saved == View() && after == []
    {
      after := [];
      saved := View();
    }

    /** A failed transaction leaves no row changed and publishes nothing. */
    method Rollback(saved: DB)
      modifies this
      ensures View() == saved && after == [] && published == old(published)
    {
      task, stages, approvals, deliverables := saved.task, saved.stages, saved.approvals, saved.deliverables;
      events, usage, after := saved.events, saved.usage, [];
    }

    /** A commit runs the hooks in the order they were registered. */
    method Finish()
      modifies this`after, this`published
      ensures published == old(published) + old(after) && after == []
    {
      for n := 0 to |after|
        invariant after == old(after) && published == old(published) + after[..n]
      {
        published := published + [after[n]];
      }
      after := [];
    }

    /** The end of a transaction body: an error rolls back, success commits. */
    method Close(saved: DB, e: Option<Error>)
      modifies this
      ensures after == []
      ensures e.Some? ==> View() == saved && published == old(published)
      ensures e.None? ==> View() == old(View()) && published == old(published) + old(after)
    {
      if e.Some? {
        Rollback(saved);
      } else {
        Finish();
      }
    }

    // ---- statements --------------------------------------------------------------------

    method UpdateTaskStatus(status: TaskStatus, version: nat) returns (rows: nat)
      modifies this`task
      ensures rows == (if old(task).version == version then 1 else 0)
      ensures View() == if rows == 1 then SetStatus(old(View()), status) else old(View())
    {
      if task.version != version {
        return 0;
      }
      task := task.(status := status, version := task.version + 1);
      return 1;
    }

    /** Tx.SetStatus with the copy of the task locked at the start of the transaction. */
    method ChangeStatus(locked: Task, status: TaskStatus) returns (e: Option<Error>, copy: Task)
      modifies this`task
      ensures e == if old(task).version == locked.version then None else Some(InvalidTransition)
      ensures View() == if e.None? then SetStatus(old(View()), status) else old(View())
      ensures e.None? ==> copy == locked.(status := status, version := locked.version + 1)
    {
      copy := locked;
      var rows := UpdateTaskStatus(status, locked.version);
      if rows != 1 {
        return Some(InvalidTransition), copy;
      }
      copy := locked.(status := status, version := locked.version + 1);
      return None, copy;
    }

    method UpdateBudget(budget: nat, version: nat)
      modifies this`task
      ensures task == if old(task).version == version
                      then old(task).(tokenBudget := budget, version := old(task).version + 1) else old(task)
    {
      if task.version == version {
        task := task.(tokenBudget := budget, version := task.version + 1);
      }
    }

    /** Emitter.Emit */
    method EmitEvent(stage: Option<nat>, body: Body)
      modifies this`task, this`events, this`usage, this`after
      ensures View() == Emit(old(View()), stage, body)
      ensures |events| > 0 && events == old(events) + [events[|events| - 1]]
      ensures task.status == old(task).status && task.version == old(task).version
      ensures after == old(after) + [events[|events| - 1]]
    {
      task := task.(eventSeq := task.eventSeq + 1);
      var ev := Event(task.eventSeq, stage, body);
      events := events + [ev];
      if body.Usage? {
        usage := usage + [body.tokens];
      }
      after := after + [ev];
    }

    method ClaimRow(i: nat, attempt: nat, oldStatus: StageStatus, to: StageStatus)
      returns (e: Option<Error>, newAttempt: nat)
      modifies this`stages
      ensures match ClaimStage(old(View()), i, attempt, oldStatus, to)
        case Ok(f) => e == None && View() == f && newAttempt == attempt + 1
        case Err(x) => e == Some(x) && View() == old(View())
    {
      if i >= |stages| || stages[i].attempt != attempt || stages[i].status != oldStatus {
        return Some(NoRow), 0;
      }
      var row := stages[i];
      stages := stages[i := row.(status := to, attempt := row.attempt + 1, version := row.version + 1)];
      return None, row.attempt + 1;
    }

    method UpdateRow(i: nat, s: Stage, oldStatus: StageStatus) returns (e: Option<Error>)
      modifies this`stages
      ensures match UpdateStage(old(View()), i, s, oldStatus)
        case Ok(f) => e == None && View() == f
        case Err(x) => e == Some(x) && View() == old(View())
    {
      if i >= |stages| || !UpdateMatches(stages[i], s, oldStatus) {
        return Some(Stale);
      }
      stages := stages[i := Overwrite(stages[i], s)];
      return None;
    }

    /** The insert, refused by either unique index. */
    method InsertApproval(stage: nat, kind: Kind, retryNo: nat, content: string) returns (e: Option<Error>)
      modifies this`approvals
      ensures match CreateApproval(old(View()), stage, kind, retryNo, content)
        case Ok(f) => e == None && View() == f
        case Err(x) => e == Some(x) && View() == old(View())
    {
      for n := 0 to |approvals|
        invariant forall k :: 0 <= k < n ==> !(approvals[k].stage == stage && approvals[k].verdict == Awaiting)
        invariant forall k :: 0 <= k < n ==>
          !(approvals[k].stage == stage && approvals[k].kind == kind && approvals[k].retryNo == retryNo)
      {
        var a := approvals[n];
        if a.stage == stage && (a.verdict == Awaiting || (a.kind == kind && a.retryNo == retryNo)) {
          return Some(UniqueViolation);
        }
      }
      approvals := approvals + [Approval(stage, kind, retryNo, Awaiting, content, None, None, 0)];
      return None;
    }

    /** decideApproval: only a pending row with the expected version. */
    method DecideRow(n: nat, d: Decision, feedback: Option<string>, edited: Option<string>, version: nat)
      returns (rows: nat)
      modifies this`approvals
      ensures rows == (if n < |old(approvals)| && old(approvals)[n].verdict == Awaiting
                          && old(approvals)[n].version == version then 1 else 0)
      ensures rows == 1 ==> approvals == old(approvals)[n := Decided(old(approvals)[n], d, feedback, edited)]
      ensures rows == 0 ==> approvals == old(approvals)
    {
      if n >= |approvals| || approvals[n].verdict != Awaiting || approvals[n].version != version {
        return 0;
      }
      approvals := approvals[n := Decided(approvals[n], d, feedback, edited)];
      return 1;
    }

    method InsertDeliverable(d: Deliverable)
      modifies this`deliverables
      ensures View() == CreateDeliverable(old(View()), d)
    {
      deliverables := deliverables + [d];
    }

    /** taskTokensUsed */
    method TokensUsed() returns (used: nat)
      ensures used == Sum(usage)
    {
      used := 0;
      for n := 0 to |usage|
        invariant used == Sum(usage[..n])
      {
        assert usage[..n + 1][..n] == usage[..n];
        used := used + usage[n];
      }
      assert usage[..|usage|] == usage;
    }

    /** latestDeliverableID */
    method LatestDeliverable(stage: nat) returns (d: Option<nat>)
      ensures d == Latest(deliverables, stage)
    {
      var n: nat := |deliverables|;
      assert deliverables[..n] == deliverables;
      while n > 0
        invariant n <= |deliverables| && Latest(deliverables, stage) == Latest(deliverables[..n], stage)
      {
        assert deliverables[..n][..n - 1] == deliverables[..n - 1];
        if deliverables[n - 1].stage == stage {
          return Some(n - 1);
        }
        n := n - 1;
      }
      return None;
    }
  }
}
