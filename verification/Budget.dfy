/** The token budget: concurrent runners overshoot it by a bounded amount, and an exhausted task stays stopped. */
module Budget {
  import opened Options
  import opened Domain
  import opened Ledger
  import opened Transactions
  import opened StageViews
  import opened TaskRules
  import opened TaskActions
  import opened Protocol
  import opened ProtocolClaims
  import opened Safety

  /**
   * Where a runner stands in its loop. The guard reads the task's budget and the usage separately and
   * without the lock; only when these reads say "exhausted" does it look again under the lock.
   */
  datatype Phase = Idle | HasLimit(limit: nat) | Suspects | InFlight | Stopped

  datatype Meter = Meter(world: World, runners: seq<Phase>)

  datatype Tick =
    | ReadLimit(s: nat)
    | ReadUsage(s: nat)
    | Recheck(s: nat)
    | Record(s: nat, c: nat, tokens: nat)
    | Abandon(s: nat)
    | Other(step: Step)

  /** The step neither records usage nor lowers the budget. */
  predicate Neutral(w: World, step: Step) {
    match step
    case Report(_, body) => !body.Usage?
    case ChangeBudget(budget) => budget >= w.db.task.tokenBudget
    case _ => true
  }

  function TickOnce(cfg: Config, m: Meter, tick: Tick): Meter {
    match tick
    case ReadLimit(s) =>
      if s < |m.runners| && m.runners[s] == Idle
      then m.(runners := m.runners[s := HasLimit(m.world.db.task.tokenBudget)]) else m
    case ReadUsage(s) =>
      if s < |m.runners| && m.runners[s].HasLimit?
      then m.(runners := m.runners[s := if Sum(m.world.db.usage) < m.runners[s].limit then InFlight else Suspects]) else m
    case Recheck(s) =>
      if s < |m.runners| && m.runners[s] == Suspects
      then Meter(Apply(cfg, m.world, CheckBudget),
                 m.runners[s := if BudgetTx(m.world.db).1 then Stopped else InFlight]) else m
    case Record(s, c, tokens) =>
      if s < |m.runners| && m.runners[s] == InFlight
      then Meter(Apply(cfg, m.world, Report(c, Usage(tokens))), m.runners[s := Idle]) else m
    case Abandon(s) =>
      if s < |m.runners| then m.(runners := m.runners[s := Idle]) else m
    case Other(step) => if Neutral(m.world, step) then m.(world := Apply(cfg, m.world, step)) else m
  }

  function TickAll(cfg: Config, m: Meter, ticks: seq<Tick>): Meter {
    if ticks == [] then m else TickOnce(cfg, TickAll(cfg, m, ticks[..|ticks| - 1]), ticks[|ticks| - 1])
  }

  /** How many model calls are in flight. */
  function Flying(runners: seq<Phase>): nat {
    if runners == [] then 0
    else Flying(runners[..|runners| - 1]) + if runners[|runners| - 1] == InFlight then 1 else 0
  }

  lemma {:induction false} FlyingUpdate(runners: seq<Phase>, s: nat, p: Phase)
    requires s < |runners|
    ensures Flying(runners[s := p]) + (if runners[s] == InFlight then 1 else 0)
         == Flying(runners) + if p == InFlight then 1 else 0
    ensures Flying(runners[s := p]) <= |runners|
  {
    var front := runners[..|runners| - 1];
    if s < |front| {
      FlyingUpdate(front, s, p);
      assert runners[s := p][..|front|] == front[s := p];
    } else {
      assert runners[s := p][..|front|] == front;
      FlyingBound(front);
    }
  }

  lemma {:induction false} FlyingBound(runners: seq<Phase>)
    ensures Flying(runners) <= |runners|
  {
    if runners != [] {
      FlyingBound(runners[..|runners| - 1]);
    }
  }

  /** Recorded usage plus `cost` for every call in flight stays within the overshoot. */
  ghost predicate Within(m: Meter, cost: nat) {
    && Sum(m.world.db.usage) + Flying(m.runners) * cost <= m.world.db.task.tokenBudget - 1 + |m.runners| * cost
    && forall s :: 0 <= s < |m.runners| && m.runners[s].HasLimit? ==> m.runners[s].limit <= m.world.db.task.tokenBudget
  }

  lemma TimesMonotone(a: nat, b: nat, cost: nat)
    requires a <= b
    ensures a * cost <= b * cost
  {
  }

  /** Neither the usage rows nor the budget changed. */
  predicate Untouched(a: DB, b: DB) {
    b.usage == a.usage && b.task.tokenBudget == a.task.tokenBudget
  }

  lemma DeriveUntouched(db: DB)
    ensures Untouched(db, DeriveTx(db)) && Untouched(db, StartTx(db)) && Untouched(db, BudgetTx(db).0)
  {
    hide Derive, Sum;
  }

  lemma AdvanceUntouched(w: World, p: nat)
    requires Working(w, p)
    ensures Untouched(w.db, AdvancePass(w, p).db)
  {
    hide Derive, Ready, Halted, InputsOf, ModeFor, MakeClaim;
    DeriveUntouched(w.db);
    hide DeriveTx;
  }

  lemma CommitUntouched(cfg: Config, db: DB, c: Claim, r: RunResult)
    requires CommitTx(cfg, db, c, r).Ok?
    ensures Untouched(db, CommitTx(cfg, db, c, r).value)
  {
    CommitIsCommitted(cfg, db, c, r);
    hide Derive, Overwrite, Finish, CommitTx;
  }

  lemma DecideUntouched(
      cfg: Config, db: DB, n: nat, version: nat, d: Decision, feedback: Option<string>, edited: Option<string>)
    requires DecideTx(cfg, db, n, version, d, feedback, edited).Ok?
    ensures Untouched(db, DecideTx(cfg, db, n, version, d, feedback, edited).value)
  {
    DecideIsDecided(cfg, db, n, version, d, feedback, edited);
    hide Derive, Overwrite, DecideTx;
  }

  lemma ParkUntouched(db: DB, c: Claim)
    ensures BlockTx(db, c).Ok? ==> Untouched(db, BlockTx(db, c).value)
    ensures FailTx(db, Some(c)).Ok? ==> Untouched(db, FailTx(db, Some(c)).value)
  {
    hide Derive, Overwrite, UpdateMatches;
  }

  lemma ControlUntouched(db: DB, action: Action)
    requires action != Start
    ensures ControlTx(db, action).Ok? ==> Untouched(db, ControlTx(db, action).value)
  {
    hide Sum, ReopenAll, TaskTransition;
  }

  /** Only a usage report records usage, and only a budget change touches the budget. */
  lemma StepUntouched(cfg: Config, w: World, step: Step)
    requires !(step.Report? && step.body.Usage?)
    ensures Apply(cfg, w, step).db.usage == w.db.usage
    ensures !step.ChangeBudget? ==> Apply(cfg, w, step).db.task.tokenBudget == w.db.task.tokenBudget
  {
    DeriveUntouched(w.db);
    hide Derive, Sum, Ready, AdvancePass, StartTx, DeriveTx, BudgetTx, CommitTx, DecideTx, BlockTx, FailTx, ControlTx,
      Working, RosAfter, LagAfter;
    match step {
      case Advance(p) => if Working(w, p) { AdvanceUntouched(w, p); }
      case Commit(c, r) =>
        if c < |w.claims| && CommitTx(cfg, w.db, w.claims[c], r).Ok? {
          CommitUntouched(cfg, w.db, w.claims[c], r);
        }
      case Park(c) => if c < |w.claims| { ParkUntouched(w.db, w.claims[c]); }
      case FailAttempt(c) => if c < |w.claims| { ParkUntouched(w.db, w.claims[c]); }
      case FailTask => FailUntouched(w.db);
      case Decision(n, version, d, feedback, edited) =>
        if DecideTx(cfg, w.db, n, version, d, feedback, edited).Ok? {
          DecideUntouched(cfg, w.db, n, version, d, feedback, edited);
        }
      case Act(action) => if action != Start { ControlUntouched(w.db, action); }
      case _ =>
    }
  }

  lemma FailUntouched(db: DB)
    ensures FailTx(db, None).Ok? ==> Untouched(db, FailTx(db, None).value)
  {
  }

  lemma NewBudget(cfg: Config, w: World, budget: int)
    requires budget >= w.db.task.tokenBudget
    ensures Apply(cfg, w, ChangeBudget(budget)).db.task.tokenBudget >= w.db.task.tokenBudget
  {
  }

  lemma NeutralStep(cfg: Config, w: World, step: Step)
    requires Neutral(w, step)
    ensures Apply(cfg, w, step).db.usage == w.db.usage
    ensures Apply(cfg, w, step).db.task.tokenBudget >= w.db.task.tokenBudget
  {
    hide Apply;
    StepUntouched(cfg, w, step);
    if step.ChangeBudget? {
      NewBudget(cfg, w, step.budget);
    }
  }

  lemma UsageReport(cfg: Config, w: World, c: nat, tokens: nat)
    ensures var v := Apply(cfg, w, Report(c, Usage(tokens)));
      (v.db.usage == w.db.usage || v.db.usage == w.db.usage + [tokens])
      && v.db.task.tokenBudget == w.db.task.tokenBudget
  {
  }

  lemma TickKeepsWithin(cfg: Config, m: Meter, tick: Tick, cost: nat)
    requires Within(m, cost) && (tick.Record? ==> tick.tokens <= cost)
    ensures Within(TickOnce(cfg, m, tick), cost)
  {
    hide Apply, BudgetTx, Sum, Flying;
    var n := TickOnce(cfg, m, tick);
    FlyingBound(n.runners);
    TimesMonotone(Flying(n.runners), |n.runners|, cost);
    match tick {
      case ReadLimit(s) => if s < |m.runners| { FlyingUpdate(m.runners, s, n.runners[s]); }
      case ReadUsage(s) => if s < |m.runners| { FlyingUpdate(m.runners, s, n.runners[s]); }
      case Recheck(s) =>
        if s < |m.runners| {
          FlyingUpdate(m.runners, s, n.runners[s]);
          NeutralStep(cfg, m.world, CheckBudget);
          RecheckReads(m.world.db);
        }
      case Record(s, c, tokens) =>
        if s < |m.runners| {
          FlyingUpdate(m.runners, s, n.runners[s]);
          UsageReport(cfg, m.world, c, tokens);
          SumAppend(m.world.db.usage, tokens);
          if m.runners[s] == InFlight {
            assert Flying(m.runners) * cost == Flying(n.runners) * cost + cost;
          }
        }
      case Abandon(s) =>
        if s < |m.runners| {
          FlyingUpdate(m.runners, s, n.runners[s]);
          TimesMonotone(Flying(n.runners), Flying(m.runners), cost);
        }
      case Other(step) =>
        if Neutral(m.world, step) {
          NeutralStep(cfg, m.world, step);
        }
    }
  }

  lemma RecheckReads(db: DB)
    ensures !BudgetTx(db).1 ==> Sum(db.usage) < db.task.tokenBudget
  {
  }

  /**
   * While the budget is not lowered, `k` concurrent runners whose calls cost at most `cost` tokens each
   * never bring the recorded usage above budget - 1 + k * cost.
   */
  lemma {:induction false} OvershootBound(cfg: Config, budget: nat, k: nat, cost: nat, ticks: seq<Tick>)
    requires budget > 0
    requires forall n :: 0 <= n < |ticks| && ticks[n].Record? ==> ticks[n].tokens <= cost
    ensures var m := TickAll(cfg, Meter(Initial(cfg, budget), seq(k, _ => Idle)), ticks);
      |m.runners| == k && Sum(m.world.db.usage) <= m.world.db.task.tokenBudget - 1 + k * cost
  {
    WithinAlways(cfg, budget, k, cost, ticks);
    hide TickAll;
    WithinBounds(TickAll(cfg, Meter(Initial(cfg, budget), seq(k, _ => Idle)), ticks), cost);
  }

  lemma WithinBounds(m: Meter, cost: nat)
    requires Within(m, cost)
    ensures Sum(m.world.db.usage) <= m.world.db.task.tokenBudget - 1 + |m.runners| * cost
  {
    hide Sum, Flying;
    TimesMonotone(0, Flying(m.runners), cost);
  }

  lemma {:induction false} WithinAlways(cfg: Config, budget: nat, k: nat, cost: nat, ticks: seq<Tick>)
    requires budget > 0
    requires forall n :: 0 <= n < |ticks| && ticks[n].Record? ==> ticks[n].tokens <= cost
    ensures var m := TickAll(cfg, Meter(Initial(cfg, budget), seq(k, _ => Idle)), ticks);
      Within(m, cost) && |m.runners| == k
  {
    hide TickOnce, Apply;
    var start := Meter(Initial(cfg, budget), seq(k, _ => Idle));
    if ticks == [] {
      NoneFlying(start.runners);
    } else {
      WithinAlways(cfg, budget, k, cost, ticks[..|ticks| - 1]);
      var before := TickAll(cfg, start, ticks[..|ticks| - 1]);
      TickKeepsWithin(cfg, before, ticks[|ticks| - 1], cost);
      SameRunners(cfg, before, ticks[|ticks| - 1]);
    }
  }

  lemma SameRunners(cfg: Config, m: Meter, tick: Tick)
    ensures |TickOnce(cfg, m, tick).runners| == |m.runners|
  {
    hide Apply;
  }

  lemma {:induction false} NoneFlying(runners: seq<Phase>)
    requires forall s :: 0 <= s < |runners| ==> runners[s] == Idle
    ensures Flying(runners) == 0
  {
    if runners != [] {
      NoneFlying(runners[..|runners| - 1]);
    }
  }

  // ---- an exhausted task -----------------------------------------------------------------------

  ghost predicate Exhausted(db: DB) {
    Sum(db.usage) >= db.task.tokenBudget
  }

  lemma {:induction false} SumGrows(a: seq<nat>, b: seq<nat>)
    requires a <= b
    ensures Sum(a) <= Sum(b)
    decreases |b|
  {
    if |a| < |b| {
      assert a <= b[..|b| - 1];
      SumGrows(a, b[..|b| - 1]);
    } else {
      assert a == b;
    }
  }

  /** The locked check of an exhausted task stops the runner, and pauses the task; it fails nothing. */
  lemma ExhaustedPauses(db: DB)
    requires Exhausted(db)
    ensures BudgetTx(db).1
    ensures var f := BudgetTx(db).0;
      && f.stages == db.stages && f.approvals == db.approvals && f.deliverables == db.deliverables
      && f.task.status == (if db.task.status == Running || db.task.status == WaitingApproval then Paused else db.task.status)
      && (f.task.status == db.task.status ==> f == db)
  {
  }

  /** The budget is the same after a step that does not change it. */
  lemma BudgetStays(cfg: Config, w: World, step: Step)
    requires !step.ChangeBudget?
    ensures Apply(cfg, w, step).db.task.tokenBudget == w.db.task.tokenBudget
  {
    hide Apply;
    if step.Report? && step.body.Usage? {
      UsageReport(cfg, w, step.c, step.body.tokens);
    } else {
      StepUntouched(cfg, w, step);
    }
  }

  /** A paused status is left only by an action or a failure. */
  lemma PausedStays(cfg: Config, w: World, step: Step)
    requires w.db.task.status == Paused && Exhausted(w.db)
    ensures var s := Apply(cfg, w, step).db.task.status; s == Paused || s == Failed || s == Cancelled
  {
    hide Sum, Overwrite, Ready, Latest;
    match step {
      case Commit(c, r) =>
        if c < |w.claims| && CommitTx(cfg, w.db, w.claims[c], r).Ok? {
          CommitIsCommitted(cfg, w.db, w.claims[c], r);
        }
      case Decision(n, version, d, feedback, edited) =>
        if DecideTx(cfg, w.db, n, version, d, feedback, edited).Ok? {
          DecideIsDecided(cfg, w.db, n, version, d, feedback, edited);
        }
      case _ =>
    }
  }

  /**
   * Once an exhausted task is paused, no run without a budget change gets it going again: it stays
   * paused, or ends as failed or cancelled, and every resume is refused.
   */
  lemma {:induction false} ExhaustedStaysStopped(cfg: Config, w: World, steps: seq<Step>)
    requires Reachable(cfg, w) && Exhausted(w.db) && w.db.task.status == Paused
    requires forall k :: 0 <= k < |steps| ==> !steps[k].ChangeBudget?
    ensures var v := Run(cfg, w, steps);
      && (v.db.task.status == Paused || v.db.task.status == Failed || v.db.task.status == Cancelled)
      && Exhausted(v.db) && ControlTx(v.db, Resume).Err?
  {
    hide Inv, Apply, Grows, Sum;
    ReachableInv(cfg, w);
    StoppedRun(cfg, w, steps);
  }

  lemma {:induction false} StoppedRun(cfg: Config, w: World, steps: seq<Step>)
    requires ValidConfig(cfg) && Inv(cfg, w) && Exhausted(w.db) && w.db.task.status == Paused
    requires forall k :: 0 <= k < |steps| ==> !steps[k].ChangeBudget?
    ensures var v := Run(cfg, w, steps);
      && (v.db.task.status == Paused || v.db.task.status == Failed || v.db.task.status == Cancelled)
      && Exhausted(v.db) && Inv(cfg, v)
  {
    hide Inv, Apply, Sum;
    if steps != [] {
      var before := Run(cfg, w, steps[..|steps| - 1]);
      var step := steps[|steps| - 1];
      StoppedRun(cfg, w, steps[..|steps| - 1]);
      StepKeeps(cfg, before, step);
      BudgetStays(cfg, before, step);
      SumGrows(before.db.usage, Apply(cfg, before, step).db.usage);
      if before.db.task.status == Paused {
        PausedStays(cfg, before, step);
      }
    }
  }
}
