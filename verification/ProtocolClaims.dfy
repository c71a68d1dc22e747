/** The claim step, and with it the invariant of every run. */
module ProtocolClaims {
  import opened Options
  import opened Domain
  import opened Ledger
  import opened Transactions
  import opened StageRules
  import opened TaskRules
  import opened TaskSteps
  import opened Protocol
  import opened ProtocolSteps

  lemma SeenKeys(seen: seq<Stage>, ss: seq<Stage>)
    requires DistinctKeys(ss) && Advances(seen, ss)
    ensures DistinctKeys(seen)
  {
    forall i | 0 <= i < |seen| ensures seen[i].key == ss[i].key {
      assert Evolves(seen[i], ss[i]);
    }
  }

  /** The claimed row, and the copy of it the runner gets. */
  lemma ClaimedRow(db: DB, i: nat, s: Stage, mode: Mode)
    requires ClaimTx(db, i, s, mode).Ok? && i < |db.stages| && Evolves(s, db.stages[i])
    requires s.status == Pending || s.status == Planning || s.status == Executing
    requires mode == ExecuteMode <==> s.status == Executing
    requires PastPlan(s) ==> s.plan.Some?
    ensures var row := ClaimTx(db, i, s, mode).value.stages[i];
      var c := Claim(i, ClaimedCopy(s, mode), mode, Text(s.plan), []);
      && ClaimFits(c, row) && c.row.attempt == row.attempt && row.dependsOn == s.dependsOn
      && row.attempt == db.stages[i].attempt + 1
      && (mode == ExecuteMode ==> PastPlan(row) && row.plan == Some(c.plan))
      && (s == db.stages[i] ==> c.row == row) && (s != db.stages[i] ==> c.row.version < row.version)
  {
  }

  lemma ClaimIsOk(db: DB, i: nat, mode: Mode, seen: seq<Stage>)
    requires SnapshotOk(seen, db) && DistinctKeys(db.stages) && i < |seen| && ModeFor(seen[i], seen) == Some(mode)
    requires ClaimTx(db, i, seen[i], mode).Ok? && Grows(db, ClaimTx(db, i, seen[i], mode).value)
    ensures var f := ClaimTx(db, i, seen[i], mode).value;
      var c := MakeClaim(i, seen[i], mode, seen);
      && ClaimOk(c, f) && c.row.attempt == f.stages[i].attempt == db.stages[i].attempt + 1
      && (seen[i] == db.stages[i] ==> c.row == f.stages[i])
      && (seen[i] != db.stages[i] ==> c.row.version < f.stages[i].version)
  {
    hide Grows, Evolves, ClaimTx, PastPlan, InputsOf, Ready;
    var s := seen[i];
    var f := ClaimTx(db, i, s, mode).value;
    assert Ready(s, seen) by {
      ModeMeansReady(s, seen, mode);
    }
    ModeMeansReady(s, seen, mode);
    ClaimedRow(db, i, s, mode);
    SnapshotPersists(seen, db, f);
    SeenKeys(seen, db.stages);
    InputsStay(s, f.stages[i], seen, f.stages);
  }

  lemma ModeMeansReady(s: Stage, seen: seq<Stage>, mode: Mode)
    requires ModeFor(s, seen) == Some(mode)
    ensures s.status == Pending || s.status == Planning || s.status == Executing
    ensures s.status == Pending ==> Ready(s, seen)
    ensures mode == ExecuteMode <==> s.status == Executing
  {
  }

  lemma ClaimIsQuiet(w: World, i: nat, s: Stage, mode: Mode)
    requires ClaimTx(w.db, i, s, mode).Ok? && i !in w.running
    ensures RunnersUndisturbed(w, ClaimTx(w.db, i, s, mode).value)
    ensures ClaimTx(w.db, i, s, mode).value.task.status == w.db.task.status
  {
  }

  function WithClaim(w: World, c: Claim, isCurrent: bool): World {
    var id := |w.claims|;
    w.(claims := w.claims + [c], running := w.running[c.stage := id],
       current := if isCurrent then w.current + {id} else w.current)
  }

  lemma AddClaim(w: World, c: Claim, isCurrent: bool)
    requires ProcessesOk(w) && ClaimOk(c, w.db) && w.db.task.status != Queued
    requires c.row.attempt == w.db.stages[c.stage].attempt
    requires forall a :: 0 <= a < |w.claims| && w.claims[a].stage == c.stage ==> w.claims[a].row.attempt < c.row.attempt
    requires isCurrent ==> c.row == w.db.stages[c.stage]
    requires !isCurrent ==> c.row.version < w.db.stages[c.stage].version
    ensures ProcessesOk(WithClaim(w, c, isCurrent))
  {
    hide PassOk, ClaimOk, AttemptsOk, SettledOk, StaleOk;
    var v := WithClaim(w, c, isCurrent);
    ClaimHasStage(c, w.db);
    forall i | i in v.running ensures RunnerOk(v, i) {
      if i != c.stage {
        assert RunnerOk(w, i);
      } else {
        SettledAreOld(w);
      }
    }
    AddAttempt(w.claims, c);
    AddVersions(w, c, isCurrent);
  }

  lemma ClaimHasStage(c: Claim, db: DB)
    requires ClaimOk(c, db)
    ensures c.stage < |db.stages|
  {
  }

  lemma SettledAreOld(w: World)
    requires SettledOk(w)
    ensures |w.claims| !in w.settled
  {
  }

  lemma AddAttempt(claims: seq<Claim>, c: Claim)
    requires AttemptsOk(claims)
    requires forall a :: 0 <= a < |claims| && claims[a].stage == c.stage ==> claims[a].row.attempt < c.row.attempt
    ensures AttemptsOk(claims + [c])
  {
  }

  lemma AddVersions(w: World, c: Claim, isCurrent: bool)
    requires SettledOk(w) && StaleOk(w) && c.stage < |w.db.stages|
    requires !isCurrent ==> c.row.version < w.db.stages[c.stage].version
    requires forall a :: a in w.current ==> a < |w.claims|
    ensures SettledOk(WithClaim(w, c, isCurrent)) && StaleOk(WithClaim(w, c, isCurrent))
    ensures forall a :: a in WithClaim(w, c, isCurrent).current ==> a < |WithClaim(w, c, isCurrent).claims|
  {
    SettledAreOld(w);
    forall k | 0 <= k < |w.settled| ensures w.settled[k] in w.settled && w.settled[k] < |w.claims| {
    }
  }

  /** Earlier claims of the stage have earlier attempts than a new claim of its row. */
  lemma EarlierAttempts(w: World, i: nat, f: DB)
    requires ProcessesOk(w) && i < |w.db.stages| && i < |f.stages| && f.stages[i].attempt == w.db.stages[i].attempt + 1
    ensures forall a :: 0 <= a < |w.claims| && w.claims[a].stage == i ==> w.claims[a].row.attempt < f.stages[i].attempt
  {
    hide PassOk, AttemptsOk, SettledOk, StaleOk, RunnerOk, Ready, InputsOf, PastPlan;
    forall a | 0 <= a < |w.claims| && w.claims[a].stage == i ensures w.claims[a].row.attempt < f.stages[i].attempt {
      assert ClaimOk(w.claims[a], w.db);
    }
  }

  lemma PassesReplaced(w: World, p: nat, pass: Pass)
    requires ProcessesOk(w) && p < |w.passes| && PassOk(pass, w.db)
    ensures ProcessesOk(w.(passes := w.passes[p := pass]))
  {
    hide PassOk, ClaimOk, AttemptsOk;
    forall i | i in w.running ensures RunnerOk(w.(passes := w.passes[p := pass]), i) {
      assert RunnerOk(w, i);
    }
  }

  /** The claimed stage of a pass. */
  lemma ClaimStep(cfg: Config, w: World, p: nat, mode: Mode)
    requires Inv(cfg, w) && Working(w, p)
    requires var pass := w.passes[p];
      && pass.next < |pass.seen.value| && pass.next !in w.running
      && ModeFor(pass.seen.value[pass.next], pass.seen.value) == Some(mode)
      && ClaimTx(w.db, pass.next, pass.seen.value[pass.next], mode).Ok?
    ensures Inv(cfg, AdvancePass(w, p)) && Grows(w.db, AdvancePass(w, p).db)
  {
    hide TaskOk, ClaimOk, ClaimTx, Grows, AttemptsOk, SettledOk, StaleOk, RunnerOk, RunnersUndisturbed, Evolves, MakeClaim, Ready;
    var pass := w.passes[p];
    var i, seen := pass.next, pass.seen.value;
    assert PassOk(pass, w.db);
    SeenInRange(seen, w.db, i);
    ClaimKeepsTask(cfg, w, i, seen, mode);
    var f := ClaimTx(w.db, i, seen[i], mode).value;
    ClaimIsQuiet(w, i, seen[i], mode);
    QuietStep(cfg, w, f, w.ros, w.lagging);
    ClaimIsOk(w.db, i, mode, seen);
    EarlierAttempts(w, i, f);
    var c := MakeClaim(i, seen[i], mode, seen);
    assert c.stage == i by {
      ClaimIsOf(i, seen, mode);
    }
    var v := w.(db := f);
    AddClaim(v, c, seen[i] == w.db.stages[i]);
    var u := WithClaim(v, c, seen[i] == w.db.stages[i]);
    assert PassOk(pass.(next := i + 1), f) by {
      assert PassOk(v.passes[p], f);
    }
    PassesReplaced(u, p, pass.(next := i + 1));
    assert AdvancePass(w, p) == u.(passes := u.passes[p := pass.(next := i + 1)]);
  }

  lemma ClaimIsOf(i: nat, seen: seq<Stage>, mode: Mode)
    requires i < |seen|
    ensures MakeClaim(i, seen[i], mode, seen).stage == i
  {
  }

  lemma SeenInRange(seen: seq<Stage>, db: DB, i: nat)
    requires SnapshotOk(seen, db) && i < |seen|
    ensures |seen| == |db.stages| && Evolves(seen[i], db.stages[i])
  {
  }

  lemma ClaimKeepsTask(cfg: Config, w: World, i: nat, seen: seq<Stage>, mode: Mode)
    requires TaskOk(cfg, w.db, w.ros, w.lagging) && w.db.task.status != Queued && i < |seen| && i < |w.db.stages|
    requires Evolves(seen[i], w.db.stages[i]) && ModeFor(seen[i], seen) == Some(mode)
    requires ClaimTx(w.db, i, seen[i], mode).Ok?
    ensures TaskOk(cfg, ClaimTx(w.db, i, seen[i], mode).value, w.ros, w.lagging)
    ensures Grows(w.db, ClaimTx(w.db, i, seen[i], mode).value)
  {
    hide TaskOk, ClaimTx, Grows;
    ClaimKeeps(cfg, w.db, w.ros, w.lagging, i, seen[i], mode, seen);
  }

  lemma DeriveStep(cfg: Config, w: World, p: nat)
    requires Inv(cfg, w) && Working(w, p) && w.passes[p].next >= |w.passes[p].seen.value|
    ensures Inv(cfg, AdvancePass(w, p)) && Grows(w.db, AdvancePass(w, p).db)
  {
    hide TaskOk, ClaimOk, Grows, AttemptsOk, SettledOk, StaleOk, RunnerOk, DeriveTx, RunnersUndisturbed;
    var lag := if Terminal(w.db.task.status) then w.lagging else false;
    DeriveKeeps(cfg, w.db, w.ros, w.lagging);
    DeriveIsQuiet(w);
    assert TaskOk(cfg, DeriveTx(w.db), w.ros, lag) by {
      if Terminal(w.db.task.status) {
        TerminalDerives(w.db);
      }
    }
    QuietStep(cfg, w, DeriveTx(w.db), w.ros, lag);
    var v := w.(db := DeriveTx(w.db), lagging := lag);
    assert PassOk(v.passes[p], v.db);
    PassesReplaced(v, p, v.passes[p].(ended := true));
  }

  lemma DeriveIsQuiet(w: World)
    ensures RunnersUndisturbed(w, DeriveTx(w.db))
  {
  }

  lemma TerminalDerives(db: DB)
    requires Terminal(db.task.status)
    ensures DeriveTx(db) == db
  {
  }

  lemma AdvanceKeeps(cfg: Config, w: World, p: nat)
    requires Inv(cfg, w)
    ensures Inv(cfg, Apply(cfg, w, Advance(p))) && Grows(w.db, Apply(cfg, w, Advance(p)).db)
  {
    hide TaskOk, ClaimOk, AttemptsOk, SettledOk, StaleOk, RunnerOk, DeriveTx, Grows, ClaimTx, SnapshotOk;
    GrowsIsReflexive(w.db);
    if Working(w, p) {
      var pass := w.passes[p];
      var i, seen := pass.next, pass.seen.value;
      assert PassOk(pass, w.db);
      PassesReplaced(w, p, pass.(next := i + 1));
      PassesReplaced(w, p, pass.(ended := true));
      if i >= |seen| {
        DeriveStep(cfg, w, p);
      } else {
        var mode := ModeFor(seen[i], seen);
        if i !in w.running && mode.Some? && ClaimTx(w.db, i, seen[i], mode.value).Ok? {
          ClaimStep(cfg, w, p, mode.value);
        }
      }
    }
  }

  // ---- every step, every run ---------------------------------------------------------------

  lemma StepKeeps(cfg: Config, w: World, step: Step)
    requires ValidConfig(cfg) && Inv(cfg, w)
    ensures Inv(cfg, Apply(cfg, w, step)) && Grows(w.db, Apply(cfg, w, step).db)
  {
    hide Inv, Grows, AdvancePass, CommitTx, BlockTx, DecideTx, ControlTx, FailTx;
    GrowsIsReflexive(w.db);
    match step {
      case ReadTask => ReadTaskKeeps(cfg, w);
      case ReadStages(p) => ReadStagesKeeps(cfg, w, p);
      case BeginRun(p) => BeginRunKeeps(cfg, w, p);
      case Advance(p) => AdvanceKeeps(cfg, w, p);
      case Report(c, body) => ReportKeeps(cfg, w, c, body);
      case Commit(c, r) => CommitStepKeeps(cfg, w, c, r);
      case Park(c) => ParkKeeps(cfg, w, c);
      case FailAttempt(c) =>
        if c < |w.claims| && FailTx(w.db, Some(w.claims[c])).Ok? {
          FailKeepsWorld(cfg, w, Some(w.claims[c]));
        }
      case Exit(c) => ExitKeeps(cfg, w, c);
      case FailTask =>
        if FailTx(w.db, None).Ok? {
          FailKeepsWorld(cfg, w, None);
        }
      case Decision(n, version, d, feedback, edited) => DecisionKeeps(cfg, w, n, version, d, feedback, edited);
      case Act(action) => ActKeeps(cfg, w, action);
      case ChangeBudget(budget) => ChangeBudgetKeeps(cfg, w, budget);
      case CheckBudget => CheckBudgetKeeps(cfg, w);
      case Crash => CrashKeeps(cfg, w);
    }
  }

  lemma InitialIsOk(cfg: Config, budget: nat)
    requires ValidConfig(cfg) && budget > 0
    ensures Inv(cfg, Initial(cfg, budget))
  {
    var w := Initial(cfg, budget);
    assert forall i, j :: 0 <= i < j < |cfg.specs| ==> cfg.specs[i].id != cfg.specs[j].id;
    forall i | 0 <= i < |w.db.stages| ensures StageOk(RulesOf(cfg, i), ViewOf(w.db, i), w.ros[i]) {
    }
  }

  /** The invariant holds after every sequence of steps. */
  lemma {:induction false} AlwaysInv(cfg: Config, budget: nat, steps: seq<Step>)
    requires ValidConfig(cfg) && budget > 0
    ensures Inv(cfg, Run(cfg, Initial(cfg, budget), steps))
  {
    InitialIsOk(cfg, budget);
    InvAlongRun(cfg, Initial(cfg, budget), steps);
  }

  /** From any world that satisfies it the invariant lasts, and the rows only grow. */
  lemma {:induction false} InvAlongRun(cfg: Config, w: World, steps: seq<Step>)
    requires ValidConfig(cfg) && Inv(cfg, w)
    ensures Inv(cfg, Run(cfg, w, steps)) && Grows(w.db, Run(cfg, w, steps).db)
  {
    hide Inv, Apply;
    if steps == [] {
      GrowsIsReflexive(w.db);
    } else {
      var before := Run(cfg, w, steps[..|steps| - 1]);
      InvAlongRun(cfg, w, steps[..|steps| - 1]);
      StepKeeps(cfg, before, steps[|steps| - 1]);
      GrowsIsTransitive(w.db, before.db, Run(cfg, w, steps).db);
    }
  }
}
