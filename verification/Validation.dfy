/** What ParsePipeline checks once the file is decoded, and what the protocol relies on. */
module Validation {
  import opened Options
  import opened Pipeline
  import opened Transactions
  import TaskRules

  /** A decoded stage; a list that is absent differs from an empty one. */
  datatype Decoded = Decoded(
    id: string, agent: string, dependsOn: Option<seq<string>>, approvals: Option<seq<string>>)

  datatype Policy = Policy(maxRetries: int, maxIterations: int, tokenBudget: Option<int>, prMode: string)

  datatype Document = Document(version: int, stages: seq<Decoded>, policy: Policy)

  datatype Parsed = Accepted(specs: seq<StageSpec>) | Refused(why: string)

  /** `^[a-z][a-z0-9_]*$` */
  predicate Identifier(s: string) {
    s != "" && 'a' <= s[0] <= 'z'
    && forall k :: 0 <= k < |s| ==> ('a' <= s[k] <= 'z') || ('0' <= s[k] <= '9') || s[k] == '_'
  }

  predicate PolicyOk(p: Policy) {
    && 1 <= p.maxRetries <= 10 && 1 <= p.maxIterations <= 500
    && (p.tokenBudget.Some? ==> p.tokenBudget.value >= 1)
    && (p.prMode == "" || p.prMode == "per-role" || p.prMode == "single")
  }

  /** Absent lists get their defaults. */
  function Normal(d: Decoded): StageSpec {
    StageSpec(d.id, d.agent,
              if d.dependsOn.Some? then d.dependsOn.value else [],
              if d.approvals.Some? then d.approvals.value else ["plan", "deliverable"])
  }

  function AllNormal(ds: seq<Decoded>): (r: seq<StageSpec>)
    ensures |r| == |ds| && forall i :: 0 <= i < |ds| ==> r[i] == Normal(ds[i])
  {
    if ds == [] then [] else AllNormal(ds[..|ds| - 1]) + [Normal(ds[|ds| - 1])]
  }

  ghost predicate NoRepeats(l: seq<string>) {
    forall i, j :: 0 <= i < j < |l| ==> l[i] != l[j]
  }

  ghost predicate NameOk(s: StageSpec) {
    Identifier(s.id) && s.id != "finalize" && Identifier(s.agent)
  }

  ghost predicate ApprovalsOk(s: StageSpec) {
    NoRepeats(s.approvals) && forall k :: 0 <= k < |s.approvals| ==> s.approvals[k] == "plan" || s.approvals[k] == "deliverable"
  }

  ghost predicate DependenciesOk(ss: seq<StageSpec>, s: StageSpec) {
    && NoRepeats(s.dependsOn)
    && forall d :: 0 <= d < |s.dependsOn| ==> Named(ss, All(ss), s.dependsOn[d]) && s.dependsOn[d] != s.id
  }

  /** What the first loop asks: unique names, and approval kinds. */
  ghost predicate StagesOk(ss: seq<StageSpec>) {
    UniqueIds(ss) && forall i :: 0 <= i < |ss| ==> NameOk(ss[i]) && ApprovalsOk(ss[i])
  }

  /** What the second loop asks: every dependency is another declared stage, named once. */
  ghost predicate Linked(ss: seq<StageSpec>) {
    forall i :: 0 <= i < |ss| ==> DependenciesOk(ss, ss[i])
  }

  method CheckApprovals(kinds: seq<string>) returns (ok: bool)
    ensures ok <==> NoRepeats(kinds) && forall k :: 0 <= k < |kinds| ==> kinds[k] == "plan" || kinds[k] == "deliverable"
  {
    var seen: set<string> := {};
    for k := 0 to |kinds|
      invariant forall x :: x in seen <==> exists j :: 0 <= j < k && kinds[j] == x
      invariant NoRepeats(kinds[..k]) && forall j :: 0 <= j < k ==> kinds[j] == "plan" || kinds[j] == "deliverable"
    {
      if (kinds[k] != "plan" && kinds[k] != "deliverable") || kinds[k] in seen {
        return false;
      }
      seen := seen + {kinds[k]};
    }
    assert kinds[..|kinds|] == kinds;
    return true;
  }

  method CheckDependencies(seen: set<string>, id: string, deps: seq<string>) returns (ok: bool)
    ensures ok <==> NoRepeats(deps) && forall d :: 0 <= d < |deps| ==> deps[d] in seen && deps[d] != id
  {
    var met: set<string> := {};
    for d := 0 to |deps|
      invariant forall x :: x in met <==> exists j :: 0 <= j < d && deps[j] == x
      invariant NoRepeats(deps[..d]) && forall j :: 0 <= j < d ==> deps[j] in seen && deps[j] != id
    {
      if deps[d] !in seen || deps[d] == id || deps[d] in met {
        return false;
      }
      met := met + {deps[d]};
    }
    assert deps[..|deps|] == deps;
    return true;
  }

  /** The first loop: names, duplicates, defaults and approval kinds. */
  method CheckStages(ds: seq<Decoded>) returns (seen: set<string>, ss: seq<StageSpec>, ok: bool)
    ensures ok <==> StagesOk(AllNormal(ds))
    ensures ok ==> ss == AllNormal(ds) && forall x :: x in seen <==> Named(ss, All(ss), x)
  {
    hide NameOk, ApprovalsOk, Identifier;
    seen, ss := {}, [];
    for i := 0 to |ds|
      invariant |ss| == i && forall k :: 0 <= k < i ==> ss[k] == Normal(ds[k])
      invariant forall x :: x in seen <==> exists k :: 0 <= k < i && ds[k].id == x
      invariant forall k :: 0 <= k < i ==> NameOk(Normal(ds[k])) && ApprovalsOk(Normal(ds[k]))
      invariant forall j, k :: 0 <= j < k < i ==> ds[j].id != ds[k].id
    {
      var d := ds[i];
      NameIs(Normal(d));
      if !Identifier(d.id) || d.id == "finalize" || !Identifier(d.agent) || d.id in seen {
        return seen, ss, false;
      }
      seen := seen + {d.id};
      var s := Normal(d);
      var fine := CheckApprovals(s.approvals);
      ApprovalsAre(s);
      if !fine {
        return seen, ss, false;
      }
      ss := ss + [s];
    }
    assert ss == AllNormal(ds);
    forall x ensures x in seen <==> Named(ss, All(ss), x) {
      if x in seen {
        var k :| 0 <= k < |ds| && ds[k].id == x;
        assert k in All(ss) && ss[k].id == x;
      }
    }
    return seen, ss, true;
  }

  lemma NameIs(s: StageSpec)
    ensures NameOk(s) <==> Identifier(s.id) && s.id != "finalize" && Identifier(s.agent)
  {
  }

  lemma ApprovalsAre(s: StageSpec)
    ensures ApprovalsOk(s) <==>
      NoRepeats(s.approvals) && forall k :: 0 <= k < |s.approvals| ==> s.approvals[k] == "plan" || s.approvals[k] == "deliverable"
  {
  }

  /**
   * A document is accepted exactly when its limits are in range, its stages are well formed and their
   * dependencies have no cycle; the stages come out in order with their defaults.
   */
  method ParsePipeline(p: Document) returns (r: Parsed)
    ensures r.Accepted? <==>
      p.version == 1 && p.stages != [] && PolicyOk(p.policy)
      && StagesOk(AllNormal(p.stages)) && Linked(AllNormal(p.stages)) && !Cyclic(AllNormal(p.stages))
    ensures r.Accepted? ==> r.specs == AllNormal(p.stages) && p.policy.maxRetries >= 0
    ensures r.Accepted? ==> TaskRules.ValidConfig(Config(r.specs, p.policy.maxRetries))
  {
    if p.version != 1 || |p.stages| == 0 {
      return Refused("pipeline requires version: 1 and at least one stage");
    }
    if p.policy.maxRetries < 1 || p.policy.maxRetries > 10 || p.policy.maxIterations < 1 || p.policy.maxIterations > 500 {
      return Refused("invalid retry or iteration limit");
    }
    if p.policy.tokenBudget.Some? && p.policy.tokenBudget.value < 1 {
      return Refused("invalid token_budget");
    }
    if p.policy.prMode != "" && p.policy.prMode != "per-role" && p.policy.prMode != "single" {
      return Refused("invalid pr mode");
    }
    hide Cyclic, Layered, KnownDeps, AllNormal, Linked, LevelsOk, Done;
    assert StagesOk(AllNormal(p.stages)) ==> UniqueIds(AllNormal(p.stages));
    hide StagesOk, UniqueIds;
    var seen, ss, ok := CheckStages(p.stages);
    if !ok {
      return Refused("invalid or duplicate stage/agent, or invalid approvals");
    }
    var linked := CheckLinks(seen, ss);
    if !linked {
      return Refused("invalid dependency");
    }
    DependenciesAreKnown(ss);
    var levels := Levels(ss);
    if levels.None? {
      return Refused("pipeline contains a cycle");
    }
    FinishedIsLayered(ss, |levels.value|);
    return Accepted(ss);
  }

  method CheckLinks(seen: set<string>, ss: seq<StageSpec>) returns (ok: bool)
    requires forall x :: x in seen <==> Named(ss, All(ss), x)
    ensures ok <==> Linked(ss)
  {
    hide Named, All;
    for i := 0 to |ss|
      invariant forall k :: 0 <= k < i ==> DependenciesOk(ss, ss[k])
    {
      var fine := CheckDependencies(seen, ss[i].id, ss[i].dependsOn);
      if !fine {
        assert !DependenciesOk(ss, ss[i]);
        return false;
      }
    }
    return true;
  }

  lemma DependenciesAreKnown(ss: seq<StageSpec>)
    requires Linked(ss)
    ensures KnownDeps(ss)
  {
  }
}
