/** One agent run: the loop of budget check, model call, usage record and tool calls. */
module Runner {
  import opened Options

  datatype ToolUse = ToolUse(id: string, name: string, path: string)

  datatype Turn = Turn(text: string, calls: seq<ToolUse>, tokens: nat)

  /** How one tool call goes: cancelled before, refused event, its own result. */
  datatype ToolOutcome = Cancelled | NotEmitted | Answered(ok: bool, badArgs: bool, recorded: bool)

  /**
   * What the run meets: the budget check and the "thinking" event of iteration `i`, the model's turn (None
   * for an error), whether its usage could be recorded, and how call `j` of the turn goes.
   */
  datatype Env = Env(
    passes: nat -> bool, announced: nat -> bool, turn: nat -> Option<Turn>, metered: nat -> bool,
    tool: (nat, nat) -> ToolOutcome, noted: bool, file: string -> Option<string>, rewritten: bool)

  datatype Act =
    | Checked(ok: bool) | Announced | Called | Metered(tokens: nat)
    | ToolStarted(id: string) | ToolEnded(id: string, ok: bool) | LimitNoted

  datatype Mode = Plan | Execute

  datatype Outcome = Outcome(
    content: string, ref: Option<string>, written: seq<string>, iterations: nat, hitLimit: bool)

  // ---- the discipline ---------------------------------------------------------------------------------

  /** Where a run stands after its last act. */
  datatype Stand = Ready | Allowed | Ahead | Owing | Working | InTool(id: string) | Over

  function After(s: Stand, a: Act): Option<Stand> {
    match a
    case Checked(ok) => if s == Ready || s == Working then Some(if ok then Allowed else Over) else None
    case Announced => if s == Allowed then Some(Ahead) else None
    case Called => if s == Ahead then Some(Owing) else None
    case Metered(_) => if s == Owing then Some(Working) else None
    case ToolStarted(id) => if s == Working then Some(InTool(id)) else None
    case ToolEnded(id, _) => if s == InTool(id) then Some(Working) else None
    case LimitNoted => if s == Working then Some(Over) else None
  }

  function StandOf(trace: seq<Act>): Option<Stand> {
    if trace == [] then Some(Ready)
    else
      var s := StandOf(trace[..|trace| - 1]);
      if s.None? then None else After(s.value, trace[|trace| - 1])
  }

  /** A trace that keeps the discipline from the start. */
  predicate Disciplined(trace: seq<Act>) {
    StandOf(trace).Some?
  }

  lemma Extend(trace: seq<Act>, a: Act)
    ensures StandOf(trace + [a]) == if StandOf(trace).None? then None else After(StandOf(trace).value, a)
    ensures Calls(trace + [a]) == Calls(trace) + if a.Called? then 1 else 0
    ensures Tokens(trace + [a]) == Tokens(trace) + if a.Metered? then a.tokens else 0
    ensures NoTools(trace + [a]) <==> NoTools(trace) && !a.ToolStarted?
  {
    assert (trace + [a])[..|trace|] == trace;
  }

  lemma {:induction false} PrefixIsDisciplined(trace: seq<Act>, k: nat)
    requires Disciplined(trace) && k <= |trace|
    ensures Disciplined(trace[..k])
  {
    if k < |trace| {
      PrefixIsDisciplined(trace[..|trace| - 1], k);
      assert trace[..|trace| - 1][..k] == trace[..k];
    } else {
      assert trace[..k] == trace;
    }
  }

  lemma StandAt(trace: seq<Act>, k: nat)
    requires Disciplined(trace) && k < |trace|
    ensures Disciplined(trace[..k]) && StandOf(trace[..k + 1]) == After(StandOf(trace[..k]).value, trace[k])
    ensures StandOf(trace[..k + 1]).Some?
  {
    PrefixIsDisciplined(trace, k);
    PrefixIsDisciplined(trace, k + 1);
    assert trace[..k + 1] == trace[..k] + [trace[k]];
    Extend(trace[..k], trace[k]);
  }

  /** Every model call directly follows a passed budget check, and its usage is recorded before anything else. */
  lemma CallsAreBudgeted(trace: seq<Act>, k: nat)
    requires Disciplined(trace) && k < |trace| && trace[k].Called?
    ensures k >= 2 && trace[k - 2] == Checked(true) && trace[k - 1] == Announced
    ensures k + 1 < |trace| ==> trace[k + 1].Metered?
  {
    StandAt(trace, k);
    assert StandOf(trace[..0]) == Some(Ready);
    StandAt(trace, k - 1);
    StandAt(trace, k - 2);
    if k + 1 < |trace| {
      StandAt(trace, k + 1);
    }
  }

  function Calls(trace: seq<Act>): nat {
    if trace == [] then 0
    else Calls(trace[..|trace| - 1]) + if trace[|trace| - 1].Called? then 1 else 0
  }

  /** The tokens recorded. */
  function Tokens(trace: seq<Act>): nat {
    if trace == [] then 0
    else Tokens(trace[..|trace| - 1]) + if trace[|trace| - 1].Metered? then trace[|trace| - 1].tokens else 0
  }

  predicate NoTools(trace: seq<Act>) {
    forall k :: 0 <= k < |trace| ==> !trace[k].ToolStarted?
  }

  /** The tokens the first `n` turns cost. */
  function Spent(env: Env, n: nat): nat {
    if n == 0 then 0
    else Spent(env, n - 1) + if env.turn(n - 1).Some? then env.turn(n - 1).value.tokens else 0
  }

  function LimitOf(mode: Mode, maxIterations: nat): nat {
    if mode == Plan then 1 else maxIterations
  }

  const LIMIT_NOTE := "[iteration limit reached — submitting current deliverable]"
  const HEADER := "> Task:"

  predicate Talks(env: Env, i: nat) {
    env.turn(i).Some? && env.turn(i).value.calls == []
  }

  predicate Works(env: Env, i: nat) {
    env.turn(i).Some? && env.turn(i).value.calls != []
  }

  // ---- the run ----------------------------------------------------------------------------------------

  /** Budget check, announcement, model call and usage record of iteration `i`. */
  method Ask(env: Env, i: nat, before: seq<Act>) returns (turn: Option<Turn>, metered: bool, trace: seq<Act>)
    requires StandOf(before) == Some(Ready) || StandOf(before) == Some(Working)
    ensures Disciplined(trace) && Calls(before) <= Calls(trace) <= Calls(before) + 1
    ensures NoTools(before) ==> NoTools(trace)
    ensures turn.Some? ==> turn == env.turn(i) && Calls(trace) == Calls(before) + 1
    ensures turn.Some? && metered ==>
      StandOf(trace) == Some(Working) && Tokens(trace) == Tokens(before) + turn.value.tokens
  {
    turn, metered, trace := None, false, before;
    Extend(trace, Checked(env.passes(i)));
    trace := trace + [Checked(env.passes(i))];
    if !env.passes(i) || !env.announced(i) {
      return;
    }
    Extend(trace, Announced);
    trace := trace + [Announced];
    Extend(trace, Called);
    trace := trace + [Called];
    turn := env.turn(i);
    if turn.None? || !env.metered(i) {
      return;
    }
    metered := true;
    Extend(trace, Metered(turn.value.tokens));
    trace := trace + [Metered(turn.value.tokens)];
  }

  /** The file that a call writes, if it succeeds. */
  function WroteBy(use: ToolUse, outcome: ToolOutcome): seq<string> {
    if outcome.Answered? && outcome.ok && use.name == "write_file" then [use.path] else []
  }

  /** The files written by the first `n` calls of a turn, in order. */
  function Wrote(env: Env, i: nat, calls: seq<ToolUse>, n: nat): seq<string>
    requires n <= |calls|
  {
    if n == 0 then [] else Wrote(env, i, calls, n - 1) + WroteBy(calls[n - 1], env.tool(i, n - 1))
  }

  /** The files written in the first `n` turns. */
  function AllWrote(env: Env, n: nat): seq<string> {
    if n == 0 then []
    else
      AllWrote(env, n - 1)
      + if env.turn(n - 1).Some? then Wrote(env, n - 1, env.turn(n - 1).value.calls, |env.turn(n - 1).value.calls|) else []
  }

  /** The acts of the first `n` calls of a turn: each is announced, then answered with its own outcome. */
  function ToolActs(env: Env, i: nat, calls: seq<ToolUse>, n: nat): seq<Act>
    requires n <= |calls|
  {
    if n == 0 then []
    else
      var outcome := env.tool(i, n - 1);
      ToolActs(env, i, calls, n - 1)
      + [ToolStarted(calls[n - 1].id), ToolEnded(calls[n - 1].id, outcome.Answered? && outcome.ok)]
  }

  /** The tool calls of one turn, in order. */
  method RunTools(env: Env, i: nat, calls: seq<ToolUse>, before: seq<Act>, paths: seq<string>)
      returns (ok: bool, trace: seq<Act>, written: seq<string>)
    requires StandOf(before) == Some(Working)
    ensures Disciplined(trace) && (ok ==> StandOf(trace) == Some(Working))
    ensures Calls(trace) == Calls(before) && Tokens(trace) == Tokens(before)
    ensures ok ==> trace == before + ToolActs(env, i, calls, |calls|) && written == paths + Wrote(env, i, calls, |calls|)
  {
    trace, written := before, paths;
    assert before + [] == before && paths + [] == paths;
    for j := 0 to |calls|
      invariant StandOf(trace) == Some(Working) && Calls(trace) == Calls(before) && Tokens(trace) == Tokens(before)
      invariant trace == before + ToolActs(env, i, calls, j) && written == paths + Wrote(env, i, calls, j)
    {
      var outcome := env.tool(i, j);
      if !outcome.Answered? {
        return false, trace, written;
      }
      Extend(trace, ToolStarted(calls[j].id));
      trace := trace + [ToolStarted(calls[j].id)];
      if outcome.ok && calls[j].name == "write_file" {
        if outcome.badArgs {
          return false, trace, written;
        }
        written := written + [calls[j].path];
      }
      if !outcome.recorded {
        return false, trace, written;
      }
      Extend(trace, ToolEnded(calls[j].id, outcome.ok));
      trace := trace + [ToolEnded(calls[j].id, outcome.ok)];
      NextTool(env, i, calls, j, before, paths);
    }
    return true, trace, written;
  }

  lemma NextTool(env: Env, i: nat, calls: seq<ToolUse>, j: nat, before: seq<Act>, paths: seq<string>)
    requires j < |calls| && env.tool(i, j).Answered?
    ensures before + ToolActs(env, i, calls, j + 1) ==
      before + ToolActs(env, i, calls, j) + [ToolStarted(calls[j].id)] + [ToolEnded(calls[j].id, env.tool(i, j).ok)]
    ensures paths + Wrote(env, i, calls, j + 1) == paths + Wrote(env, i, calls, j) + WroteBy(calls[j], env.tool(i, j))
  {
  }

  /** A file with its header line, which is not put there twice. */
  function WithHeader(header: string, text: string): (r: string)
    requires HEADER <= header
    ensures HEADER <= r && (HEADER <= text ==> r == text) && (!(HEADER <= text) ==> r == header + text)
  {
    if HEADER <= text then text else header + text
  }

  /** The last file written becomes the deliverable. */
  predicate Submits(mode: Mode, out: Outcome) {
    mode == Execute && out.written != []
  }

  /** That file can be read, and written again if it has no header. */
  predicate Submittable(env: Env, path: string) {
    env.file(path).Some? && (HEADER <= env.file(path).value || env.rewritten)
  }

  /**
   * The last file written becomes the deliverable, with a header line. `saved` is what the file is
   * overwritten with; after a success the file and the deliverable are the same text.
   */
  method Submit(env: Env, mode: Mode, before: Outcome, header: string)
      returns (ok: bool, out: Outcome, saved: Option<string>)
    requires HEADER <= header && before.ref.None?
    ensures out.written == before.written && out.iterations == before.iterations && out.hitLimit == before.hitLimit
    ensures ok <==> Submits(mode, before) ==> Submittable(env, before.written[|before.written| - 1])
    ensures !Submits(mode, before) ==> out == before && saved.None?
    ensures Submits(mode, before) ==> out.ref == Some(before.written[|before.written| - 1])
    ensures ok && out.ref.Some? ==>
      var text := env.file(out.ref.value).value;
      out.content == WithHeader(header, text) && saved == if HEADER <= text then None else Some(out.content)
    ensures !ok ==> saved.None?
  {
    out, saved := before, None;
    if mode == Execute && |out.written| > 0 {
      var primary := out.written[|out.written| - 1];
      out := out.(ref := Some(primary));
      var text := env.file(primary);
      if text.None? {
        return false, out, None;
      }
      out := out.(content := text.value);
      if !(HEADER <= text.value) {
        out := out.(content := header + text.value);
        if !env.rewritten {
          return false, out, None;
        }
        saved := Some(out.content);
      }
    }
    return true, out, saved;
  }

  /** What holds after `n` turns. */
  ghost predicate AfterTurns(env: Env, mode: Mode, limit: nat, n: nat, out: Outcome, trace: seq<Act>) {
    && n <= limit && out.iterations == n == Calls(trace) && Tokens(trace) == Spent(env, n)
    && out.ref.None? && out.written == AllWrote(env, n)
    && (mode == Plan ==> out.written == [] && NoTools(trace)) && Disciplined(trace)
  }

  /** All `n` turns called tools, and another turn follows. */
  ghost predicate GoesOn(env: Env, mode: Mode, limit: nat, n: nat, out: Outcome, trace: seq<Act>) {
    && AfterTurns(env, mode, limit, n, out, trace) && n < limit && !out.hitLimit
    && (forall k :: 0 <= k < n ==> Works(env, k))
    && StandOf(trace) == Some(if n == 0 then Ready else Working)
  }

  /** The turns are over: the last one only talked, or there was none, or the limit was hit while working. */
  ghost predicate IsOver(env: Env, mode: Mode, limit: nat, n: nat, out: Outcome, trace: seq<Act>) {
    && AfterTurns(env, mode, limit, n, out, trace)
    && (forall k :: 0 <= k < n - 1 ==> Works(env, k))
    && (if out.hitLimit then mode == Execute && n == limit > 0 && Works(env, n - 1) && out.content == LIMIT_NOTE
        else limit > 0 ==> n > 0 && Talks(env, n - 1) && out.content == env.turn(n - 1).value.text)
  }

  datatype TurnEnd = Broken | Further | Finished

  /** One iteration of the loop. */
  method OneTurn(env: Env, mode: Mode, limit: nat, i: nat, before: Outcome, past: seq<Act>)
      returns (r: TurnEnd, out: Outcome, trace: seq<Act>)
    requires GoesOn(env, mode, limit, i, before, past) && (mode == Plan ==> limit == 1)
    ensures r == Broken ==> Disciplined(trace) && out.iterations <= Calls(trace) <= i + 1
    ensures r == Broken && mode == Plan ==> NoTools(trace) && out.written == []
    ensures r == Further ==> GoesOn(env, mode, limit, i + 1, out, trace)
    ensures r == Finished ==> IsOver(env, mode, limit, i + 1, out, trace)
  {
    hide Spent, AllWrote, Wrote, ToolActs, Tokens, Calls, NoTools, StandOf;
    out := before;
    var turn, metered;
    turn, metered, trace := Ask(env, i, past);
    if turn.None? {
      return Broken, out, trace;
    }
    out := out.(iterations := i + 1);
    if !metered {
      return Broken, out, trace;
    }
    NextSpent(env, i);
    if turn.value.calls == [] {
      return Finished, out.(content := turn.value.text), trace;
    }
    if mode == Plan {
      return Broken, out, trace;
    }
    var done, more, written := RunTools(env, i, turn.value.calls, trace, out.written);
    trace, out := more, out.(written := written);
    if !done {
      return Broken, out, trace;
    }
    if i == limit - 1 {
      out := out.(hitLimit := true, content := LIMIT_NOTE);
      if !env.noted {
        return Broken, out, trace;
      }
      Extend(trace, LimitNoted);
      return Finished, out, trace + [LimitNoted];
    }
    return Further, out, trace;
  }

  /**
   * Whatever the environment does, the trace is disciplined, the model is called at most `limit` times, and
   * no tool runs for a plan. A successful run has recorded the cost of every turn, ends at the first turn
   * without tool calls, and is marked as limited exactly when there was none.
   */
  method Run(env: Env, mode: Mode, maxIterations: nat, header: string)
      returns (ok: bool, out: Outcome, trace: seq<Act>, saved: Option<string>)
    requires HEADER <= header
    ensures Disciplined(trace)
    ensures Calls(trace) <= LimitOf(mode, maxIterations) && out.iterations <= Calls(trace)
    ensures mode == Plan ==> NoTools(trace) && out.written == []
    ensures ok ==> out.iterations == Calls(trace) && Tokens(trace) == Spent(env, out.iterations)
    ensures ok ==> out.written == AllWrote(env, out.iterations)
    ensures ok ==> forall i :: 0 <= i < out.iterations - 1 ==> Works(env, i)
    ensures ok && !out.hitLimit && LimitOf(mode, maxIterations) > 0 ==>
      out.iterations > 0 && Talks(env, out.iterations - 1)
      && (out.ref.None? ==> out.content == env.turn(out.iterations - 1).value.text)
    ensures ok && out.hitLimit ==>
      mode == Execute && out.iterations == maxIterations > 0 && Works(env, maxIterations - 1)
      && (out.ref.None? ==> out.content == LIMIT_NOTE)
    ensures ok ==> out.ref == if out.written == [] then None else Some(out.written[|out.written| - 1])
    ensures ok && out.ref.Some? ==> Submittable(env, out.ref.value)
    ensures ok && out.ref.Some? ==>
      var text := env.file(out.ref.value).value;
      out.content == WithHeader(header, text) && saved == if HEADER <= text then None else Some(out.content)
    ensures !ok || out.ref.None? ==> saved.None?
  {
    out, trace, saved := Outcome("", None, [], 0, false), [], None;
    var limit := LimitOf(mode, maxIterations);
    var i, over := 0, limit == 0;
    assert AfterTurns(env, mode, limit, 0, out, trace);
    hide Spent, AllWrote, Tokens, Calls, NoTools, StandOf, Disciplined, Works, Talks;
    while !over
      invariant if over then IsOver(env, mode, limit, i, out, trace) else GoesOn(env, mode, limit, i, out, trace)
      decreases limit - i
    {
      var r;
      r, out, trace := OneTurn(env, mode, limit, i, out, trace);
      if r == Broken {
        return false, out, trace, None;
      }
      i, over := i + 1, r == Finished;
    }
    ok, out, saved := Submit(env, mode, out, header);
  }

  lemma NextSpent(env: Env, i: nat)
    requires env.turn(i).Some?
    ensures Spent(env, i + 1) == Spent(env, i) + env.turn(i).value.tokens
    ensures var calls := env.turn(i).value.calls; AllWrote(env, i + 1) == AllWrote(env, i) + Wrote(env, i, calls, |calls|)
    ensures env.turn(i).value.calls == [] ==> AllWrote(env, i + 1) == AllWrote(env, i)
  {
  }
}
