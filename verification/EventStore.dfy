/** The browser's event store: a sorted timeline per task with incrementally kept derived maps. */
module EventStore {
  import opened Options

  datatype Type = Thinking | ToolCall | ToolResult | Other(name: string)

  /** A server event as the client parses it; absent payload members are `None`. */
  datatype TaskEvent = TaskEvent(
    id: string, number: nat, stage: Option<string>, agent: Option<string>,
    kind: Type, summary: Option<string>, callId: Option<string>)

  /** `JSON.stringify([stage_key, agent, callId])`, which is injective. */
  datatype Key = Key(stage: Option<string>, agent: Option<string>, callId: string)

  datatype ToolPair = ToolPair(call: TaskEvent, result: Option<TaskEvent>)

  /** The maps computed from the timeline. */
  datatype Derived = Derived(
    thinking: map<string, string>, toolPairs: map<string, ToolPair>, pendingToolCalls: map<Key, string>)

  // ---- the specification ------------------------------------------------------------------------

  predicate Sorted(es: seq<TaskEvent>) {
    forall i, j :: 0 <= i < j < |es| ==> es[i].number < es[j].number
  }

  /** The timeline with one more event; a number already present is ignored. */
  function Inserted(es: seq<TaskEvent>, ev: TaskEvent): seq<TaskEvent> {
    if es == [] || es[|es| - 1].number < ev.number then es + [ev]
    else if es[|es| - 1].number == ev.number then es
    else Inserted(es[..|es| - 1], ev) + [es[|es| - 1]]
  }

  function Appended(es: seq<TaskEvent>, incoming: seq<TaskEvent>): seq<TaskEvent> {
    if incoming == [] then es
    else Inserted(Appended(es, incoming[..|incoming| - 1]), incoming[|incoming| - 1])
  }

  function LastSeq(es: seq<TaskEvent>): nat {
    if es == [] then 0 else es[|es| - 1].number
  }

  function ApplyDerived(d: Derived, ev: TaskEvent): Derived {
    var t := if ev.kind == Thinking && ev.agent.Some? && ev.agent.value != "" && ev.summary.Some?
      then d.(thinking := d.thinking[ev.agent.value := ev.summary.value]) else d;
    if ev.callId.None? then t
    else
      var key := Key(ev.stage, ev.agent, ev.callId.value);
      if ev.kind == ToolCall then
        t.(toolPairs := t.toolPairs[ev.id := ToolPair(ev, None)],
           pendingToolCalls := t.pendingToolCalls[key := ev.id])
      else if ev.kind == ToolResult && key in t.pendingToolCalls && t.pendingToolCalls[key] in t.toolPairs then
        var id := t.pendingToolCalls[key];
        if id == "" then t
        else t.(toolPairs := t.toolPairs[id := t.toolPairs[id].(result := Some(ev))],
                pendingToolCalls := t.pendingToolCalls - {key})
      else t
  }

  /** The derived maps recomputed from the whole timeline. */
  function Rebuilt(es: seq<TaskEvent>): Derived {
    if es == [] then Derived(map[], map[], map[])
    else ApplyDerived(Rebuilt(es[..|es| - 1]), es[|es| - 1])
  }

  // ---- the store ------------------------------------------------------------------------------------

  class TaskEvents {
    var events: seq<TaskEvent>
    var lastSeq: nat
    var thinking: map<string, string>
    var toolPairs: map<string, ToolPair>
    var pendingToolCalls: map<Key, string>

    /** emptyTaskEvents */
    constructor Empty()
      ensures Valid() && events == [] && lastSeq == 0 && Maps() == Derived(map[], map[], map[])
    {
      events, lastSeq, thinking, toolPairs, pendingToolCalls := [], 0, map[], map[], map[];
    }

    constructor Copy(prev: TaskEvents)
      ensures events == prev.events && lastSeq == prev.lastSeq && Maps() == prev.Maps()
      ensures prev.Valid() ==> Valid()
    {
      events, lastSeq := prev.events, prev.lastSeq;
      thinking, toolPairs, pendingToolCalls := prev.thinking, prev.toolPairs, prev.pendingToolCalls;
    }

    function Maps(): Derived
      reads this
    {
      Derived(thinking, toolPairs, pendingToolCalls)
    }

    /** The bucket is what its own timeline determines. */
    ghost predicate Valid()
      reads this
    {
      Sorted(events) && lastSeq == LastSeq(events) && Maps() == Rebuilt(events)
    }

    /** A binary search for the place, then a splice. */
    method InsertSorted(ev: TaskEvent) returns (added: bool)
      requires Sorted(events)
      modifies this`events
      ensures Sorted(events) && events == Inserted(old(events), ev)
      ensures added <==> forall k :: 0 <= k < |old(events)| ==> old(events)[k].number != ev.number
      ensures !added ==> events == old(events)
    {
      var lo, hi := 0, |events|;
      while lo < hi
        invariant 0 <= lo <= hi <= |events| && events == old(events)
        invariant forall k :: 0 <= k < lo ==> events[k].number < ev.number
        invariant forall k :: hi <= k < |events| ==> events[k].number >= ev.number
      {
        var mid := (lo + hi) / 2;
        if events[mid].number < ev.number {
          lo := mid + 1;
        } else {
          hi := mid;
        }
      }
      InsertedAt(events, ev, lo);
      if lo < |events| && events[lo].number == ev.number {
        return false;
      }
      events := events[..lo] + [ev] + events[lo..];
      return true;
    }

    method ApplyDerivedTo(ev: TaskEvent)
      requires PendingCalls(Maps())
      modifies this`thinking, this`toolPairs, this`pendingToolCalls
      ensures Maps() == ApplyDerived(old(Maps()), ev)
    {
      if ev.kind == Thinking && ev.agent.Some? && ev.agent.value != "" {
        if ev.summary.Some? {
          thinking := thinking[ev.agent.value := ev.summary.value];
        }
      }
      if ev.callId.Some? {
        var key := Key(ev.stage, ev.agent, ev.callId.value);
        if ev.kind == ToolCall {
          toolPairs := toolPairs[ev.id := ToolPair(ev, None)];
          pendingToolCalls := pendingToolCalls[key := ev.id];
        } else if ev.kind == ToolResult {
          if key in pendingToolCalls && pendingToolCalls[key] != "" {
            var id := pendingToolCalls[key];
            toolPairs := toolPairs[id := toolPairs[id].(result := Some(ev))];
            pendingToolCalls := pendingToolCalls - {key};
          }
        }
      }
    }

    /** The loop of appendMany: late events are only noted, and the maps are rebuilt afterwards. */
    method Merge(incoming: seq<TaskEvent>) returns (changed: bool, needsRebuild: bool)
      requires Valid()
      modifies this
      ensures events == Appended(old(events), incoming) && Sorted(events) && lastSeq == LastSeq(events)
      ensures !needsRebuild ==> Maps() == Rebuilt(events)
      ensures changed <==> events != old(events)
      ensures !changed ==> Valid()
    {
      changed, needsRebuild := false, false;
      PendingAreCalls(events);
      hide Inserted, Appended, Rebuilt, ApplyDerived, PendingCalls, Sorted;
      assert Appended(events, incoming[..0]) == events by {
        AppendedNone(events);
      }
      for i := 0 to |incoming|
        invariant events == Appended(old(events), incoming[..i]) && Sorted(events) && lastSeq == LastSeq(events)
        invariant !needsRebuild ==> Maps() == Rebuilt(events)
        invariant PendingCalls(Maps())
        invariant |events| >= |old(events)| && (changed <==> |events| > |old(events)|)
        invariant !changed ==> events == old(events) && !needsRebuild
      {
        var ev := incoming[i];
        AppendedStep(old(events), incoming, i);
        ghost var before := events;
        InsertedSize(before, ev);
        var added := InsertSorted(ev);
        if added {
          changed := true;
          LastOfInserted(before, ev);
          if ev.number < lastSeq {
            needsRebuild := true;
          } else {
            RebuiltStep(before, ev);
            PendingStep(Maps(), ev);
            ApplyDerivedTo(ev);
          }
          if ev.number > lastSeq {
            lastSeq := ev.number;
          }
        }
      }
      assert incoming[..|incoming|] == incoming;
    }

    method RebuildDerived()
      modifies this`thinking, this`toolPairs, this`pendingToolCalls
      ensures Maps() == Rebuilt(events)
    {
      thinking, toolPairs, pendingToolCalls := map[], map[], map[];
      for i := 0 to |events|
        invariant Maps() == Rebuilt(events[..i])
      {
        assert events[..i + 1] == events[..i] + [events[i]];
        RebuiltStep(events[..i], events[i]);
        PendingAreCalls(events[..i]);
        ApplyDerivedTo(events[i]);
      }
      assert events[..|events|] == events;
    }
  }

  class Store {
    var byTask: map<string, TaskEvents>

    constructor ()
      ensures byTask == map[]
    {
      byTask := map[];
    }

    ghost predicate Valid()
      reads this, byTask.Values
    {
      forall id :: id in byTask ==> byTask[id].Valid()
    }

    ghost function Timeline(taskId: string): seq<TaskEvent>
      reads this, byTask.Values
    {
      if taskId in byTask then byTask[taskId].events else []
    }

    /** Earlier snapshots are never written: only the map entry of the task is replaced. */
    method AppendMany(taskId: string, incoming: seq<TaskEvent>)
      requires Valid()
      modifies this
      ensures Valid()
      ensures Timeline(taskId) == Appended(old(Timeline(taskId)), incoming)
      ensures byTask == old(byTask) || (taskId in byTask && byTask == old(byTask)[taskId := byTask[taskId]])
      ensures byTask == old(byTask) || fresh(byTask[taskId])
      ensures Timeline(taskId) == old(Timeline(taskId)) ==> byTask == old(byTask)
    {
      hide Inserted, Appended, Rebuilt, ApplyDerived, Sorted;
      var t;
      if taskId in byTask {
        t := new TaskEvents.Copy(byTask[taskId]);
      } else {
        t := new TaskEvents.Empty();
      }
      var changed, needsRebuild := t.Merge(incoming);
      if !changed {
        return;
      }
      if needsRebuild {
        t.RebuildDerived();
      }
      assert t.Valid();
      hide TaskEvents.Valid;
      byTask := byTask[taskId := t];
    }

    method Append(taskId: string, ev: TaskEvent)
      requires Valid()
      modifies this
      ensures Valid() && Timeline(taskId) == Appended(old(Timeline(taskId)), [ev])
    {
      AppendMany(taskId, [ev]);
    }

    /** The bucket becomes that of the given events alone. */
    method Replace(taskId: string, events: seq<TaskEvent>)
      requires Valid()
      modifies this
      ensures Valid() && Timeline(taskId) == Appended([], events)
      ensures taskId in byTask && byTask == old(byTask)[taskId := byTask[taskId]] && fresh(byTask[taskId])
    {
      var t := BucketOf(events);
      hide TaskEvents.Valid, Appended;
      byTask := byTask[taskId := t];
    }
  }

  method BucketOf(events: seq<TaskEvent>) returns (t: TaskEvents)
    ensures fresh(t) && t.Valid() && t.events == Appended([], events)
  {
    t := new TaskEvents.Empty();
    assert Sorted(t.events) && Appended([], events[..0]) == [];
    hide Inserted, Appended, Rebuilt, ApplyDerived, PendingCalls, Sorted;
    for i := 0 to |events|
      invariant fresh(t)
      invariant Sorted(t.events) && t.events == Appended([], events[..i])
    {
      AppendedStep([], events, i);
      var added := t.InsertSorted(events[i]);
    }
    assert events[..|events|] == events;
    t.lastSeq := if |t.events| > 0 then t.events[|t.events| - 1].number else 0;
    t.RebuildDerived();
  }

  // ---- insertion ------------------------------------------------------------------------------------

  lemma SpliceLast<T>(front: seq<T>, last: T, x: T, lo: nat)
    requires lo <= |front|
    ensures (front[..lo] + [x] + front[lo..]) + [last] == (front + [last])[..lo] + [x] + (front + [last])[lo..]
  {
  }

  lemma {:induction false} InsertedAt(es: seq<TaskEvent>, ev: TaskEvent, lo: nat)
    requires Sorted(es) && lo <= |es|
    requires forall k :: 0 <= k < lo ==> es[k].number < ev.number
    requires forall k :: lo <= k < |es| ==> es[k].number >= ev.number
    ensures lo < |es| && es[lo].number == ev.number ==> Inserted(es, ev) == es
    ensures !(lo < |es| && es[lo].number == ev.number) ==> Inserted(es, ev) == es[..lo] + [ev] + es[lo..]
  {
    if lo == |es| {
      assert es[..lo] == es;
    } else if lo < |es| - 1 || es[lo].number > ev.number {
      assert es[lo].number <= es[|es| - 1].number;
      var front, last := es[..|es| - 1], es[|es| - 1];
      InsertedAt(front, ev, lo);
      assert es == front + [last];
      SpliceLast(front, last, ev, lo);
    }
  }

  predicate Has(es: seq<TaskEvent>, n: nat) {
    exists k :: 0 <= k < |es| && es[k].number == n
  }

  lemma {:induction false} InsertedHas(es: seq<TaskEvent>, ev: TaskEvent)
    requires Sorted(es)
    ensures Sorted(Inserted(es, ev))
    ensures forall e :: e in Inserted(es, ev) <==> e in es || (e == ev && !Has(es, ev.number))
  {
    if es != [] && es[|es| - 1].number > ev.number {
      var front, last := es[..|es| - 1], es[|es| - 1];
      assert es == front + [last];
      InsertedHas(front, ev);
      assert Has(es, ev.number) <==> Has(front, ev.number) by {
        assert forall k :: 0 <= k < |front| ==> front[k] == es[k];
      }
      forall e | e in Inserted(front, ev) ensures e.number < last.number {
        assert e in front || e == ev;
      }
    } else if es != [] && es[|es| - 1].number < ev.number {
      assert !Has(es, ev.number);
    }
  }

  lemma {:induction false} InsertedSize(es: seq<TaskEvent>, ev: TaskEvent)
    ensures |es| <= |Inserted(es, ev)| <= |es| + 1
    ensures |Inserted(es, ev)| == |es| ==> Inserted(es, ev) == es
  {
    if es != [] && es[|es| - 1].number > ev.number {
      InsertedSize(es[..|es| - 1], ev);
    }
  }

  lemma LastOfInserted(es: seq<TaskEvent>, ev: TaskEvent)
    requires Sorted(es) && !Has(es, ev.number)
    ensures |Inserted(es, ev)| == |es| + 1
    ensures LastSeq(Inserted(es, ev)) == if ev.number > LastSeq(es) then ev.number else LastSeq(es)
    ensures ev.number >= LastSeq(es) ==> Inserted(es, ev) == es + [ev]
  {
    InsertedSize(es, ev);
    InsertedHas(es, ev);
    assert ev !in es && ev in Inserted(es, ev);
  }

  // ---- the timeline is a function of the set of events ------------------------------------------------

  /** Events with the same number are the same event, as the server's ledger guarantees. */
  ghost predicate Consistent(es: seq<TaskEvent>) {
    forall i, j :: 0 <= i < |es| && 0 <= j < |es| && es[i].number == es[j].number ==> es[i] == es[j]
  }

  lemma {:induction false} AppendedHas(es: seq<TaskEvent>, incoming: seq<TaskEvent>)
    requires Sorted(es)
    ensures Sorted(Appended(es, incoming))
    ensures forall e :: e in Appended(es, incoming) ==> e in es || e in incoming
    ensures forall e :: e in es ==> e in Appended(es, incoming)
    ensures forall e :: e in incoming ==> Has(Appended(es, incoming), e.number)
  {
    if incoming != [] {
      var front, last := incoming[..|incoming| - 1], incoming[|incoming| - 1];
      assert incoming == front + [last];
      AppendedHas(es, front);
      var mid := Appended(es, front);
      InsertedHas(mid, last);
      var all := Appended(es, incoming);
      forall e | e in incoming ensures Has(all, e.number) {
        var x := if Has(mid, e.number) then ByNumber(mid, e.number) else last;
        assert x in all && x.number == e.number;
      }
    }
  }

  function ByNumber(es: seq<TaskEvent>, n: nat): (e: TaskEvent)
    requires Has(es, n)
    ensures e in es && e.number == n
  {
    if es[|es| - 1].number == n then es[|es| - 1] else ByNumber(es[..|es| - 1], n)
  }

  /** With consistent events the timeline holds exactly what was there and what came in. */
  lemma AppendedIsUnion(es: seq<TaskEvent>, incoming: seq<TaskEvent>)
    requires Sorted(es) && Consistent(es + incoming)
    ensures Sorted(Appended(es, incoming))
    ensures forall e :: e in Appended(es, incoming) <==> e in es || e in incoming
  {
    AppendedHas(es, incoming);
    var all := Appended(es, incoming);
    forall e | e in incoming ensures e in all {
      var x := ByNumber(all, e.number);
      assert x in es + incoming && e in es + incoming;
    }
  }

  /** A set of events has one sorted timeline. */
  lemma {:induction false} SortedIsUnique(a: seq<TaskEvent>, b: seq<TaskEvent>)
    requires Sorted(a) && Sorted(b)
    requires forall e :: e in a <==> e in b
    ensures a == b
  {
    assert (a != [] ==> a[0] in b) && (b != [] ==> b[0] in a);
    if a != [] && b != [] {
      var x, y := a[|a| - 1], b[|b| - 1];
      assert x in b && y in a;
      assert x == y;
      var c, d := a[..|a| - 1], b[..|b| - 1];
      assert a == c + [x] && b == d + [y];
      forall e ensures e in c <==> e in d {
        if e in c {
          assert e in b && e.number < x.number;
        }
        if e in d {
          assert e in a && e.number < y.number;
        }
      }
      SortedIsUnique(c, d);
    }
  }

  /** All events of a list of deliveries. */
  function Joined(batches: seq<seq<TaskEvent>>): seq<TaskEvent> {
    if batches == [] then [] else Joined(batches[..|batches| - 1]) + batches[|batches| - 1]
  }

  /** The timeline after delivering the batches one by one. */
  function Delivered(batches: seq<seq<TaskEvent>>): seq<TaskEvent> {
    if batches == [] then [] else Appended(Delivered(batches[..|batches| - 1]), batches[|batches| - 1])
  }

  lemma {:induction false} DeliveredIsJoined(batches: seq<seq<TaskEvent>>)
    requires Consistent(Joined(batches))
    ensures Sorted(Delivered(batches))
    ensures forall e :: e in Delivered(batches) <==> e in Joined(batches)
  {
    if batches != [] {
      var front, last := batches[..|batches| - 1], batches[|batches| - 1];
      ConsistentPart(Joined(front), last, Joined(front));
      DeliveredIsJoined(front);
      ConsistentPart(Joined(front), last, Delivered(front) + last);
      AppendedIsUnion(Delivered(front), last);
    }
  }

  lemma ConsistentPart(a: seq<TaskEvent>, b: seq<TaskEvent>, c: seq<TaskEvent>)
    requires Consistent(a + b) && forall e :: e in c ==> e in a || e in b
    ensures Consistent(c)
  {
    forall i, j | 0 <= i < |c| && 0 <= j < |c| && c[i].number == c[j].number ensures c[i] == c[j] {
      assert c[i] in a + b && c[j] in a + b;
    }
  }

  /** Any order, batching and duplication of the same events gives the same bucket. */
  lemma DeliveryOrderIsIrrelevant(a: seq<seq<TaskEvent>>, b: seq<seq<TaskEvent>>)
    requires Consistent(Joined(a))
    requires forall e :: e in Joined(a) <==> e in Joined(b)
    ensures Delivered(a) == Delivered(b)
    ensures LastSeq(Delivered(a)) == LastSeq(Delivered(b)) && Rebuilt(Delivered(a)) == Rebuilt(Delivered(b))
  {
    ConsistentPart(Joined(a), [], Joined(b)) by {
      assert Joined(a) + [] == Joined(a);
    }
    DeliveredIsJoined(a);
    DeliveredIsJoined(b);
    SortedIsUnique(Delivered(a), Delivered(b));
  }

  // ---- what the derived maps mean ----------------------------------------------------------------------

  /** The key of a tool call or tool result. */
  function KeyOf(ev: TaskEvent): Option<Key> {
    if (ev.kind == ToolCall || ev.kind == ToolResult) && ev.callId.Some?
    then Some(Key(ev.stage, ev.agent, ev.callId.value)) else None
  }

  predicate IsCall(ev: TaskEvent) {
    ev.kind == ToolCall && KeyOf(ev).Some?
  }

  predicate IsResult(ev: TaskEvent) {
    ev.kind == ToolResult && KeyOf(ev).Some?
  }

  /** Result `j` answers call `i`: same key, and no other event of the key between them. */
  ghost predicate Paired(es: seq<TaskEvent>, i: int, j: int) {
    && 0 <= i < j < |es| && IsCall(es[i]) && IsResult(es[j]) && KeyOf(es[i]) == KeyOf(es[j])
    && forall k :: i < k < j ==> KeyOf(es[k]) != KeyOf(es[i])
  }

  /** Call `i` is unanswered, and no later event has its key. */
  ghost predicate OpenCall(es: seq<TaskEvent>, i: int) {
    && 0 <= i < |es| && IsCall(es[i])
    && forall k :: i < k < |es| ==> KeyOf(es[k]) != KeyOf(es[i])
  }

  /** Event identifiers are nonempty and unique. */
  ghost predicate UniqueIds(es: seq<TaskEvent>) {
    && (forall i :: 0 <= i < |es| ==> es[i].id != "")
    && (forall i, j :: 0 <= i < j < |es| ==> es[i].id != es[j].id)
  }

  /** A pending call has a pair to put its result in. */
  ghost predicate PendingCalls(d: Derived) {
    forall key :: key in d.pendingToolCalls ==> d.pendingToolCalls[key] in d.toolPairs
  }

  lemma PendingStep(d: Derived, ev: TaskEvent)
    requires PendingCalls(d)
    ensures PendingCalls(ApplyDerived(d, ev))
  {
  }

  lemma {:induction false} PendingAreCalls(es: seq<TaskEvent>)
    ensures PendingCalls(Rebuilt(es))
  {
    if es != [] {
      PendingAreCalls(es[..|es| - 1]);
      PendingStep(Rebuilt(es[..|es| - 1]), es[|es| - 1]);
    }
  }

  lemma RebuiltStep(es: seq<TaskEvent>, ev: TaskEvent)
    ensures Rebuilt(es + [ev]) == ApplyDerived(Rebuilt(es), ev)
  {
    assert (es + [ev])[..|es|] == es;
  }

  lemma AppendedNone(es: seq<TaskEvent>)
    ensures Appended(es, []) == es
  {
  }

  lemma AppendedStep(es: seq<TaskEvent>, incoming: seq<TaskEvent>, i: nat)
    requires i < |incoming|
    ensures Appended(es, incoming[..i + 1]) == Inserted(Appended(es, incoming[..i]), incoming[i])
  {
    assert incoming[..i + 1][..i] == incoming[..i];
  }

  /** A call is pending exactly when it is open. */
  ghost predicate PendingOk(es: seq<TaskEvent>, d: Derived) {
    && (forall i :: 0 <= i < |es| && OpenCall(es, i) ==>
          KeyOf(es[i]).value in d.pendingToolCalls && d.pendingToolCalls[KeyOf(es[i]).value] == es[i].id)
    && (forall key :: key in d.pendingToolCalls ==>
          exists i :: 0 <= i < |es| && OpenCall(es, i) && KeyOf(es[i]) == Some(key) && d.pendingToolCalls[key] == es[i].id)
  }

  /** Every call has its pair, and its result is the one that answers it. */
  ghost predicate PairsOk(es: seq<TaskEvent>, d: Derived) {
    && (forall id :: id in d.toolPairs <==> exists i :: 0 <= i < |es| && IsCall(es[i]) && es[i].id == id)
    && (forall i :: 0 <= i < |es| && IsCall(es[i]) ==> PairOk(es, d, i))
  }

  ghost predicate PairOk(es: seq<TaskEvent>, d: Derived, i: int)
    requires 0 <= i < |es|
  {
    && es[i].id in d.toolPairs && d.toolPairs[es[i].id].call == es[i]
    && (forall j :: Paired(es, i, j) ==> d.toolPairs[es[i].id].result == Some(es[j]))
    && (d.toolPairs[es[i].id].result.Some? ==>
          exists j :: Paired(es, i, j) && d.toolPairs[es[i].id].result == Some(es[j]))
  }

  /** A tool result belongs to the latest earlier call of its key unless another result came between. */
  lemma {:induction false} ResultsArePaired(es: seq<TaskEvent>)
    requires UniqueIds(es)
    ensures PendingOk(es, Rebuilt(es)) && PairsOk(es, Rebuilt(es))
  {
    if es != [] {
      var front, last := es[..|es| - 1], es[|es| - 1];
      assert front + [last] == es;
      UniquePrefix(front, last);
      hide PendingOk, PairsOk, ApplyDerived, UniqueIds;
      ResultsArePaired(front);
      StepPairs(front, last, Rebuilt(front));
    }
  }

  lemma StepPairs(es: seq<TaskEvent>, ev: TaskEvent, d: Derived)
    requires UniqueIds(es + [ev]) && PendingOk(es, d) && PairsOk(es, d)
    ensures PendingOk(es + [ev], ApplyDerived(d, ev)) && PairsOk(es + [ev], ApplyDerived(d, ev))
  {
    UniquePrefix(es, ev);
    forall key | key in d.pendingToolCalls
      ensures d.pendingToolCalls[key] in d.toolPairs && d.pendingToolCalls[key] != ""
    {
      PendingIsKnown(es, d, key);
    }
    assert Known(d);
    hide PendingOk, PairsOk, ApplyDerived, UniqueIds;
    StepPending(es, ev, d);
    StepResults(es, ev, d);
  }

  lemma UniquePrefix(es: seq<TaskEvent>, ev: TaskEvent)
    requires UniqueIds(es + [ev])
    ensures UniqueIds(es) && ev.id != "" && forall i :: 0 <= i < |es| ==> es[i].id != ev.id
  {
    var all := es + [ev];
    assert forall i :: 0 <= i < |es| ==> all[i] == es[i];
    assert all[|es|] == ev;
  }

  lemma PendingIsKnown(es: seq<TaskEvent>, d: Derived, key: Key)
    requires UniqueIds(es) && PendingOk(es, d) && PairsOk(es, d) && key in d.pendingToolCalls
    ensures d.pendingToolCalls[key] in d.toolPairs && d.pendingToolCalls[key] != ""
  {
    hide PairOk;
    var i :| 0 <= i < |es| && OpenCall(es, i) && KeyOf(es[i]) == Some(key) && d.pendingToolCalls[key] == es[i].id;
  }

  /** Every pending call has a pair to put its result in. */
  ghost predicate Known(d: Derived) {
    forall key :: key in d.pendingToolCalls ==>
      d.pendingToolCalls[key] in d.toolPairs && d.pendingToolCalls[key] != ""
  }

  lemma OpenStep(es: seq<TaskEvent>, ev: TaskEvent, i: int)
    ensures OpenCall(es + [ev], i) <==>
      (0 <= i < |es| && OpenCall(es, i) && KeyOf(ev) != KeyOf(es[i])) || (i == |es| && IsCall(ev))
    ensures 0 <= i < |es| ==> (es + [ev])[i] == es[i]
    ensures OpenCall(es + [ev], i) ==> 0 <= i <= |es| && KeyOf((es + [ev])[i]).Some?
  {
    var all := es + [ev];
    assert all[|es|] == ev && forall k :: 0 <= k < |es| ==> all[k] == es[k];
  }

  lemma StepPending(es: seq<TaskEvent>, ev: TaskEvent, d: Derived)
    requires Known(d) && PendingOk(es, d)
    ensures PendingOk(es + [ev], ApplyDerived(d, ev))
  {
    hide OpenCall;
    var all, e := es + [ev], ApplyDerived(d, ev);
    forall i | 0 <= i < |all| && OpenCall(all, i)
      ensures KeyOf(all[i]).Some? && KeyOf(all[i]).value in e.pendingToolCalls
      ensures e.pendingToolCalls[KeyOf(all[i]).value] == all[i].id
    {
      OpenStep(es, ev, i);
      if i < |es| {
        assert OpenCall(es, i) && KeyOf(es[i]) == Some(KeyOf(es[i]).value);
        assert KeyOf(es[i]).value in d.pendingToolCalls;
        assert all[i] == es[i];
      } else {
        assert all[i] == ev && IsCall(ev);
      }
    }
    forall key | key in e.pendingToolCalls
      ensures exists i :: 0 <= i < |all| && OpenCall(all, i) && KeyOf(all[i]) == Some(key) && e.pendingToolCalls[key] == all[i].id
    {
      if IsCall(ev) && KeyOf(ev) == Some(key) {
        OpenStep(es, ev, |es|);
      } else {
        var i :| 0 <= i < |es| && OpenCall(es, i) && KeyOf(es[i]) == Some(key) && d.pendingToolCalls[key] == es[i].id;
        OpenStep(es, ev, i);
      }
    }
  }

  lemma StepResults(es: seq<TaskEvent>, ev: TaskEvent, d: Derived)
    requires UniqueIds(es) && ev.id != "" && forall i :: 0 <= i < |es| ==> es[i].id != ev.id
    requires Known(d) && PendingOk(es, d) && PairsOk(es, d)
    ensures PairsOk(es + [ev], ApplyDerived(d, ev))
  {
    var all, e := es + [ev], ApplyDerived(d, ev);
    forall i | 0 <= i < |all| && IsCall(all[i]) ensures PairOk(all, e, i) {
      StepPair(es, ev, d, i);
    }
    forall id ensures id in e.toolPairs <==> exists i :: 0 <= i < |all| && IsCall(all[i]) && all[i].id == id {
      StepIds(es, ev, d, id);
    }
  }

  lemma StepIds(es: seq<TaskEvent>, ev: TaskEvent, d: Derived, id: string)
    requires Known(d) && PairsOk(es, d)
    ensures id in ApplyDerived(d, ev).toolPairs <==>
      exists i :: 0 <= i < |es + [ev]| && IsCall((es + [ev])[i]) && (es + [ev])[i].id == id
  {
    hide PairOk;
    var all, e := es + [ev], ApplyDerived(d, ev);
    assert id in e.toolPairs <==> id in d.toolPairs || (IsCall(ev) && ev.id == id);
    if id in d.toolPairs {
      var i :| 0 <= i < |es| && IsCall(es[i]) && es[i].id == id;
      assert IsCall(all[i]) && all[i].id == id;
    }
    if IsCall(ev) && id == ev.id {
      assert IsCall(all[|es|]);
    }
  }

  lemma StepPair(es: seq<TaskEvent>, ev: TaskEvent, d: Derived, i: int)
    requires UniqueIds(es) && ev.id != "" && forall k :: 0 <= k < |es| ==> es[k].id != ev.id
    requires Known(d) && PendingOk(es, d) && PairsOk(es, d)
    requires 0 <= i < |es + [ev]| && IsCall((es + [ev])[i])
    ensures PairOk(es + [ev], ApplyDerived(d, ev), i)
  {
    var all, e := es + [ev], ApplyDerived(d, ev);
    PairedStep(es, ev, i);
    assert forall k :: 0 <= k < |es| ==> all[k] == es[k];
    if i == |es| {
      hide PendingOk, PairsOk, UniqueIds;
      assert forall j :: !Paired(all, i, j);
    } else if OpenCall(es, i) && IsResult(ev) && KeyOf(ev) == KeyOf(es[i]) {
      AnsweredPair(es, ev, d, i);
    } else {
      OtherPairsStay(es, ev, d, i);
      KeptPair(es, ev, d, e, i);
    }
  }

  lemma AnsweredPair(es: seq<TaskEvent>, ev: TaskEvent, d: Derived, i: int)
    requires Known(d) && PendingOk(es, d) && PairsOk(es, d)
    requires 0 <= i < |es| && OpenCall(es, i) && IsResult(ev) && KeyOf(ev) == KeyOf(es[i])
    ensures PairOk(es + [ev], ApplyDerived(d, ev), i)
  {
    var all, e := es + [ev], ApplyDerived(d, ev);
    assert PairOk(es, d, i);
    assert e.toolPairs[es[i].id] == ToolPair(es[i], Some(ev));
    PairedStep(es, ev, i);
    assert forall j :: !Paired(es, i, j);
    hide PendingOk, PairsOk, Known, ApplyDerived, Paired, OpenCall;
    assert all[i] == es[i] && all[|es|] == ev;
    assert forall j :: Paired(all, i, j) ==> j == |es|;
    assert Paired(all, i, |es|);
  }

  lemma KeptPair(es: seq<TaskEvent>, ev: TaskEvent, d: Derived, e: Derived, i: int)
    requires 0 <= i < |es| && IsCall(es[i]) && PairOk(es, d, i)
    requires !(OpenCall(es, i) && IsResult(ev) && KeyOf(ev) == KeyOf(es[i]))
    requires es[i].id in e.toolPairs && e.toolPairs[es[i].id] == d.toolPairs[es[i].id]
    ensures PairOk(es + [ev], e, i)
  {
    var all := es + [ev];
    PairedStep(es, ev, i);
    assert forall k :: 0 <= k < |es| ==> all[k] == es[k];
    forall j | Paired(all, i, j) ensures Paired(es, i, j) && 0 <= j < |es| && all[j] == es[j] {
    }
    if e.toolPairs[es[i].id].result.Some? {
      var j :| Paired(es, i, j) && d.toolPairs[es[i].id].result == Some(es[j]);
      assert Paired(all, i, j);
    }
  }

  lemma OtherPairsStay(es: seq<TaskEvent>, ev: TaskEvent, d: Derived, i: int)
    requires UniqueIds(es) && forall k :: 0 <= k < |es| ==> es[k].id != ev.id
    requires Known(d) && PendingOk(es, d) && PairsOk(es, d)
    requires 0 <= i < |es| && IsCall(es[i]) && !(OpenCall(es, i) && IsResult(ev) && KeyOf(ev) == KeyOf(es[i]))
    ensures es[i].id in d.toolPairs && es[i].id in ApplyDerived(d, ev).toolPairs
    ensures ApplyDerived(d, ev).toolPairs[es[i].id] == d.toolPairs[es[i].id]
  {
    assert es[i].id in d.toolPairs by {
      hide PairOk;
    }
    hide PairOk, PairsOk, KeyOf;
    if IsResult(ev) && KeyOf(ev).Some? && KeyOf(ev).value in d.pendingToolCalls {
      AnsweredIsOther(es, ev, d, i);
    }
    assert IsCall(ev) ==> ev.id != es[i].id;
    hide UniqueIds, PendingOk, OpenCall;
    OtherIdStays(ev, d, es[i].id);
  }

  lemma AnsweredIsOther(es: seq<TaskEvent>, ev: TaskEvent, d: Derived, i: int)
    requires UniqueIds(es) && PendingOk(es, d)
    requires 0 <= i < |es| && IsCall(es[i]) && !(OpenCall(es, i) && IsResult(ev) && KeyOf(ev) == KeyOf(es[i]))
    requires IsResult(ev) && KeyOf(ev).Some? && KeyOf(ev).value in d.pendingToolCalls
    ensures d.pendingToolCalls[KeyOf(ev).value] != es[i].id
  {
    hide OpenCall;
    var k :| 0 <= k < |es| && OpenCall(es, k) && KeyOf(es[k]) == Some(KeyOf(ev).value)
      && d.pendingToolCalls[KeyOf(ev).value] == es[k].id;
    assert k != i;
    assert es[k].id != es[i].id;
  }

  lemma OtherIdStays(ev: TaskEvent, d: Derived, id: string)
    requires id in d.toolPairs && (IsCall(ev) ==> ev.id != id)
    requires IsResult(ev) && KeyOf(ev).Some? && KeyOf(ev).value in d.pendingToolCalls ==>
      d.pendingToolCalls[KeyOf(ev).value] != id
    ensures id in ApplyDerived(d, ev).toolPairs && ApplyDerived(d, ev).toolPairs[id] == d.toolPairs[id]
  {
  }

  /** The new event answers call `i` exactly when it is a result and `i` is open for its key. */
  lemma PairedStep(es: seq<TaskEvent>, ev: TaskEvent, i: int)
    ensures forall j :: j != |es| ==> (Paired(es + [ev], i, j) <==> Paired(es, i, j))
    ensures Paired(es + [ev], i, |es|) <==> OpenCall(es, i) && IsResult(ev) && KeyOf(ev) == KeyOf(es[i])
  {
    var all := es + [ev];
    assert forall k :: 0 <= k < |es| ==> all[k] == es[k];
  }

  /** The latest thought of an agent. */
  function Thought(es: seq<TaskEvent>, agent: string): Option<string> {
    if es == [] then None
    else
      var ev := es[|es| - 1];
      if ev.kind == Thinking && ev.agent == Some(agent) && ev.summary.Some? then ev.summary
      else Thought(es[..|es| - 1], agent)
  }

  lemma {:induction false} ThinkingIsLatest(es: seq<TaskEvent>, agent: string)
    requires agent != ""
    ensures agent in Rebuilt(es).thinking <==> Thought(es, agent).Some?
    ensures agent in Rebuilt(es).thinking ==> Some(Rebuilt(es).thinking[agent]) == Thought(es, agent)
  {
    if es != [] {
      ThinkingIsLatest(es[..|es| - 1], agent);
    }
  }
}
