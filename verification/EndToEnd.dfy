/**
 * Where the parts meet: the protocol's ledger feeds the replay, and the server's connection and the browser
 * run together, joined by a socket with messages one way and commands the other.
 */
module EndToEnd {
  import opened Options
  import opened EventStore
  import opened Paging
  import D = Delivery
  import C = ClientSync
  import F = ClientFate
  import Safety
  import Protocol
  import Transactions

  // ---- the ledger --------------------------------------------------------------------------------

  /** The envelopes of a task's log carry the log's numbers. */
  ghost predicate EnvelopesOf(es: seq<TaskEvent>, w: Protocol.World) {
    |es| == |w.db.events| && forall k :: 0 <= k < |es| ==> es[k].number == w.db.events[k].number
  }

  /** Whatever transactions ran or rolled back, the ledger a replay or a page reads has no gap and ends at event_seq. */
  lemma ProtocolLedgerIsGapless(cfg: Transactions.Config, w: Protocol.World, es: seq<TaskEvent>)
    requires Safety.Reachable(cfg, w) && EnvelopesOf(es, w)
    ensures Gapless(es) && |es| == w.db.task.eventSeq
  {
    Safety.LedgerShape(cfg, w);
  }

  // ---- server and browser together -----------------------------------------------------------------

  /** What the browser asks about the task. */
  datatype Command = Sub(from: nat) | Unsub

  /** `wire` holds the task's events sent and not yet received, `commands` those sent and not yet handled. */
  datatype Joint = Joint(net: D.Net, client: C.Client, wire: seq<TaskEvent>, commands: seq<Command>)

  datatype Step =
    | Commit(events: seq<TaskEvent>, acknowledged: bool)
    | Server(step: D.Step)     // hooks, live events, replay, and everything about other tasks
    | Handle                   // the server takes the next command
    | Refuse                   // it takes a subscribe and cannot read the task: it only answers with an error
    | Arrive                   // the browser takes the next event
    | Connect
    | Disconnect
    | Enter(kept: bool)
    | Leave
    | Browse(action: C.Step)     // loads, pages and failures

  /** Steps of the server that are not about commands or commits of task `t`. */
  predicate Inner(step: D.Step, t: string) {
    match step
    case Commit(task, _, _) => task != t
    case Subscribe(task, _) => task != t
    case Unsubscribe(task) => task != t
    case Close => false
    case Accept => false
    case _ => true
  }

  predicate Fetching(step: C.Step) {
    step.Load? || step.Answer? || step.Receive? || step.Fail?
  }

  /** What a step of the server writes to the socket for task `t`. */
  function Sends(net: D.Net, step: D.Step, t: string): seq<TaskEvent> {
    var c := net.conn;
    if !c.open || t !in c.tasks then []
    else if step.Live? then
      if c.phase == D.Idle && c.queue != [] && c.queue[0].task == t then [c.queue[0].event] else []
    else if step.ReplayBatch? && c.phase.Replaying? && c.phase.task == t then
      var ledger, after := D.Ledger(net, t), c.phase.after;
      var hi := Min(Upto(|ledger|, after, PAGE), c.phase.size);
      if hi <= after || hi > |ledger| then [] else ledger[after..hi]
    else []
  }

  /** That is exactly what the subscription records as sent. */
  lemma SendsAreSent(net: D.Net, step: D.Step, t: string)
    requires Inner(step, t) && t in net.conn.tasks
    ensures var next := D.Apply(net, step);
      t in next.conn.tasks && next.conn.tasks[t].sent == net.conn.tasks[t].sent + Sends(net, step, t)
  {
    assert net.conn.tasks[t].sent + [] == net.conn.tasks[t].sent;
  }

  // ---- what is under way ----------------------------------------------------------------------------

  predicate Waiting(net: D.Net, t: string, n: nat) {
    1 <= n <= |D.Ledger(net, t)| && (
      var notice := D.Notice(t, D.Ledger(net, t)[n - 1]);
      notice in net.conn.queue || notice in net.hooks)
  }

  predicate Replays(net: D.Net, t: string, n: nat) {
    net.conn.phase.Replaying? && net.conn.phase.task == t && net.conn.phase.after < n <= net.conn.phase.size
  }

  predicate Asked(commands: seq<Command>, n: nat) {
    exists i :: 0 <= i < |commands| && commands[i].Sub? && commands[i].from < n
  }

  /** Event `n` is on the wire, in the queue, in a hook, in the replay, or asked for. */
  predicate UnderWay(j: Joint, t: string, n: nat) {
    Has(j.wire, n) || Waiting(j.net, t, n) || Replays(j.net, t, n) || Asked(j.commands, n)
  }

  predicate AnySub(commands: seq<Command>) {
    exists i :: 0 <= i < |commands| && commands[i].Sub?
  }

  /** The numbers waiting in hooks or the queue. */
  function Late(net: D.Net, t: string): (r: set<nat>)
    ensures forall n: nat :: n in r <==> Waiting(net, t, n)
  {
    set n | n in C.Range(0, |D.Ledger(net, t)|) && Waiting(net, t, n)
  }

  // ---- the steps ---------------------------------------------------------------------------------------

  function ServerStep(j: Joint, t: string, step: D.Step): Joint {
    var next := j.(net := D.Apply(j.net, step), wire := j.wire + Sends(j.net, step, t));
    if step.Live? && j.net.conn.queue != [] && j.net.conn.queue[0].task == t
       && j.net.conn.queue[0].event.number in j.client.pipe && !UnderWay(next, t, j.net.conn.queue[0].event.number)
    then next.(client := C.Apply(j.client, C.Drop(j.net.conn.queue[0].event.number)))
    else next
  }

  function HandleNext(j: Joint, t: string): Joint
    requires j.commands != []
  {
    var step := match j.commands[0]
      case Sub(from) => D.Subscribe(t, from)
      case Unsub => D.Unsubscribe(t);
    j.(net := D.Apply(j.net, step), commands := j.commands[1..])
  }

  predicate CanRefuse(j: Joint) {
    j.net.conn.open && j.net.conn.phase == D.Idle && j.commands != [] && j.commands[0].Sub?
  }

  /** The command is consumed and nothing else changes; what only it would have brought no longer comes. */
  function RefuseNext(j: Joint, t: string): Joint
    requires CanRefuse(j)
  {
    var next := j.(commands := j.commands[1..]);
    next.(client := C.Apply(j.client, C.Refuse(Stranded(next, t), next.commands == [])))
  }

  /** The numbers the browser expects that are not under way. */
  function Stranded(j: Joint, t: string): (r: set<nat>)
    ensures forall n: nat :: n in r <==> n in j.client.pipe && !UnderWay(j, t, n)
  {
    set n | n in j.client.pipe && !UnderWay(j, t, n)
  }

  function Connected(j: Joint, t: string): Joint {
    var net := D.Apply(j.net, D.Accept);
    Joint(net, C.Apply(j.client, C.Open(Late(net, t))), [],
          if j.client.here then [Sub(LastSeq(j.client.timeline))] else [])
  }

  function Apply(j: Joint, t: string, step: Step): Joint {
    match step
    case Commit(events, acknowledged) =>
      j.(net := D.Apply(j.net, D.Commit(t, events, acknowledged)),
         client := C.Apply(j.client, C.Commit(events, acknowledged || AnySub(j.commands))))
    case Server(s) => if Inner(s, t) then ServerStep(j, t, s) else j
    case Handle => if j.net.conn.open && j.net.conn.phase == D.Idle && j.commands != [] then HandleNext(j, t) else j
    case Refuse => if CanRefuse(j) then RefuseNext(j, t) else j
    case Arrive =>
      if j.wire == [] then j
      else j.(client := C.Apply(j.client, C.Live(j.wire[0].number)), wire := j.wire[1..])
    case Connect => if j.client.open then j else Connected(j, t)
    case Disconnect => Joint(D.Apply(j.net, D.Close), C.Apply(j.client, C.Close), [], [])
    case Enter(kept) =>
      if j.client.here then j
      else j.(client := C.Apply(j.client, C.Enter(kept)),
              commands := j.commands + if j.client.open then [Sub(LastSeq(j.client.timeline))] else [])
    case Leave =>
      if !j.client.here then j
      else j.(client := C.Apply(j.client, C.Leave), commands := j.commands + if j.client.open then [Unsub] else [])
    case Browse(s) => if Fetching(s) then j.(client := C.Apply(j.client, s)) else j
  }

  function Run(j: Joint, t: string, steps: seq<Step>): Joint {
    if steps == [] then j else Apply(Run(j, t, steps[..|steps| - 1]), t, steps[|steps| - 1])
  }

  /** Before the page is first mounted; the shared socket may be open and busy with other tasks. */
  ghost predicate Initial(j: Joint, t: string) {
    && D.Grounded(j.net) && t in j.net.ledgers
    && C.Initial(j.client) && j.client.ledger == D.Ledger(j.net, t)
    && j.wire == [] && j.commands == [] && t !in j.net.conn.tasks
    && j.client.open == j.net.conn.open && (j.client.open ==> j.client.pipe == Late(j.net, t))
  }

  // ---- the relation ---------------------------------------------------------------------------------------

  /** Both ends have the same ledger, and only its events travel. */
  ghost predicate SameLedger(j: Joint, t: string) {
    && D.Grounded(j.net) && t in j.net.ledgers && C.Inv(j.client) && j.client.ledger == D.Ledger(j.net, t)
    && (forall e :: e in j.wire ==> e in D.Ledger(j.net, t))
    && (forall i :: 0 <= i < |j.commands| && j.commands[i].Sub? ==> j.commands[i].from <= |j.client.ledger|)
    && (!j.client.open ==> j.wire == [] && j.commands == [] && !j.net.conn.open)
  }

  /** Whatever is under way, the browser is ready for. */
  ghost predicate Expected(j: Joint, t: string) {
    j.client.open ==> forall n: nat :: 1 <= n <= |j.client.ledger| && UnderWay(j, t, n) ==>
      n in j.client.pipe || Has(j.client.timeline, n)
  }

  /** Whatever the browser is owed is under way. */
  ghost predicate Owed(j: Joint, t: string) {
    j.client.open && j.net.conn.open ==> forall n: nat :: n in j.client.pipe ==> UnderWay(j, t, n)
  }

  /** What the browser last asked is what the server has done or will do last. */
  ghost predicate Agreed(j: Joint, t: string) {
    && (j.client.open && j.net.conn.open && j.client.here ==>
          if j.commands == [] then t in j.net.conn.tasks <==> !j.client.refused
          else j.commands[|j.commands| - 1] == Sub(j.client.from) && !j.client.refused)
    && (j.client.open && !j.client.entered ==> j.wire == [] && j.commands == [] && t !in j.net.conn.tasks)
  }

  /** A subscribe only ever follows an unsubscribe, so it finds the task not subscribed. */
  ghost predicate Alternate(j: Joint, t: string) {
    j.client.open && j.net.conn.open ==>
      && (j.commands != [] && j.commands[0].Sub? ==> t !in j.net.conn.tasks)
      && (forall i :: 0 < i < |j.commands| && j.commands[i].Sub? ==> j.commands[i - 1] == Unsub)
      && (!j.client.here ==>
            if j.commands == [] then t !in j.net.conn.tasks else j.commands[|j.commands| - 1] == Unsub)
  }

  ghost predicate Related(j: Joint, t: string) {
    SameLedger(j, t) && Expected(j, t) && Owed(j, t) && Agreed(j, t) && Alternate(j, t)
  }

  lemma InitialIsRelated(j: Joint, t: string)
    requires Initial(j, t)
    ensures Related(j, t)
  {
    C.InitialIsOk(j.client);
    hide C.Inv, D.LedgersOk;
    assert forall n: nat :: UnderWay(j, t, n) <==> Waiting(j.net, t, n);
  }

  // ---- every step keeps the relation ------------------------------------------------------------------------

  /** The event with number `n`, and the numbers of the ledger. */
  lemma NumberOf(net: D.Net, t: string, n: nat)
    requires D.Grounded(net) && 1 <= n <= |D.Ledger(net, t)|
    ensures D.Ledger(net, t)[n - 1].number == n
  {
  }

  lemma InLedger(net: D.Net, t: string, e: TaskEvent)
    requires D.Grounded(net) && e in D.Ledger(net, t)
    ensures 1 <= e.number <= |D.Ledger(net, t)| && D.Ledger(net, t)[e.number - 1] == e
  {
    var k :| 0 <= k < |D.Ledger(net, t)| && D.Ledger(net, t)[k] == e;
  }

  /** The ledger and the wire stay as they were, but for what the server writes. */
  lemma InnerLedger(j: Joint, t: string, step: D.Step)
    requires SameLedger(j, t) && Inner(step, t)
    ensures var next := D.Apply(j.net, step);
      && D.Grounded(next) && t in next.ledgers && D.Ledger(next, t) == D.Ledger(j.net, t)
      && (forall e :: e in Sends(j.net, step, t) ==> e in D.Ledger(j.net, t))
      && (next.conn.open ==> j.net.conn.open)
      && (t in next.conn.tasks <==> t in j.net.conn.tasks)
  {
    D.GroundedStep(j.net, step);
    hide D.LedgersOk, C.Inv;
    if step.Live? && Sends(j.net, step, t) != [] {
      assert j.net.conn.queue[0] in j.net.acked && D.Committed(j.net, j.net.conn.queue[0]);
    }
  }

  /** A hook that runs moves its event to the queue, unless the queue overflows and closes the connection. */
  lemma HookMoves(net: D.Net, t: string, notice: D.Notice, n: nat)
    requires D.Apply(net, D.RunHook(notice)).conn.open
    ensures Waiting(D.Apply(net, D.RunHook(notice)), t, n) <==> Waiting(net, t, n)
  {
  }

  lemma HookOnlyLoses(net: D.Net, t: string, notice: D.Notice, n: nat)
    ensures Waiting(D.Apply(net, D.RunHook(notice)), t, n) ==> Waiting(net, t, n)
  {
  }

  lemma HookKeeps(j: Joint, t: string, notice: D.Notice)
    requires Related(j, t)
    ensures Related(ServerStep(j, t, D.RunHook(notice)), t)
  {
    var step := D.RunHook(notice);
    var next := ServerStep(j, t, step);
    InnerLedger(j, t, step);
    assert j.wire + [] == j.wire;
    forall n: nat
      ensures UnderWay(next, t, n) ==> UnderWay(j, t, n)
      ensures next.net.conn.open ==> (UnderWay(next, t, n) <==> UnderWay(j, t, n))
    {
      hide Asked, Has;
      HookOnlyLoses(j.net, t, notice, n);
      if next.net.conn.open {
        HookMoves(j.net, t, notice, n);
      }
    }
    hide UnderWay, C.Inv, D.Grounded, D.Ledger, Has;
  }

  /** Taking the head from the queue touches no other waiting event. */
  lemma LiveMoves(net: D.Net, t: string, n: nat)
    requires D.Grounded(net) && net.conn.open && net.conn.phase == D.Idle && net.conn.queue != []
    ensures var head := net.conn.queue[0]; var next := D.Apply(net, D.Live);
      && (Waiting(next, t, n) ==> Waiting(net, t, n))
      && (Waiting(net, t, n) ==> Waiting(next, t, n) || (head.task == t && head.event.number == n))
  {
    var head := net.conn.queue[0];
    assert net.conn.queue == [head] + net.conn.queue[1..];
    if 1 <= n <= |D.Ledger(net, t)| {
      NumberOf(net, t, n);
    }
  }

  lemma HasAppend(a: seq<TaskEvent>, b: seq<TaskEvent>, n: nat)
    ensures Has(a + b, n) <==> Has(a, n) || Has(b, n)
  {
    if k :| 0 <= k < |a| && a[k].number == n {
      assert (a + b)[k].number == n;
    }
    if k :| 0 <= k < |b| && b[k].number == n {
      assert (a + b)[|a| + k].number == n;
    }
  }

  /** The head of the queue is sent, or it is still under way otherwise, or it is dropped. */
  lemma LiveUnderWay(j: Joint, t: string, n: nat)
    requires Related(j, t) && j.net.conn.open && j.net.conn.phase == D.Idle && j.net.conn.queue != []
    ensures var next, head := ServerStep(j, t, D.Live), j.net.conn.queue[0];
      && (UnderWay(next, t, n) ==> UnderWay(j, t, n))
      && (UnderWay(j, t, n) && !UnderWay(next, t, n) ==>
            head.task == t && head.event.number == n && t !in j.net.conn.tasks)
  {
    LiveMoves(j.net, t, n);
    HasAppend(j.wire, Sends(j.net, D.Live, t), n);
    LiveSends(j.net, t, n);
    if j.net.conn.queue[0].task == t {
      HeadWaits(j.net, t);
    }
    hide C.Inv, D.Grounded, D.Ledger, Asked, Expected, Owed, Agreed, Has, Waiting, Sends;
  }

  lemma LiveSends(net: D.Net, t: string, n: nat)
    requires net.conn.open && net.conn.phase == D.Idle && net.conn.queue != []
    ensures var head := net.conn.queue[0];
      Has(Sends(net, D.Live, t), n) <==> head.task == t && t in net.conn.tasks && head.event.number == n
  {
    var head := net.conn.queue[0];
    if head.task == t && t in net.conn.tasks {
      assert Sends(net, D.Live, t) == [head.event] && [head.event][0].number == head.event.number;
    }
  }

  lemma HeadWaits(net: D.Net, t: string)
    requires D.Grounded(net) && net.conn.queue != [] && net.conn.queue[0].task == t
    ensures Waiting(net, t, net.conn.queue[0].event.number)
  {
    var head := net.conn.queue[0];
    assert head in net.acked && D.Committed(net, head);
    InLedger(net, t, head.event);
  }

  lemma LiveKeeps(j: Joint, t: string)
    requires Related(j, t)
    ensures Related(ServerStep(j, t, D.Live), t)
  {
    InnerLedger(j, t, D.Live);
    if j.net.conn.open && j.net.conn.phase == D.Idle && j.net.conn.queue != [] {
      LiveKeepsOpen(j, t);
    } else {
      var next := ServerStep(j, t, D.Live);
      assert j.wire + [] == j.wire;
      assert next.net == j.net && next.wire == j.wire;
      IdleDrop(j, t);
    }
  }

  /** Where nothing is taken from the queue nothing is dropped. */
  lemma IdleDrop(j: Joint, t: string)
    requires Related(j, t) && ServerStep(j, t, D.Live).net == j.net && ServerStep(j, t, D.Live).wire == j.wire
    ensures Related(ServerStep(j, t, D.Live), t)
  {
    var next := ServerStep(j, t, D.Live);
    if next.client != j.client {
      var n := j.net.conn.queue[0].event.number;
      assert !UnderWay(j, t, n);
      C.StepKeeps(j.client, C.Drop(n));
      DropIsQuiet(j.client, n);
      hide C.Inv, UnderWay, D.Grounded, Has;
    }
  }

  lemma DropIsQuiet(c: C.Client, n: nat)
    ensures var d := C.Apply(c, C.Drop(n));
      && d == c.(pipe := d.pipe) && d.pipe <= c.pipe && (forall m: nat :: m != n && m in c.pipe ==> m in d.pipe)
      && (C.CanDrop(c, n) ==> n !in d.pipe)
  {
    hide Has, LastSeq;
  }

  lemma LiveKeepsOpen(j: Joint, t: string)
    requires Related(j, t) && j.net.conn.open && j.net.conn.phase == D.Idle && j.net.conn.queue != []
    ensures Related(ServerStep(j, t, D.Live), t)
  {
    var next, head := ServerStep(j, t, D.Live), j.net.conn.queue[0];
    InnerLedger(j, t, D.Live);
    forall n: nat
      ensures UnderWay(next, t, n) ==> UnderWay(j, t, n)
      ensures UnderWay(j, t, n) && !UnderWay(next, t, n) ==>
        head.task == t && head.event.number == n && t !in j.net.conn.tasks
    {
      LiveUnderWay(j, t, n);
    }
    if next.client != j.client {
      var n := head.event.number;
      C.StepKeeps(j.client, C.Drop(n));
      DropIsQuiet(j.client, n);
      DropIsAllowed(j, t, n);
    }
    assert next.commands == j.commands && (t in next.net.conn.tasks <==> t in j.net.conn.tasks);
    hide UnderWay, C.Inv, D.Grounded, D.Ledger, Has, Sends, C.CanDrop, D.Apply;
    assert SameLedger(next, t);
    hide SameLedger;
    assert Alternate(next, t) && Agreed(next, t);
    hide Alternate, Agreed;
  }

  /** A mounted page that the server does not serve has asked for everything above `from`, or was refused. */
  lemma UnservedIsAsked(j: Joint, t: string, n: nat)
    requires Agreed(j, t) && j.client.open && j.net.conn.open && t !in j.net.conn.tasks
    ensures j.client.here && n > j.client.from ==> Asked(j.commands, n) || j.client.refused
  {
  }

  /** The server drops only what the browser no longer counts on. */
  lemma DropIsAllowed(j: Joint, t: string, n: nat)
    requires Related(j, t) && j.net.conn.open && n in j.client.pipe
    requires !UnderWay(ServerStep(j, t, D.Live), t, n) && t !in j.net.conn.tasks
    ensures C.CanDrop(j.client, n)
  {
    assert j.client.open;
    UnservedIsAsked(j, t, n);
    assert !Asked(j.commands, n);
  }

  /** A batch of the task's replay moves from the replay to the wire. */
  lemma BatchMoves(net: D.Net, t: string, n: nat)
    requires D.Grounded(net) && net.conn.open && net.conn.phase.Replaying? && net.conn.phase.task == t
    ensures var next := D.Apply(net, D.ReplayBatch);
      && (Waiting(next, t, n) <==> Waiting(net, t, n))
      && (Has(Sends(net, D.ReplayBatch, t), n) || Replays(next, t, n) <==> Replays(net, t, n))
  {
    var ledger, after := D.Ledger(net, t), net.conn.phase.after;
    var hi := Min(Upto(|ledger|, after, PAGE), net.conn.phase.size);
    assert after < hi <= |ledger| && Sends(net, D.ReplayBatch, t) == ledger[after..hi];
    SliceHas(net, t, after, hi, n);
  }

  lemma SliceHas(net: D.Net, t: string, a: nat, b: nat, n: nat)
    requires D.Grounded(net) && a <= b <= |D.Ledger(net, t)|
    ensures Has(D.Ledger(net, t)[a..b], n) <==> a < n <= b
  {
    var slice := D.Ledger(net, t)[a..b];
    if a < n <= b {
      NumberOf(net, t, n);
      assert slice[n - 1 - a].number == n;
    }
  }

  lemma BatchUnderWay(j: Joint, t: string, n: nat)
    requires D.Grounded(j.net)
    ensures UnderWay(ServerStep(j, t, D.ReplayBatch), t, n) <==> UnderWay(j, t, n)
  {
    HasAppend(j.wire, Sends(j.net, D.ReplayBatch, t), n);
    if j.net.conn.open && j.net.conn.phase.Replaying? && j.net.conn.phase.task == t {
      BatchMoves(j.net, t, n);
      hide D.Grounded, D.Ledger, Asked, Has, Waiting, Sends, Replays;
    } else {
      assert Sends(j.net, D.ReplayBatch, t) == [];
      hide D.Grounded, Asked, Sends;
    }
  }

  lemma BatchKeeps(j: Joint, t: string)
    requires Related(j, t)
    ensures Related(ServerStep(j, t, D.ReplayBatch), t)
  {
    InnerLedger(j, t, D.ReplayBatch);
    forall n: nat ensures UnderWay(ServerStep(j, t, D.ReplayBatch), t, n) <==> UnderWay(j, t, n) {
      BatchUnderWay(j, t, n);
    }
    hide UnderWay, C.Inv, D.Grounded, D.Ledger, Has, Sends;
  }

  /** What concerns other tasks moves nothing of this one. */
  lemma OtherUnderWay(j: Joint, t: string, step: D.Step, n: nat)
    requires SameLedger(j, t) && Inner(step, t) && (step.Commit? || step.Subscribe? || step.Unsubscribe?)
    ensures UnderWay(ServerStep(j, t, step), t, n) <==> UnderWay(j, t, n)
  {
    assert j.wire + [] == j.wire;
    hide C.Inv, Has, Asked;
  }

  lemma OtherKeeps(j: Joint, t: string, step: D.Step)
    requires Related(j, t) && Inner(step, t) && (step.Commit? || step.Subscribe? || step.Unsubscribe?)
    ensures Related(ServerStep(j, t, step), t)
  {
    InnerLedger(j, t, step);
    forall n: nat ensures UnderWay(ServerStep(j, t, step), t, n) <==> UnderWay(j, t, n) {
      OtherUnderWay(j, t, step, n);
    }
    hide UnderWay, C.Inv, D.Grounded, D.Ledger, Has, Sends;
  }

  lemma CommitLedger(j: Joint, t: string, events: seq<TaskEvent>, acknowledged: bool)
    requires SameLedger(j, t)
    ensures SameLedger(Apply(j, t, Commit(events, acknowledged)), t)
  {
    var published := acknowledged || AnySub(j.commands);
    C.StepKeeps(j.client, C.Commit(events, published));
    D.GroundedStep(j.net, D.Commit(t, events, acknowledged));
    hide C.Inv, D.Grounded, AnySub;
  }

  /** New events are under way if their hooks are, or if the replay asked for will find them. */
  lemma CommitUnderWay(j: Joint, t: string, events: seq<TaskEvent>, acknowledged: bool, n: nat)
    requires SameLedger(j, t) && Continues(j.client.ledger, events)
    ensures var next := Apply(j, t, Commit(events, acknowledged)); var size := |j.client.ledger|;
      && (n <= size ==> (UnderWay(next, t, n) <==> UnderWay(j, t, n)))
      && (size < n <= size + |events| ==> (UnderWay(next, t, n) <==> acknowledged || AnySub(j.commands)))
  {
    var next, size := Apply(j, t, Commit(events, acknowledged)), |j.client.ledger|;
    if n <= size {
      CommitKeepsOld(j.net, t, events, acknowledged, n);
      hide C.Inv, Has, Asked, Waiting, D.Grounded, C.Apply;
    } else if n <= size + |events| {
      CommitAddsNew(j.net, t, events, acknowledged, n);
      if Has(j.wire, n) {
        WireInLedger(j, t, n);
      }
      assert Asked(j.commands, n) <==> AnySub(j.commands);
      hide C.Inv, Has, Asked, Waiting, C.Apply, AnySub;
    }
  }

  lemma WireInLedger(j: Joint, t: string, n: nat)
    requires SameLedger(j, t) && Has(j.wire, n)
    ensures 1 <= n <= |j.client.ledger|
  {
    var k :| 0 <= k < |j.wire| && j.wire[k].number == n;
    assert j.wire[k] in j.wire;
    InLedger(j.net, t, j.wire[k]);
  }

  lemma CommitKeepsOld(net: D.Net, t: string, events: seq<TaskEvent>, acknowledged: bool, n: nat)
    requires D.Grounded(net) && Continues(D.Ledger(net, t), events) && n <= |D.Ledger(net, t)|
    ensures Waiting(D.Apply(net, D.Commit(t, events, acknowledged)), t, n) <==> Waiting(net, t, n)
  {
    var ledger := D.Ledger(net, t);
    if 1 <= n {
      assert (ledger + events)[n - 1] == ledger[n - 1];
      NumberOf(net, t, n);
      assert ledger[n - 1] !in events;
    }
  }

  lemma CommitAddsNew(net: D.Net, t: string, events: seq<TaskEvent>, acknowledged: bool, n: nat)
    requires D.Grounded(net) && Continues(D.Ledger(net, t), events)
    requires |D.Ledger(net, t)| < n <= |D.Ledger(net, t)| + |events|
    ensures Waiting(D.Apply(net, D.Commit(t, events, acknowledged)), t, n) <==> acknowledged
    ensures !Replays(net, t, n)
  {
    var ledger := D.Ledger(net, t);
    var e := (ledger + events)[n - 1];
    assert e == events[n - 1 - |ledger|] && e in events && e.number == n;
    if D.Notice(t, e) in net.acked {
      assert D.Committed(net, D.Notice(t, e));
      InLedger(net, t, e);
    }
  }

  lemma CommitKeeps(j: Joint, t: string, events: seq<TaskEvent>, acknowledged: bool)
    requires Related(j, t)
    ensures Related(Apply(j, t, Commit(events, acknowledged)), t)
  {
    CommitLedger(j, t, events, acknowledged);
    if Continues(j.client.ledger, events) {
      var next, size := Apply(j, t, Commit(events, acknowledged)), |j.client.ledger|;
      forall n: nat
        ensures n <= size ==> (UnderWay(next, t, n) <==> UnderWay(j, t, n))
        ensures size < n <= size + |events| ==> (UnderWay(next, t, n) <==> acknowledged || AnySub(j.commands))
      {
        CommitUnderWay(j, t, events, acknowledged, n);
      }
      PipeInLedger(j.client);
      hide UnderWay, C.Inv, D.Grounded, D.Ledger, Has, AnySub;
    }
  }

  lemma PipeInLedger(c: C.Client)
    requires C.Inv(c)
    ensures forall n: nat :: n in c.pipe ==> 1 <= n <= |c.ledger|
    ensures LastSeq(c.timeline) <= |c.ledger| && c.from <= LastSeq(c.timeline) && (c.here ==> c.entered)
  {
    C.LastOfLedger(c.ledger, c.timeline);
  }

  /** A subscribe turns what it asks for into a replay; an unsubscribe only ends later sends. */
  lemma HandleMoves(j: Joint, t: string, n: nat)
    requires SameLedger(j, t) && j.net.conn.open && j.net.conn.phase == D.Idle && j.commands != []
    requires 1 <= n <= |D.Ledger(j.net, t)|
    ensures UnderWay(HandleNext(j, t), t, n) <==> UnderWay(j, t, n)
  {
    var rest := j.commands[1..];
    assert j.commands == [j.commands[0]] + rest;
    assert Asked(j.commands, n) <==> Asked(rest, n) || (j.commands[0].Sub? && j.commands[0].from < n) by {
      AskedFirst(j.commands, n);
    }
    hide C.Inv, Has, Asked, D.LedgersOk;
  }

  lemma AskedFirst(commands: seq<Command>, n: nat)
    requires commands != []
    ensures Asked(commands, n) <==> Asked(commands[1..], n) || (commands[0].Sub? && commands[0].from < n)
  {
    var rest := commands[1..];
    if i :| 0 <= i < |rest| && rest[i].Sub? && rest[i].from < n {
      assert commands[i + 1] == rest[i];
    }
    if i :| 0 < i < |commands| && commands[i].Sub? && commands[i].from < n {
      assert rest[i - 1] == commands[i];
    }
  }

  lemma HandleLedger(j: Joint, t: string)
    requires SameLedger(j, t) && j.net.conn.open && j.net.conn.phase == D.Idle && j.commands != []
    ensures SameLedger(HandleNext(j, t), t)
    ensures HandleNext(j, t).net.conn.open
    ensures t in HandleNext(j, t).net.conn.tasks <==> j.commands[0].Sub?
  {
    D.GroundedStep(j.net, D.Unsubscribe(t));
    if j.commands[0].Sub? {
      D.GroundedStep(j.net, D.Subscribe(t, j.commands[0].from));
    }
    var next := HandleNext(j, t);
    assert D.Ledger(next.net, t) == D.Ledger(j.net, t) && t in next.net.ledgers;
    hide D.Grounded, C.Inv, D.Ledger;
  }

  lemma HandleKeeps(j: Joint, t: string)
    requires Related(j, t) && j.net.conn.open && j.net.conn.phase == D.Idle && j.commands != []
    ensures Related(HandleNext(j, t), t)
  {
    var next := HandleNext(j, t);
    HandleLedger(j, t);
    PipeInLedger(j.client);
    forall n: nat | 1 <= n <= |D.Ledger(j.net, t)| ensures UnderWay(next, t, n) <==> UnderWay(j, t, n) {
      HandleMoves(j, t, n);
    }
    assert next.client == j.client && next.commands == j.commands[1..];
    hide UnderWay, C.Inv, D.Grounded, D.Ledger, Has, HandleNext;
  }

  /** A refusal takes from the browser's expectations what is not under way any more. */
  lemma RefuseKeeps(j: Joint, t: string)
    requires Related(j, t) && CanRefuse(j)
    ensures Related(RefuseNext(j, t), t)
  {
    var next := RefuseNext(j, t);
    var rest := j.commands[1..];
    C.StepKeeps(j.client, C.Refuse(Stranded(j.(commands := rest), t), rest == []));
    assert j.commands == [j.commands[0]] + rest;
    forall n: nat
      ensures UnderWay(next, t, n) ==> UnderWay(j, t, n)
      ensures UnderWay(next, t, n) <==> UnderWay(j.(commands := rest), t, n)
    {
      AskedFirst(j.commands, n);
      hide Waiting, Replays, Asked, Has;
    }
    RefusedClient(j.client, Stranded(j.(commands := rest), t), rest == []);
    assert SameLedger(next, t) && Alternate(next, t) && Agreed(next, t) by {
      hide UnderWay, C.Inv, D.Grounded, D.Ledger, Has, C.Apply, Asked, Stranded;
    }
    forall n: nat | n in next.client.pipe && j.client.open ensures UnderWay(next, t, n) {
      if rest != [] && j.client.here && n > j.client.from {
        assert rest[|rest| - 1] == Sub(j.client.from);
        assert Asked(rest, n);
      }
      hide Waiting, Replays, Asked, Has;
    }
    hide UnderWay, C.Inv, D.Grounded, D.Ledger, Has, C.Apply, Asked;
  }

  lemma RefusedClient(c: C.Client, lost: set<nat>, last: bool)
    ensures var d := C.Apply(c, C.Refuse(lost, last));
      && d.ledger == c.ledger && d.timeline == c.timeline && d.open == c.open && d.here == c.here
      && d.entered == c.entered && d.from == c.from && d.pipe <= c.pipe
      && (c.open ==> d.refused == (c.refused || last)) && (!c.open ==> d == c)
      && (forall n :: n in c.pipe && n !in lost ==> n in d.pipe)
      && (forall n :: c.open && n in lost && (!c.here || c.refused || last || n <= c.from) ==> n !in d.pipe)
  {
    hide Has, LastSeq;
  }

  // ---- the browser's steps -------------------------------------------------------------------------------

  /** The next event on the wire is one the browser may receive. */
  lemma NextMayArrive(j: Joint, t: string)
    requires Related(j, t) && j.wire != []
    ensures C.CanArrive(j.client, j.wire[0].number) && j.client.ledger[j.wire[0].number - 1] == j.wire[0]
  {
    var e := j.wire[0];
    assert e in j.wire;
    InLedger(j.net, t, e);
    assert Has(j.wire, e.number);
    assert UnderWay(j, t, e.number);
  }

  lemma WireRest(wire: seq<TaskEvent>, n: nat)
    requires wire != []
    ensures Has(wire, n) <==> Has(wire[1..], n) || wire[0].number == n
  {
    assert wire == [wire[0]] + wire[1..];
    HasAppend([wire[0]], wire[1..], n);
    assert [wire[0]][0].number == wire[0].number;
  }

  lemma ArriveKeeps(j: Joint, t: string)
    requires Related(j, t) && j.wire != []
    ensures Related(Apply(j, t, Arrive), t)
  {
    var next, n := Apply(j, t, Arrive), j.wire[0].number;
    NextMayArrive(j, t);
    C.StepKeeps(j.client, C.Live(n));
    ArrivedClient(j.client, n);
    forall m: nat ensures UnderWay(next, t, m) || m == n <==> UnderWay(j, t, m) || m == n {
      WireRest(j.wire, m);
      hide Waiting, Replays, Asked, Has;
    }
    forall m: nat ensures UnderWay(next, t, m) ==> UnderWay(j, t, m) {
      WireRest(j.wire, m);
      hide Waiting, Replays, Asked, Has;
    }
    hide UnderWay, C.Inv, D.Grounded, D.Ledger, Has, C.Apply, C.CanArrive;
  }

  lemma ArrivedClient(c: C.Client, n: nat)
    requires C.Inv(c) && C.CanArrive(c, n)
    ensures var d := C.Apply(c, C.Live(n));
      && d.ledger == c.ledger && d.open == c.open && d.here == c.here && d.entered == c.entered && d.from == c.from
      && d.refused == c.refused && d.pipe == c.pipe - {n} && (forall m: nat :: Has(c.timeline, m) || m == n <==> Has(d.timeline, m))
  {
    C.MergeSlice(c.ledger, c.timeline, n - 1, n);
    hide C.Inv, Appended, Has, LastSeq;
  }

  /** The socket's side of the browser, and what the timeline has, are as before or more. */
  ghost predicate SameSocket(c: C.Client, d: C.Client) {
    && d.ledger == c.ledger && d.open == c.open && d.here == c.here && d.entered == c.entered && d.from == c.from
    && d.refused == c.refused && d.pipe == c.pipe && (forall m: nat :: Has(c.timeline, m) ==> Has(d.timeline, m))
  }

  /** Loads, pages and failures move nothing on the socket. */
  lemma BrowsedClient(c: C.Client, action: C.Step)
    requires C.Inv(c) && Fetching(action)
    ensures SameSocket(c, C.Apply(c, action))
  {
    hide C.Inv, Appended, Has, LastSeq, C.Without, C.Awaited, C.Rest, C.CanReceive, C.Received, C.Failed;
    if action.Fail? && action.i < |c.fetches| {
      FailedClient(c, action.i, action.again);
    }
    if action.Receive? {
      if C.CanReceive(c, action.i) {
        ReceivedClient(c, action.i);
      }
    }
  }

  lemma FailedClient(c: C.Client, i: nat, again: bool)
    requires i < |c.fetches|
    ensures SameSocket(c, C.Failed(c, i, again))
  {
    hide Has, LastSeq, C.Without, C.Awaited, C.Rest;
  }

  lemma ReceivedClient(c: C.Client, i: nat)
    requires C.Inv(c) && C.CanReceive(c, i)
    ensures SameSocket(c, C.Received(c, i))
  {
    var f := c.fetches[i];
    C.MergeSlice(c.ledger, c.timeline, f.after, Upto(f.page.value, f.after, PAGE));
    hide C.Inv, Appended, Has, LastSeq, C.Without, C.Awaited;
  }

  lemma BrowseKeeps(j: Joint, t: string, action: C.Step)
    requires Related(j, t) && Fetching(action)
    ensures Related(Apply(j, t, Browse(action)), t)
  {
    C.StepKeeps(j.client, action);
    BrowsedClient(j.client, action);
    var next := Apply(j, t, Browse(action));
    assert forall n: nat :: UnderWay(next, t, n) <==> UnderWay(j, t, n);
    hide UnderWay, C.Inv, D.Grounded, D.Ledger, Has, C.Apply;
  }

  lemma AskedMore(commands: seq<Command>, more: Command, n: nat)
    ensures Asked(commands + [more], n) <==> Asked(commands, n) || (more.Sub? && more.from < n)
  {
    var all := commands + [more];
    assert all[|commands|] == more;
    if i :| 0 <= i < |commands| && commands[i].Sub? && commands[i].from < n {
      assert all[i] == commands[i];
    }
  }

  lemma EnteredClient(c: C.Client, kept: bool)
    requires !c.here
    ensures var d, last := C.Apply(c, C.Enter(kept)), LastSeq(c.timeline);
      && d.ledger == c.ledger && d.timeline == c.timeline && d.open == c.open && d.here && d.entered
      && d.pipe == (if c.open then c.pipe + C.Range(last, |c.ledger|) else c.pipe) && (c.open ==> d.from == last && !d.refused)
  {
    hide LastSeq;
  }

  lemma EnterKeeps(j: Joint, t: string, kept: bool)
    requires Related(j, t) && !j.client.here
    ensures Related(Apply(j, t, Enter(kept)), t)
  {
    var next, last := Apply(j, t, Enter(kept)), LastSeq(j.client.timeline);
    C.StepKeeps(j.client, C.Enter(kept));
    EnteredClient(j.client, kept);
    PipeInLedger(j.client);
    if j.client.open {
      forall n: nat ensures UnderWay(next, t, n) <==> UnderWay(j, t, n) || last < n {
        AskedMore(j.commands, Sub(last), n);
        hide Waiting, Replays, Asked, Has, LastSeq;
      }
    } else {
      assert j.commands + [] == j.commands;
    }
    hide UnderWay, C.Inv, D.Grounded, D.Ledger, Has, C.Apply, LastSeq;
  }

  lemma LeaveKeeps(j: Joint, t: string)
    requires Related(j, t) && j.client.here
    ensures Related(Apply(j, t, Leave), t)
  {
    var next := Apply(j, t, Leave);
    C.StepKeeps(j.client, C.Leave);
    PipeInLedger(j.client);
    if j.client.open {
      forall n: nat ensures UnderWay(next, t, n) <==> UnderWay(j, t, n) {
        AskedMore(j.commands, Unsub, n);
        hide Waiting, Replays, Asked, Has;
      }
    } else {
      assert j.commands + [] == j.commands;
    }
    hide UnderWay, C.Inv, D.Grounded, D.Ledger, Has, LastSeq;
  }

  lemma OpenedClient(c: C.Client, late: set<nat>)
    requires !c.open && late <= C.Range(0, |c.ledger|)
    ensures var d, last := C.Apply(c, C.Open(late)), LastSeq(c.timeline);
      && d.ledger == c.ledger && d.timeline == c.timeline && d.open && d.here == c.here && d.entered == c.entered
      && d.from == last && !d.refused && d.pipe == if c.here then C.Range(last, |c.ledger|) + late else late
  {
    assert late * C.Range(0, |c.ledger|) == late;
    hide LastSeq;
  }

  lemma ConnectLedger(j: Joint, t: string)
    requires Related(j, t) && !j.client.open
    ensures SameLedger(Connected(j, t), t)
    ensures var next := Connected(j, t); next.net.conn.open && next.client.open
  {
    var net := D.Apply(j.net, D.Accept);
    D.GroundedStep(j.net, D.Accept);
    C.StepKeeps(j.client, C.Open(Late(net, t)));
    PipeInLedger(j.client);
    hide C.Inv, D.Grounded, UnderWay, LastSeq, Waiting;
  }

  lemma ConnectUnderWay(j: Joint, t: string, n: nat)
    requires !j.client.open && !j.net.conn.open
    ensures var next := Connected(j, t);
      UnderWay(next, t, n) <==> Waiting(next.net, t, n) || (j.client.here && LastSeq(j.client.timeline) < n)
  {
    var next := Connected(j, t);
    hide Waiting, LastSeq, C.Apply;
    assert j.client.here ==> next.commands[0] == Sub(LastSeq(j.client.timeline));
  }

  lemma ConnectKeeps(j: Joint, t: string)
    requires Related(j, t) && !j.client.open
    ensures Related(Connected(j, t), t)
  {
    var next := Connected(j, t);
    ConnectLedger(j, t);
    OpenedClient(j.client, Late(next.net, t));
    PipeInLedger(j.client);
    forall n: nat
      ensures UnderWay(next, t, n) <==> Waiting(next.net, t, n) || (j.client.here && LastSeq(j.client.timeline) < n)
    {
      ConnectUnderWay(j, t, n);
    }
    assert next.wire == [] && next.net.conn.tasks == map[];
    hide UnderWay, C.Inv, D.Grounded, D.Ledger, Has, C.Apply, LastSeq, Waiting, SameLedger;
  }

  lemma DisconnectKeeps(j: Joint, t: string)
    requires Related(j, t)
    ensures Related(Apply(j, t, Disconnect), t)
  {
    D.GroundedStep(j.net, D.Close);
    C.StepKeeps(j.client, C.Close);
    hide UnderWay, C.Inv, D.Grounded, Has;
  }

  /** Every step keeps server and browser related: every send may arrive, and everything owed is under way. */
  lemma StepKeeps(j: Joint, t: string, step: Step)
    requires Related(j, t)
    ensures Related(Apply(j, t, step), t)
  {
    hide Related, ServerStep, HandleNext, RefuseNext, CanRefuse, Connected, C.Apply, D.Apply;
    match step {
      case Commit(events, acknowledged) => CommitKeeps(j, t, events, acknowledged);
      case Server(s) =>
        if Inner(s, t) {
          match s {
            case RunHook(notice) => HookKeeps(j, t, notice);
            case Live => LiveKeeps(j, t);
            case ReplayBatch => BatchKeeps(j, t);
            case _ => OtherKeeps(j, t, s);
          }
        }
      case Handle => if j.net.conn.open && j.net.conn.phase == D.Idle && j.commands != [] { HandleKeeps(j, t); }
      case Refuse => if CanRefuse(j) { RefuseKeeps(j, t); }
      case Arrive => if j.wire != [] { ArriveKeeps(j, t); }
      case Connect => if !j.client.open { ConnectKeeps(j, t); }
      case Disconnect => DisconnectKeeps(j, t);
      case Enter(kept) => if !j.client.here { EnterKeeps(j, t, kept); }
      case Leave => if j.client.here { LeaveKeeps(j, t); }
      case Browse(action) => if Fetching(action) { BrowseKeeps(j, t, action); }
    }
  }

  lemma {:induction false} AlwaysRelated(j: Joint, t: string, steps: seq<Step>)
    requires Initial(j, t)
    ensures Related(Run(j, t, steps), t)
  {
    if steps == [] {
      InitialIsRelated(j, t);
    } else {
      AlwaysRelated(j, t, steps[..|steps| - 1]);
      hide Initial, Related, Apply;
      StepKeeps(Run(j, t, steps[..|steps| - 1]), t, steps[|steps| - 1]);
    }
  }

  // ---- what it gives ------------------------------------------------------------------------------------------

  /** In every run of server and browser, whatever the server sends the browser's model lets arrive. */
  lemma EverySendMayArrive(j: Joint, t: string, steps: seq<Step>)
    requires Initial(j, t) && Run(j, t, steps).wire != []
    ensures var w := Run(j, t, steps);
      C.CanArrive(w.client, w.wire[0].number) && w.wire[0] in w.client.ledger
  {
    AlwaysRelated(j, t, steps);
    hide Run, Related;
    MayArrive(Run(j, t, steps), t);
  }

  lemma MayArrive(j: Joint, t: string)
    requires Related(j, t) && j.wire != []
    ensures C.CanArrive(j.client, j.wire[0].number) && j.wire[0] in j.client.ledger
  {
    NextMayArrive(j, t);
  }

  /** While the connection is open, whatever the browser's model expects of the socket is under way. */
  lemma ExpectedIsUnderWay(j: Joint, t: string, steps: seq<Step>, n: nat)
    requires Initial(j, t)
    requires var w := Run(j, t, steps); w.client.open && w.net.conn.open && n in w.client.pipe
    ensures var w := Run(j, t, steps); UnderWay(w, t, n)
  {
    AlwaysRelated(j, t, steps);
  }

  /**
   * In every run, when the server has handled all commands of a mounted page and every commit since the last
   * subscribe was published: if that subscribe was served, all that the browser lacks above the number it
   * subscribed from is under way.
   */
  lemma SocketOwesTheRest(j: Joint, t: string, steps: seq<Step>, n: nat)
    requires Initial(j, t)
    requires var w := Run(j, t, steps);
      && w.client.open && w.net.conn.open && w.client.here && !w.client.lossy && w.commands == []
      && t in w.net.conn.tasks && w.client.from < n <= |D.Ledger(w.net, t)| && !Has(w.client.timeline, n)
    ensures var w := Run(j, t, steps); UnderWay(w, t, n)
  {
    AlwaysRelated(j, t, steps);
    hide Run, UnderWay, C.TimelineOk, C.FetchesOk, C.Explained;
  }

  /** Neither the page nor the connection changes. */
  predicate Still(step: Step) {
    !step.Enter? && !step.Leave? && !step.Connect? && !step.Disconnect?
  }

  /** If the subscribe was refused, the server sends nothing more until the page or the connection changes. */
  lemma {:induction false} RefusedIsSilent(j: Joint, t: string, more: seq<Step>)
    requires j.wire == [] && j.commands == [] && t !in j.net.conn.tasks
    requires forall k :: 0 <= k < |more| ==> Still(more[k])
    ensures var w := Run(j, t, more); w.wire == [] && w.commands == [] && t !in w.net.conn.tasks
  {
    if more != [] {
      var front, step := more[..|more| - 1], more[|more| - 1];
      RefusedIsSilent(j, t, front);
      assert Still(step);
      hide Run;
      StaysSilent(Run(j, t, front), t, step);
    }
  }

  lemma StaysSilent(j: Joint, t: string, step: Step)
    requires j.wire == [] && j.commands == [] && t !in j.net.conn.tasks && Still(step)
    ensures var w := Apply(j, t, step); w.wire == [] && w.commands == [] && t !in w.net.conn.tasks
  {
    hide C.Apply, UnderWay, D.Ledger;
  }

  /** The step of the browser's model that a joint step is, if any. */
  function ClientSteps(j: Joint, t: string, step: Step): seq<C.Step> {
    match step
    case Commit(events, acknowledged) => [C.Commit(events, acknowledged || AnySub(j.commands))]
    case Server(s) =>
      if Inner(s, t) && ServerStep(j, t, s).client != j.client && j.net.conn.queue != []
      then [C.Drop(j.net.conn.queue[0].event.number)] else []
    case Handle => []
    case Refuse =>
      if CanRefuse(j)
      then [C.Refuse(Stranded(j.(commands := j.commands[1..]), t), j.commands[1..] == [])] else []
    case Arrive => if j.wire == [] then [] else [C.Live(j.wire[0].number)]
    case Connect => if j.client.open then [] else [C.Open(Late(D.Apply(j.net, D.Accept), t))]
    case Disconnect => [C.Close]
    case Enter(kept) => if j.client.here then [] else [C.Enter(kept)]
    case Leave => if j.client.here then [C.Leave] else []
    case Browse(action) => if Fetching(action) then [action] else []
  }

  lemma StepProjects(j: Joint, t: string, step: Step)
    ensures C.Run(j.client, ClientSteps(j, t, step)) == Apply(j, t, step).client
  {
    var steps := ClientSteps(j, t, step);
    hide C.Apply, D.Apply, Inner, UnderWay, AnySub;
    if steps != [] {
      assert steps[..0] == [] && C.Run(j.client, []) == j.client;
      assert C.Run(j.client, steps) == C.Apply(j.client, steps[0]);
    }
  }

  /** The steps of the browser's model along a run of both. */
  function Projected(j: Joint, t: string, steps: seq<Step>): seq<C.Step> {
    if steps == [] then []
    else
      Projected(j, t, steps[..|steps| - 1]) + ClientSteps(Run(j, t, steps[..|steps| - 1]), t, steps[|steps| - 1])
  }

  lemma {:induction false} RunTwice(c: C.Client, a: seq<C.Step>, b: seq<C.Step>)
    ensures C.Run(C.Run(c, a), b) == C.Run(c, a + b)
  {
    hide C.Apply;
    if b == [] {
      assert a + b == a;
    } else {
      RunTwice(c, a, b[..|b| - 1]);
      assert (a + b)[..|a + b| - 1] == a + b[..|b| - 1];
    }
  }

  /** Every run of server and browser is a run of the browser's model, so that all its theorems hold of it. */
  lemma {:induction false} RunProjects(j: Joint, t: string, steps: seq<Step>)
    ensures C.Run(j.client, Projected(j, t, steps)) == Run(j, t, steps).client
  {
    hide Apply, ClientSteps, C.Apply;
    if steps != [] {
      var front, step := steps[..|steps| - 1], steps[|steps| - 1];
      RunProjects(j, t, front);
      StepProjects(Run(j, t, front), t, step);
      RunTwice(j.client, Projected(j, t, front), ClientSteps(Run(j, t, front), t, step));
    }
  }

  /** The browser's part of the step gives up no number. */
  predicate Smooth(j: Joint, t: string, step: Step) {
    forall s :: s in ClientSteps(j, t, step) ==> C.Untroubled(j.client, s)
  }

  predicate AllSmooth(j: Joint, t: string, steps: seq<Step>) {
    steps == []
    || (AllSmooth(j, t, steps[..|steps| - 1]) && Smooth(Run(j, t, steps[..|steps| - 1]), t, steps[|steps| - 1]))
  }

  lemma {:induction false} ProjectedIsUntroubled(j: Joint, t: string, steps: seq<Step>)
    requires AllSmooth(j, t, steps)
    ensures C.AllUntroubled(j.client, Projected(j, t, steps))
  {
    if steps != [] {
      var front, step := steps[..|steps| - 1], steps[|steps| - 1];
      ProjectedIsUntroubled(j, t, front);
      RunProjects(j, t, front);
      var before, more := Projected(j, t, front), ClientSteps(Run(j, t, front), t, step);
      AtMostOne(Run(j, t, front), t, step);
      hide ClientSteps, Run, C.Run, C.Untroubled, Projected;
      if more != [] {
        assert more[0] in more;
        assert (before + more)[..|before + more| - 1] == before;
        assert (before + more)[|before + more| - 1] == more[0];
      } else {
        assert before + more == before;
      }
      assert Projected(j, t, steps) == before + more by {
        ProjectedStep(j, t, steps);
      }
    }
  }

  lemma ProjectedStep(j: Joint, t: string, steps: seq<Step>)
    requires steps != []
    ensures Projected(j, t, steps) ==
      Projected(j, t, steps[..|steps| - 1]) + ClientSteps(Run(j, t, steps[..|steps| - 1]), t, steps[|steps| - 1])
  {
    hide ClientSteps, Run;
  }

  lemma AtMostOne(j: Joint, t: string, step: Step)
    ensures |ClientSteps(j, t, step)| <= 1
  {
    hide Inner, UnderWay, AnySub, C.Apply, D.Apply;
  }

  /** Nothing of the task is on its way in either direction. */
  predicate Quiet(j: Joint, t: string) {
    && j.wire == [] && j.commands == [] && !(j.net.conn.phase.Replaying? && j.net.conn.phase.task == t)
    && (forall n :: n in j.net.conn.queue ==> n.task != t) && (forall n :: n in j.net.hooks ==> n.task != t)
  }

  /**
   * From commit to timeline, in every run of server and browser: whenever the connection is open, the page
   * mounted, every commit since its subscribe published, all fetches ended and nothing on its way, the browser's
   * timeline is the server's ledger if and only if all that was skipped has come, and the last subscribe was
   * served or nothing is newer than lastSeq.
   */
  lemma EventsReachTheBrowserIff(j: Joint, t: string, steps: seq<Step>)
    requires Initial(j, t)
    requires var w := Run(j, t, steps);
      && w.client.open && w.net.conn.open && w.client.here && !w.client.lossy && w.client.fetches == [] && Quiet(w, t)
    ensures var w := Run(j, t, steps);
      w.client.timeline == D.Ledger(w.net, t) <==>
        && (forall n: nat :: n in w.client.skipped ==> Has(w.client.timeline, n))
        && (t in w.net.conn.tasks || LastSeq(w.client.timeline) == |D.Ledger(w.net, t)|)
  {
    var w := Run(j, t, steps);
    AlwaysRelated(j, t, steps);
    RunProjects(j, t, steps);
    NothingUnderWay(w, t);
    hide Run, Projected, UnderWay, D.Grounded, C.Inv, LastSeq;
    assert t in w.net.conn.tasks <==> !w.client.refused;
    hide Quiet;
    C.TimelineIsLedgerIff(j.client, Projected(j, t, steps));
  }

  /**
   * In one mount without troubles the first condition always holds: when the last subscribe was served, the
   * timeline is the ledger.
   */
  lemma EventsReachTheBrowser(j: Joint, t: string, steps: seq<Step>)
    requires Initial(j, t) && AllSmooth(j, t, steps)
    requires var w := Run(j, t, steps);
      && w.client.open && w.net.conn.open && w.client.here && t in w.net.conn.tasks
      && w.client.fetches == [] && Quiet(w, t)
    ensures var w := Run(j, t, steps); w.client.timeline == D.Ledger(w.net, t)
  {
    var w := Run(j, t, steps);
    AlwaysRelated(j, t, steps);
    RunProjects(j, t, steps);
    ProjectedIsUntroubled(j, t, steps);
    NothingUnderWay(w, t);
    hide Run, Projected, UnderWay, D.Grounded, C.Inv, AllSmooth;
    assert !w.client.refused;
    hide Quiet;
    C.TimelineIsLedger(j.client, Projected(j, t, steps));
  }

  lemma NothingUnderWay(j: Joint, t: string)
    requires Quiet(j, t)
    ensures forall n: nat :: !UnderWay(j, t, n)
  {
  }

  // ---- a refused subscribe ------------------------------------------------------------------------------------

  /** A server with one empty task, a connection, and a browser that has yet to mount the page. */
  function Fresh(t: string): Joint {
    Joint(D.Net(map[t := []], {}, {}, D.Conn(true, [], map[], D.Idle)), F.Away([]), [], [])
  }

  function RefusalSteps(t: string): seq<Step> {
    [Enter(false), Refuse, Browse(C.Answer(0)), Browse(C.Receive(0)), Commit([F.Example(1)], true),
     Server(D.RunHook(D.Notice(t, F.Example(1)))), Server(D.Live)]
  }

  function RefusalStates(t: string): seq<Joint> {
    var e, j := F.Example(1), Fresh(t);
    var n := D.Notice(t, e);
    var loading := F.Mounted([], [], [C.LOAD], {});
    var refused := j.(client := loading.(refused := true));
    var loaded := j.(client := F.Mounted([], [], [], {}).(refused := true));
    var net := D.Net(map[t := [e]], {n}, {n}, j.net.conn);
    var committed := Joint(net, F.Mounted([e], [], [], {1}).(refused := true), [], []);
    [j, j.(client := loading, commands := [Sub(0)]), refused,
     refused.(client := F.Mounted([], [], [C.Fetch(0, None, Some(0))], {}).(refused := true)), loaded, committed,
     committed.(net := net.(hooks := {}, conn := j.net.conn.(queue := [n]))),
     committed.(net := net.(hooks := {}), client := committed.client.(pipe := {}))]
  }

  lemma RefusalBegins(t: string)
    ensures Apply(RefusalStates(t)[0], t, RefusalSteps(t)[0]) == RefusalStates(t)[1]
    ensures Apply(RefusalStates(t)[1], t, RefusalSteps(t)[1]) == RefusalStates(t)[2]
  {
    F.FirstEnter();
    assert [] + [Sub(0)] == [Sub(0)] && [Sub(0)][1..] == [];
  }

  lemma RefusalLoads(t: string)
    ensures Apply(RefusalStates(t)[2], t, RefusalSteps(t)[2]) == RefusalStates(t)[3]
    ensures Apply(RefusalStates(t)[3], t, RefusalSteps(t)[3]) == RefusalStates(t)[4]
  {
    var c := RefusalStates(t)[3].client;
    assert c.ledger[0..0] == [];
    AppendedNone([]);
    assert C.Awaited(c, 0);
    hide Appended, Inserted;
  }

  lemma RefusalCommits(t: string)
    ensures Apply(RefusalStates(t)[4], t, RefusalSteps(t)[4]) == RefusalStates(t)[5]
  {
    var e, j := F.Example(1), RefusalStates(t)[4];
    assert [] + [e] == [e] && C.Range(0, 1) == {1} && {} + {1} == {1};
    assert D.Notices(t, [e]) == {D.Notice(t, e)};
    assert map[t := []][t := [e]] == map[t := [e]];
    assert D.Apply(j.net, D.Commit(t, [e], true)) == RefusalStates(t)[5].net;
    assert C.Apply(j.client, C.Commit([e], true)) == RefusalStates(t)[5].client;
    hide C.Apply, D.Apply, F.Mounted, F.Away;
  }

  lemma RefusalDrops(t: string)
    ensures Apply(RefusalStates(t)[5], t, RefusalSteps(t)[5]) == RefusalStates(t)[6]
    ensures Apply(RefusalStates(t)[6], t, RefusalSteps(t)[6]) == RefusalStates(t)[7]
  {
    var n := D.Notice(t, F.Example(1));
    assert {n} - {n} == {} && [] + [n] == [n] && [n][1..] == [];
    assert !UnderWay(RefusalStates(t)[7], t, 1);
    assert {1} - {1} == {};
  }

  lemma {:induction false} StatesRun(t: string, states: seq<Joint>, steps: seq<Step>)
    requires |states| == |steps| + 1
    requires forall k :: 0 <= k < |steps| ==> Apply(states[k], t, steps[k]) == states[k + 1] && Smooth(states[k], t, steps[k])
    ensures Run(states[0], t, steps) == states[|steps|] && AllSmooth(states[0], t, steps)
  {
    hide Apply, Smooth;
    if steps != [] {
      StatesRun(t, states[..|steps|], steps[..|steps| - 1]);
    }
  }

  lemma RefusalIsSmooth(t: string, k: nat)
    requires k < 7
    ensures Smooth(RefusalStates(t)[k], t, RefusalSteps(t)[k])
  {
    hide C.Apply, D.Apply, UnderWay, F.Mounted;
  }

  lemma RefusalStep(t: string, k: nat)
    requires k < 7
    ensures Apply(RefusalStates(t)[k], t, RefusalSteps(t)[k]) == RefusalStates(t)[k + 1]
  {
    RefusalBegins(t);
    RefusalLoads(t);
    RefusalCommits(t);
    RefusalDrops(t);
    hide Apply, RefusalStates, RefusalSteps;
  }

  lemma RefusalFrame(t: string)
    ensures |RefusalStates(t)| == 8 && |RefusalSteps(t)| == 7 && RefusalStates(t)[0] == Fresh(t) && Initial(Fresh(t), t)
    ensures var w := RefusalStates(t)[7];
      && w.client.open && w.net.conn.open && w.client.here && !w.client.lossy && w.client.fetches == [] && Quiet(w, t)
      && w.client.timeline == [] && D.Ledger(w.net, t) == [F.Example(1)]
  {
    assert Late(Fresh(t).net, t) == {};
    assert Fresh(t).client.pipe == {};
  }

  /**
   * The server cannot read the task when the subscribe arrives, answers with an error, and keeps the socket
   * open. One event is committed, acknowledged and published; the server drops it, and the page never sees it,
   * although it was not left, the connection stayed open, no fetch failed and nothing is on its way.
   */
  lemma RefusalMayHideEverything(t: string)
    ensures Initial(Fresh(t), t) && AllSmooth(Fresh(t), t, RefusalSteps(t))
    ensures var w := Run(Fresh(t), t, RefusalSteps(t));
      && w.client.open && w.net.conn.open && w.client.here && !w.client.lossy && w.client.fetches == [] && Quiet(w, t)
      && w.client.timeline == [] && D.Ledger(w.net, t) == [F.Example(1)]
  {
    var states, steps := RefusalStates(t), RefusalSteps(t);
    RefusalFrame(t);
    hide Apply, Smooth, RefusalStates, RefusalSteps, Quiet, Initial, Fresh, Run, AllSmooth;
    forall k: nat | k < |steps| ensures Apply(states[k], t, steps[k]) == states[k + 1] && Smooth(states[k], t, steps[k]) {
      RefusalStep(t, k);
      RefusalIsSmooth(t, k);
    }
    StatesRun(t, states, steps);
  }
}
