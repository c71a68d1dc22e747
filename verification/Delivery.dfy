/**
 * From commit to socket: after-commit hooks publish to bounded subscriber queues, and a connection
 * replays the ledger before it goes live.
 */
module Delivery {
  import opened Options
  import opened EventStore
  import opened Paging

  /** An event on the bus, with its task. */
  datatype Notice = Notice(task: string, event: TaskEvent)

  type Ledgers = map<string, seq<TaskEvent>>

  // ---- the bus -----------------------------------------------------------------------------------

  class Subscriber {
    const task: string
    const capacity: nat
    var events: seq<Notice>
    var done: bool

    constructor (task: string, capacity: nat)
      ensures this.task == task && this.capacity == capacity && events == [] && !done
    {
      this.task, this.capacity, events, done := task, capacity, [], false;
    }

    predicate Wants(n: Notice) {
      task == "" || task == n.task
    }
  }

  class Bus {
    var subs: set<Subscriber>
    var capacity: nat

    /** NewBus: 512 events fit into a subscriber's channel. */
    constructor ()
      ensures subs == {} && capacity == 512
    {
      subs, capacity := {}, 512;
    }

    method Subscribe(task: string) returns (s: Subscriber)
      modifies this`subs
      ensures fresh(s) && subs == old(subs) + {s}
      ensures s.task == task && s.events == [] && !s.done && s.capacity == (if capacity > 1 then capacity else 1)
    {
      s := new Subscriber(task, if capacity > 1 then capacity else 1);
      subs := subs + {s};
    }

    method Remove(s: Subscriber)
      modifies this`subs, s`done
      ensures subs == old(subs) - {s} && s.done == (old(s.done) || s in old(subs))
    {
      if s in subs {
        subs := subs - {s};
        s.done := true;
      }
    }

    /** A subscriber gets the event at the end of its queue, or is cut off when the queue is full. */
    method Publish(n: Notice)
      modifies this`subs, subs
      ensures forall s :: s in old(subs) ==>
        (if !s.Wants(n) then s in subs && s.events == old(s.events) && s.done == old(s.done)
         else if |old(s.events)| < s.capacity then
           s in subs && s.events == old(s.events) + [n] && s.done == old(s.done)
         else s !in subs && s.events == old(s.events) && s.done)
      ensures subs <= old(subs)
    {
      var rest := subs;
      while rest != {}
        invariant rest <= subs <= old(subs)
        invariant forall s :: s in rest ==> s.events == old(s.events) && s.done == old(s.done)
        invariant forall s :: s in old(subs) && s !in rest ==>
          (if !s.Wants(n) then s in subs && s.events == old(s.events) && s.done == old(s.done)
           else if |old(s.events)| < s.capacity then
             s in subs && s.events == old(s.events) + [n] && s.done == old(s.done)
           else s !in subs && s.events == old(s.events) && s.done)
        decreases |rest|
      {
        var s :| s in rest;
        rest := rest - {s};
        if s.Wants(n) {
          if |s.events| < s.capacity {
            s.events := s.events + [n];
          } else {
            Remove(s);
          }
        }
      }
    }
  }

  // ---- replay --------------------------------------------------------------------------------------

  datatype Sent = Envelope(event: TaskEvent) | Ack(task: string, replayed: nat) | ReplayFailed

  function Envelopes(es: seq<TaskEvent>): seq<Sent> {
    if es == [] then [] else Envelopes(es[..|es| - 1]) + [Envelope(es[|es| - 1])]
  }

  lemma EnvelopesAppend(es: seq<TaskEvent>, e: TaskEvent)
    ensures Envelopes(es + [e]) == Envelopes(es) + [Envelope(e)]
  {
    assert (es + [e])[..|es|] == es;
  }

  /** The inner loop: send the batch up to `size`. */
  method SendSlice(ghost ledger: seq<TaskEvent>, ghost from: nat, start: nat, size: nat, batch: seq<TaskEvent>, sent: seq<Sent>)
      returns (out: seq<Sent>, after: nat)
    requires Gapless(ledger) && from <= start < size <= |ledger| && start + |batch| <= |ledger|
    requires batch == ledger[start..start + |batch|] && sent == Envelopes(ledger[from..start])
    ensures after == Min(start + |batch|, size) && out == Envelopes(ledger[from..after])
  {
    out, after := sent, start;
    hide Envelopes;
    for k := 0 to |batch|
      invariant after == start + k <= size && out == Envelopes(ledger[from..after])
    {
      if batch[k].number > size {
        break;
      }
      assert ledger[from..after + 1] == ledger[from..after] + [batch[k]];
      EnvelopesAppend(ledger[from..after], batch[k]);
      out := out + [Envelope(batch[k])];
      after := batch[k].number;
    }
  }

  /**
   * The replay loop of `subscribe`. `size` is the sequence number read with the task; read `k` of the
   * loop sees the first `sizes(k)` events, or fails. It always ends; without a failed read it sends
   * exactly the events `from + 1` to `size`, once and in order, then the acknowledgement with their number.
   */
  method Replay(task: string, ledger: seq<TaskEvent>, from: nat, size: nat, sizes: nat -> Option<nat>)
      returns (out: seq<Sent>, ok: bool)
    requires Gapless(ledger) && size <= |ledger|
    requires forall k :: sizes(k).Some? ==> size <= sizes(k).value <= |ledger|
    ensures ok && from < size ==> out == Envelopes(ledger[from..size]) + [Ack(task, size - from)]
    ensures from >= size ==> ok && out == [Ack(task, 0)]
    ensures !ok ==> exists hi :: from <= hi < size && out == Envelopes(ledger[from..hi]) + [ReplayFailed]
    ensures (forall k :: sizes(k).Some?) ==> ok
  {
    out := [];
    if from >= size {
      return [Ack(task, 0)], true;
    }
    var after, replayed, r := from, 0, 0;
    assert Envelopes(ledger[from..from]) == [];
    hide Query, Envelopes;
    while after < size
      invariant from <= after <= size && replayed == after - from
      invariant out == Envelopes(ledger[from..after])
      decreases size - after
    {
      var read := sizes(r);
      r := r + 1;
      if read.None? {
        out := out + [ReplayFailed];
        return out, false;
      }
      var batch := Query(ledger[..read.value], after, PAGE);
      QueryOfGapless(ledger[..read.value], after, PAGE);
      SliceOfPrefix(ledger, read.value, after, Upto(read.value, after, PAGE));
      if |batch| == 0 {
        break;
      }
      var start := after;
      out, after := SendSlice(ledger, from, after, size, batch, out);
      replayed := replayed + (after - start);
    }
    out := out + [Ack(task, replayed)];
    return out, true;
  }

  // ---- the whole path, step by step --------------------------------------------------------------

  const CAPACITY := 512

  /** What one connection loop is doing. */
  datatype Phase = Idle | Replaying(task: string, after: nat, size: nat)

  /** Bookkeeping of a subscription: where it starts, and what was sent since. */
  datatype Subscription = Subscription(since: nat, sent: seq<TaskEvent>)

  datatype Conn = Conn(
    open: bool, queue: seq<Notice>, tasks: map<string, Subscription>, phase: Phase)

  /** `hooks` are the after-commit hooks still to run; `acked` are all events whose commit was acknowledged. */
  datatype Net = Net(ledgers: Ledgers, hooks: set<Notice>, acked: set<Notice>, conn: Conn)

  datatype Step =
    | Commit(task: string, events: seq<TaskEvent>, acknowledged: bool)
    | RunHook(notice: Notice)
    | Live
    | Subscribe(task: string, from: nat)   // and the task can be read; otherwise an error is all that happens
    | Unsubscribe(task: string)
    | ReplayBatch
    | Close
    | Accept

  function Ledger(net: Net, task: string): seq<TaskEvent> {
    if task in net.ledgers then net.ledgers[task] else []
  }

  function Notices(task: string, events: seq<TaskEvent>): (r: set<Notice>)
    ensures forall n :: n in r <==> n.task == task && n.event in events
  {
    if events == [] then {}
    else Notices(task, events[..|events| - 1]) + {Notice(task, events[|events| - 1])}
  }

  /** Publish, as the connection's subscriber sees it: an overflow closes the socket. */
  function Offer(c: Conn, n: Notice): Conn {
    if !c.open then c
    else if |c.queue| < CAPACITY then c.(queue := c.queue + [n])
    else c.(open := false)
  }

  /** One event taken from the queue: sent if its task is subscribed. */
  function TakeLive(c: Conn): Conn {
    if !c.open || c.phase != Idle || c.queue == [] then c
    else
      var n, rest := c.queue[0], c.queue[1..];
      if n.task in c.tasks then
        var s := c.tasks[n.task];
        c.(queue := rest, tasks := c.tasks[n.task := s.(sent := s.sent + [n.event])])
      else c.(queue := rest)
  }

  function BeginSubscribe(c: Conn, ledgers: Ledgers, task: string, from: nat): Conn {
    if !c.open || c.phase != Idle || task !in ledgers then c
    else
      var s := if task in c.tasks then c.tasks[task].(since := Min(c.tasks[task].since, from))
               else Subscription(from, []);
      var size := |ledgers[task]|;
      c.(tasks := c.tasks[task := s], phase := if from < size then Replaying(task, from, size) else Idle)
  }

  function SendBatch(c: Conn, ledger: seq<TaskEvent>): Conn {
    if !c.open || c.phase == Idle || c.phase.task !in c.tasks then c
    else
      var task, after, size := c.phase.task, c.phase.after, c.phase.size;
      var hi := Min(Upto(|ledger|, after, PAGE), size);
      if hi <= after || hi > |ledger| then c.(phase := Idle)
      else
        var s := c.tasks[task];
        c.(tasks := c.tasks[task := s.(sent := s.sent + ledger[after..hi])],
           phase := if hi < size then Replaying(task, hi, size) else Idle)
  }

  function Apply(net: Net, step: Step): Net {
    var c := net.conn;
    match step
    case Commit(task, events, acknowledged) =>
      if !Continues(Ledger(net, task), events) then net
      else
        var all := net.ledgers[task := Ledger(net, task) + events];
        if acknowledged
        then Net(all, net.hooks + Notices(task, events), net.acked + Notices(task, events), c)
        else net.(ledgers := all)
    case RunHook(n) => if n in net.hooks then net.(hooks := net.hooks - {n}, conn := Offer(c, n)) else net
    case Live => net.(conn := TakeLive(c))
    case Subscribe(task, from) => net.(conn := BeginSubscribe(c, net.ledgers, task, from))
    case Unsubscribe(task) =>
      if c.open && c.phase == Idle then net.(conn := c.(tasks := c.tasks - {task})) else net
    case ReplayBatch => if c.phase == Idle then net else net.(conn := SendBatch(c, Ledger(net, c.phase.task)))
    case Close => net.(conn := c.(open := false))
    case Accept => if c.open then net else net.(conn := Conn(true, [], map[], Idle))
  }

  function Run(net: Net, steps: seq<Step>): Net {
    if steps == [] then net else Apply(Run(net, steps[..|steps| - 1]), steps[|steps| - 1])
  }

  /** A server whose ledgers already hold events, and a connection just accepted: subscribed to the bus. */
  ghost predicate Initial(net: Net) {
    && (forall t :: t in net.ledgers ==> Gapless(net.ledgers[t]))
    && net.conn == Conn(true, [], map[], Idle)
    && net.hooks <= net.acked
    && forall n :: n in net.acked ==> Committed(net, n)
  }

  predicate Committed(net: Net, n: Notice) {
    n.event in Ledger(net, n.task)
  }

  predicate InFlight(net: Net, n: Notice) {
    || n in net.conn.queue || n in net.hooks
    || (net.conn.phase.Replaying? && net.conn.phase.task == n.task
        && net.conn.phase.after < n.event.number <= net.conn.phase.size)
  }

  /** The event was sent to the subscriber, or it still will be. */
  ghost predicate Safe(net: Net, n: Notice) {
    n.task in net.conn.tasks && n.event.number > net.conn.tasks[n.task].since ==>
      n.event in net.conn.tasks[n.task].sent || InFlight(net, n)
  }

  /** Ledgers have no gap, and acknowledged events are in them. */
  ghost predicate LedgersOk(net: Net) {
    && (forall t :: t in net.ledgers ==> Gapless(net.ledgers[t]))
    && net.hooks <= net.acked
    && (forall n :: n in net.acked ==> Committed(net, n))
  }

  /** The connection holds and has sent only committed events. */
  ghost predicate ConnOk(net: Net) {
    && (forall n :: n in net.conn.queue ==> n in net.acked)
    && (forall t, e :: t in net.conn.tasks && e in net.conn.tasks[t].sent ==> Committed(net, Notice(t, e)))
    && (net.conn.phase.Replaying? ==>
          net.conn.phase.task in net.conn.tasks
          && net.conn.phase.after < net.conn.phase.size <= |Ledger(net, net.conn.phase.task)|)
  }

  ghost predicate Grounded(net: Net) {
    LedgersOk(net) && ConnOk(net)
  }

  ghost predicate Inv(net: Net) {
    Grounded(net) && (net.conn.open ==> forall n :: n in net.acked ==> Safe(net, n))
  }

  lemma CommittedNumber(net: Net, n: Notice)
    requires Grounded(net) && Committed(net, n)
    ensures 1 <= n.event.number <= |Ledger(net, n.task)|
    ensures Ledger(net, n.task)[n.event.number - 1] == n.event
  {
    var k :| 0 <= k < |Ledger(net, n.task)| && Ledger(net, n.task)[k] == n.event;
  }

  lemma GroundedStep(net: Net, step: Step)
    requires Grounded(net)
    ensures Grounded(Apply(net, step))
  {
    if step.Commit? {
      GroundedCommit(net, step.task, step.events, step.acknowledged);
    } else {
      GroundedConn(net, step);
    }
  }

  lemma GroundedCommit(net: Net, task: string, events: seq<TaskEvent>, acknowledged: bool)
    requires Grounded(net)
    ensures Grounded(Apply(net, Commit(task, events, acknowledged)))
  {
    var next := Apply(net, Commit(task, events, acknowledged));
    assert forall n :: Committed(net, n) ==> Committed(next, n);
    assert LedgersOk(next);
    assert forall t :: |Ledger(net, t)| <= |Ledger(next, t)|;
    hide LedgersOk, Committed, Ledger, Apply;
    assert next.conn == net.conn && net.acked <= next.acked by {
      hide *;
      CommitKeepsConn(net, task, events, acknowledged);
    }
  }

  lemma CommitKeepsConn(net: Net, task: string, events: seq<TaskEvent>, acknowledged: bool)
    ensures var next := Apply(net, Commit(task, events, acknowledged));
      next.conn == net.conn && net.acked <= next.acked
  {
  }

  lemma GroundedConn(net: Net, step: Step)
    requires Grounded(net) && !step.Commit?
    ensures Grounded(Apply(net, step))
  {
    var next := Apply(net, step);
    assert next.ledgers == net.ledgers && next.acked == net.acked && next.hooks <= net.hooks;
    assert forall n :: Committed(next, n) <==> Committed(net, n);
    assert LedgersOk(next);
    assert ConnOk(next) by {
      hide LedgersOk;
      match step
      case Live => LiveIsGrounded(net);
      case ReplayBatch => BatchIsGrounded(net);
      case _ =>
    }
  }

  lemma LiveIsGrounded(net: Net)
    requires Grounded(net)
    ensures ConnOk(Apply(net, Live))
  {
    var c, next := net.conn, Apply(net, Live);
    if c.open && c.phase == Idle && c.queue != [] {
      assert c.queue[0] in net.acked && Committed(net, c.queue[0]);
      assert forall n :: n in next.conn.queue ==> n in c.queue;
    }
  }

  lemma BatchIsGrounded(net: Net)
    requires Grounded(net)
    ensures ConnOk(Apply(net, ReplayBatch))
  {
  }

  lemma SafeStep(net: Net, step: Step)
    requires Inv(net) && Apply(net, step).conn.open
    ensures forall n :: n in Apply(net, step).acked ==> Safe(Apply(net, step), n)
  {
    var next := Apply(net, step);
    forall n | n in next.acked ensures Safe(next, n) {
      if n in net.acked {
        CommittedNumber(net, n);
        SafeOne(net, step, n);
      } 
    }
  }

  lemma SafeOne(net: Net, step: Step, n: Notice)
    requires Inv(net) && Apply(net, step).conn.open && n in net.acked
    ensures Safe(Apply(net, step), n)
  {
    CommittedNumber(net, n);
    assert net.conn.open ==> Safe(net, n);
    match step
    case Live => LiveIsSafe(net, n);
    case ReplayBatch => BatchIsSafe(net, n);
    case _ =>
  }

  lemma LiveIsSafe(net: Net, n: Notice)
    requires Inv(net) && Apply(net, Live).conn.open && n in net.acked
    ensures Safe(Apply(net, Live), n)
  {
    assert Safe(net, n);
    var c := net.conn;
    if c.phase == Idle && c.queue != [] {
      assert c.queue == [c.queue[0]] + c.queue[1..];
    }
  }

  lemma BatchIsSafe(net: Net, n: Notice)
    requires Inv(net) && Apply(net, ReplayBatch).conn.open && n in net.acked
    ensures Safe(Apply(net, ReplayBatch), n)
  {
    CommittedNumber(net, n);
    assert Safe(net, n);
    var c := net.conn;
    if c.phase.Replaying? && c.phase.task == n.task {
      var ledger := Ledger(net, n.task);
      var hi := Min(Upto(|ledger|, c.phase.after, PAGE), c.phase.size);
      if c.phase.after < n.event.number <= hi {
        assert ledger[c.phase.after..hi][n.event.number - 1 - c.phase.after] == n.event;
      }
    }
  }

  /** Every reachable state of the path keeps the invariant. */
  lemma {:induction false} AlwaysInv(net: Net, steps: seq<Step>)
    requires Initial(net)
    ensures Inv(Run(net, steps))
  {
    if steps != [] {
      var front := steps[..|steps| - 1];
      AlwaysInv(net, front);
      GroundedStep(Run(net, front), steps[|steps| - 1]);
      if Apply(Run(net, front), steps[|steps| - 1]).conn.open {
        SafeStep(Run(net, front), steps[|steps| - 1]);
      }
    }
  }

  /**
   * Replay-then-live loses nothing: while the connection is open and the task subscribed, every event
   * above `since` whose commit was acknowledged has been sent since, or is still on its way.
   */
  lemma NothingIsLost(net: Net, steps: seq<Step>, task: string, ev: TaskEvent)
    requires Initial(net)
    requires var w := Run(net, steps);
      w.conn.open && task in w.conn.tasks && Notice(task, ev) in w.acked && ev.number > w.conn.tasks[task].since
    ensures var w := Run(net, steps); ev in w.conn.tasks[task].sent || InFlight(w, Notice(task, ev))
  {
    AlwaysInv(net, steps);
    assert Safe(Run(net, steps), Notice(task, ev));
  }

  /** Once nothing is under way, everything above `since` was sent, and nothing but ledger events was. */
  lemma QuietMeansSent(net: Net, steps: seq<Step>, task: string)
    requires Initial(net)
    requires var w := Run(net, steps);
      w.conn.open && task in w.conn.tasks && w.hooks == {} && w.conn.queue == [] && w.conn.phase == Idle
    ensures var w := Run(net, steps);
      && (forall ev :: Notice(task, ev) in w.acked && ev.number > w.conn.tasks[task].since ==>
            ev in w.conn.tasks[task].sent)
      && (forall ev :: ev in w.conn.tasks[task].sent ==> ev in Ledger(w, task))
  {
    AlwaysInv(net, steps);
    var w := Run(net, steps);
    forall ev | Notice(task, ev) in w.acked && ev.number > w.conn.tasks[task].since
      ensures ev in w.conn.tasks[task].sent
    {
      assert Safe(w, Notice(task, ev));
    }
    forall ev | ev in w.conn.tasks[task].sent ensures ev in Ledger(w, task) {
      assert Committed(w, Notice(task, ev));
    }
  }

  function Remaining(c: Conn): nat {
    if c.phase.Replaying? && c.phase.after <= c.phase.size then c.phase.size - c.phase.after else 0
  }

  lemma BatchAdvances(w: Net)
    requires Grounded(w) && w.conn.open && w.conn.phase.Replaying?
    ensures var next := Apply(w, ReplayBatch);
      && Remaining(next.conn) < Remaining(w.conn)
      && w.conn.phase.task in w.conn.tasks && w.conn.phase.task in next.conn.tasks
      && |next.conn.tasks[w.conn.phase.task].sent| > |w.conn.tasks[w.conn.phase.task].sent|
  {
    hide LedgersOk, Gapless;
  }

  /** Since the ledger has no gap, every batch of a replay sends something: the replay ends. */
  lemma ReplayAdvances(net: Net, steps: seq<Step>)
    requires Initial(net) && Run(net, steps).conn.open && Run(net, steps).conn.phase.Replaying?
    ensures var w := Run(net, steps); var next := Apply(w, ReplayBatch);
      && Remaining(next.conn) < Remaining(w.conn)
      && w.conn.phase.task in w.conn.tasks && w.conn.phase.task in next.conn.tasks
      && |next.conn.tasks[w.conn.phase.task].sent| > |w.conn.tasks[w.conn.phase.task].sent|
  {
    AlwaysInv(net, steps);
    hide Run, Remaining, Apply;
    BatchAdvances(Run(net, steps));
  }
}
