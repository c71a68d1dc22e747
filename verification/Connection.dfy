/** The browser's socket: what it asks for when it opens, and how it handles an event. */
module Connection {
  import opened Options
  import opened EventStore
  import opened ClientSync

  /** An outgoing message; a missing task is the summary channel, a missing number means from the start. */
  datatype Request =
    | SubscribeTo(task: Option<string>, fromSeq: Option<nat>)
    | UnsubscribeFrom(name: string)

  datatype GapCall = GapCall(task: string, from: nat, to: nat)

  /** getLastSeq */
  ghost function LastKnown(store: Store, task: string): nat
    reads store, store.byTask.Values
  {
    LastSeq(store.Timeline(task))
  }

  function TaskOf(name: string): Option<string> {
    if name == "" then None else Some(name)
  }

  class WsConnection {
    const store: Store
    var subscriptions: set<string>
    var isOpen: bool
    var sent: seq<Request>
    var gaps: seq<GapCall>

    constructor (store: Store)
      ensures this.store == store && subscriptions == {} && !isOpen && sent == [] && gaps == []
    {
      this.store, subscriptions, isOpen, sent, gaps := store, {}, false, [], [];
    }

    method Subscribe(task: string, fromSeq: Option<nat>)
      modifies this`subscriptions, this`sent
      ensures subscriptions == old(subscriptions) + {task}
      ensures sent == old(sent) + if isOpen then [SubscribeTo(TaskOf(task), fromSeq)] else []
    {
      subscriptions := subscriptions + {task};
      if isOpen {
        sent := sent + [SubscribeTo(TaskOf(task), fromSeq)];
      }
    }

    method Unsubscribe(task: string)
      modifies this`subscriptions, this`sent
      ensures subscriptions == old(subscriptions) - {task}
      ensures sent == old(sent) + if isOpen then [UnsubscribeFrom(task)] else []
    {
      subscriptions := subscriptions - {task};
      if isOpen {
        sent := sent + [UnsubscribeFrom(task)];
      }
    }

    method LastSeqOf(task: string) returns (n: nat)
      requires store.Valid()
      ensures n == LastKnown(store, task)
    {
      n := if task in store.byTask then store.byTask[task].lastSeq else 0;
    }

    /** The request that resumes a subscription after the last event received. */
    ghost function Resume(task: string): Request
      reads store, store.byTask.Values
    {
      var last := if task == "" then 0 else LastKnown(store, task);
      SubscribeTo(TaskOf(task), if last > 0 then Some(last) else None)
    }

    /** onopen: every subscription is asked for exactly once, from its last number on. */
    method OnOpen()
      requires store.Valid()
      modifies this`isOpen, this`sent
      ensures isOpen && |sent| == |old(sent)| + |subscriptions| && old(sent) <= sent
      ensures forall task :: task in subscriptions ==> Resume(task) in sent[|old(sent)|..]
    {
      isOpen := true;
      var rest, requests := subscriptions, [];
      while rest != {}
        invariant unchanged(this`sent) && isOpen && rest <= subscriptions
        invariant |requests| + |rest| == |subscriptions|
        invariant forall task :: task in subscriptions && task !in rest ==> Resume(task) in requests
        decreases |rest|
      {
        var task :| task in rest;
        var last := 0;
        if task != "" {
          last := LastSeqOf(task);
        }
        requests := requests + [SubscribeTo(TaskOf(task), if last > 0 then Some(last) else None)];
        assert Resume(task) == requests[|requests| - 1];
        rest := rest - {task};
      }
      sent := sent + requests;
      assert sent[|old(sent)|..] == requests;
    }

    /**
     * handle, for a parsed event: the gap is looked for before the event is delivered, with the last
     * number known then, and only for tasks subscribed.
     */
    method Handle(task: string, ev: TaskEvent)
      requires store.Valid()
      modifies this`gaps, store
      ensures store.Valid() && store.Timeline(task) == Appended(old(store.Timeline(task)), [ev])
      ensures gaps == old(gaps) + (
        match DetectGap(old(LastKnown(store, task)), ev.number)
        case Some(gap) => if task in subscriptions then [GapCall(task, gap.0, gap.1)] else []
        case None => [])
    {
      if task in subscriptions {
        var last := LastSeqOf(task);
        var gap := DetectGap(last, ev.number);
        if gap.Some? {
          gaps := gaps + [GapCall(task, gap.value.0, gap.value.1)];
        }
      }
      store.Append(task, ev);
    }
  }
}
