/**
 * What becomes of a number that is missing at the browser: after the first event of an empty bucket, after
 * leaving the page and coming back, and after the socket reopens while the first load is under way.
 */
module ClientFate {
  import opened Options
  import opened EventStore
  import opened Paging
  import opened ClientSync

  // ---- the fate of a missing number -----------------------------------------------------------------------

  /** The last number that the pages of a fetch with this bound can reach. */
  function Reach(f: Fetch): nat
    requires f.through.Some? && f.after < f.through.value
  {
    f.after + (f.through.value - f.after + PAGE - 1) / PAGE * PAGE
  }

  /** The pages still to come of fetch `f` hold number `k`. */
  predicate Brings(f: Fetch, k: nat) {
    && f.after < k && (f.through.Some? && f.after < f.through.value ==> k <= Reach(f))
    && (f.page.None? || FullPage(f) || k <= f.page.value)
  }

  predicate Brought(fetches: seq<Fetch>, k: nat) {
    exists i :: 0 <= i < |fetches| && Brings(fetches[i], k)
  }

  /** Present, or in a page still to come. */
  predicate Sought(c: Client, k: nat) {
    Has(c.timeline, k) || Brought(c.fetches, k)
  }

  /** Asking for the query's answer starts no load: it has one that is current, or its load is under way. */
  predicate Loaded(q: Query) {
    q.busy || (q.data && !q.stale)
  }

  /** A step that starts no load and in which no fetch fails. */
  predicate Calm(step: Step) {
    !step.Open? && !step.Load? && !step.Fail? && (step.Enter? ==> step.kept)
  }

  predicate AllCalm(steps: seq<Step>) {
    forall k :: 0 <= k < |steps| ==> Calm(steps[k])
  }

  /** The step takes number `k` off the way without delivering it: the socket closes, or the server drops it. */
  predicate Loses(c: Client, step: Step, k: nat) {
    !step.Live? && k in c.pipe && k !in Apply(c, step).pipe
  }

  predicate Lost(c: Client, steps: seq<Step>, k: nat) {
    steps != [] && (
      var front := steps[..|steps| - 1];
      Lost(c, front, k) || Loses(Run(c, front), steps[|steps| - 1], k))
  }

  lemma BroughtBySwap(a: seq<Fetch>, i: nat, f: Fetch, k: nat)
    requires i < |a|
    ensures Brought(a, k) <==> Brings(a[i], k) || exists j :: 0 <= j < |a| && j != i && Brings(a[j], k)
    ensures Brought(a[i := f], k) <==> Brings(f, k) || exists j :: 0 <= j < |a| && j != i && Brings(a[j], k)
  {
    var b := a[i := f];
    assert forall j :: 0 <= j < |a| && j != i ==> b[j] == a[j];
    assert b[i] == f;
  }

  lemma BroughtByRest(a: seq<Fetch>, i: nat, k: nat)
    requires i < |a|
    ensures Brought(Without(a, i), k) <==> exists j :: 0 <= j < |a| && j != i && Brings(a[j], k)
  {
    var b := Without(a, i);
    if j :| 0 <= j < |a| && j != i && Brings(a[j], k) {
      assert Brings(b[if j < i then j else j - 1], k);
    }
    if Brought(b, k) {
      var j :| 0 <= j < |b| && Brings(b[j], k);
      assert b[j] == a[if j < i then j else j + 1];
    }
  }

  lemma CalmAnswer(c: Client, i: nat, k: nat)
    requires Inv(c) && 1 <= k <= LastSeq(c.timeline)
    ensures Sought(Apply(c, Answer(i)), k) <==> Sought(c, k)
  {
    LastOfLedger(c.ledger, c.timeline);
    hide TimelineOk, FetchesOk, SocketOk, Explained, Has, LastSeq, Brought, Reach;
    if i < |c.fetches| && c.fetches[i].page.None? {
      BroughtBySwap(c.fetches, i, c.fetches[i].(page := Some(|c.ledger|)), k);
    }
  }

  lemma CalmReceive(c: Client, i: nat, k: nat)
    requires Inv(c) && CanReceive(c, i) && 1 <= k
    ensures Sought(Received(c, i), k) <==> Sought(c, k)
  {
    var f, d := c.fetches[i], Received(c, i);
    var hi := Upto(f.page.value, f.after, PAGE);
    assert FetchOk(f, LastSeq(c.timeline), |c.ledger|);
    MergeSlice(c.ledger, c.timeline, f.after, hi);
    assert Has(d.timeline, k) <==> Has(c.timeline, k) || f.after < k <= hi;
    hide TimelineOk, FetchesOk, SocketOk, Explained, Has, LastSeq, Appended, Brought, Awaited;
    var next := Fetch(hi, f.through, None);
    BroughtBySwap(c.fetches, i, next, k);
    BroughtByRest(c.fetches, i, k);
    NextPage(f, k);
  }

  /** A page brings its own numbers, and the next fetch the rest. */
  lemma NextPage(f: Fetch, k: nat)
    requires f.page.Some? && f.after <= f.page.value && (f.through.Some? ==> f.after < f.through.value)
    ensures var hi := Upto(f.page.value, f.after, PAGE);
      Brings(f, k) <==> f.after < k <= hi || (hi == f.after + PAGE && Below(hi, f.through) && Brings(Fetch(hi, f.through, None), k))
  {
  }

  lemma CalmArrival(c: Client, n: nat, k: nat)
    requires Inv(c) && CanArrive(c, n) && 1 <= k <= LastSeq(c.timeline)
    ensures Sought(Arrived(c, n), k) <==> Sought(c, k) || k == n
    ensures Arrived(c, n).pipe == c.pipe - {n}
  {
    var d := Arrived(c, n);
    MergeSlice(c.ledger, c.timeline, n - 1, n);
    assert Has(d.timeline, k) <==> Has(c.timeline, k) || k == n;
    assert Brought(d.fetches, k) <==> Brought(c.fetches, k) by {
      GapBringsNothingOld(c, n, k);
    }
    hide TimelineOk, FetchesOk, SocketOk, Explained, Has, Appended, Brought, LastSeq;
  }

  lemma GapBringsNothingOld(c: Client, n: nat, k: nat)
    requires 1 <= n <= |c.ledger| && 1 <= k <= LastSeq(c.timeline)
    ensures Brought(Arrived(c, n).fetches, k) <==> Brought(c.fetches, k)
  {
    var last := LastSeq(c.timeline);
    hide LastSeq, Appended;
    var gap := if c.here then GapFetch(last, n) else [];
    forall i | 0 <= i < |gap| ensures !Brings(gap[i], k) {
    }
    BroughtByMore(c.fetches, gap, k);
  }

  lemma BroughtByMore(a: seq<Fetch>, b: seq<Fetch>, k: nat)
    requires forall i :: 0 <= i < |b| ==> !Brings(b[i], k)
    ensures Brought(a + b, k) <==> Brought(a, k)
  {
    assert forall i :: 0 <= i < |a| ==> (a + b)[i] == a[i];
    assert forall i :: |a| <= i < |a + b| ==> (a + b)[i] == b[i - |a|];
    if i :| 0 <= i < |a| && Brings(a[i], k) {
      assert Brings((a + b)[i], k);
    }
  }

  /** What keeps a calm step calm for number `k`. */
  ghost predicate Settled(c: Client, k: nat) {
    Inv(c) && c.entered && Loaded(c.query) && 1 <= k <= LastSeq(c.timeline)
  }

  /** In a calm step a number below the last one comes only from the socket, and is then no longer on its way. */
  ghost predicate Moves(c: Client, d: Client, step: Step, k: nat) {
    && (k in d.pipe ==> k in c.pipe)
    && (Sought(d, k) <==> Sought(c, k) || (k in c.pipe && k !in d.pipe && !Loses(c, step, k)))
  }

  lemma CalmStep(c: Client, step: Step, k: nat)
    requires Settled(c, k) && Calm(step)
    ensures Settled(Apply(c, step), k) && Moves(c, Apply(c, step), step, k)
  {
    StepKeeps(c, step);
    LastGrows(c, step);
    StillLoaded(c, step);
    hide Inv, Has, LastSeq, Brought, Arrived, Received, Sought, Apply, Loses;
    match step {
      case Live(n) => CalmLive(c, n, k);
      case Answer(i) => CalmPage(c, step, k);
      case Receive(i) => CalmPage(c, step, k);
      case _ => CalmOther(c, step, k);
    }
  }

  lemma CalmLive(c: Client, n: nat, k: nat)
    requires Inv(c) && 1 <= k <= LastSeq(c.timeline)
    ensures Moves(c, Apply(c, Live(n)), Live(n), k)
  {
    hide Inv, LastSeq;
    if CanArrive(c, n) {
      CalmArrival(c, n, k);
      hide Arrived, Has, Brought;
    }
  }

  lemma CalmPage(c: Client, step: Step, k: nat)
    requires Inv(c) && 1 <= k <= LastSeq(c.timeline) && (step.Answer? || step.Receive?)
    ensures Moves(c, Apply(c, step), step, k)
  {
    if step.Answer? {
      CalmAnswer(c, step.i, k);
    } else if CanReceive(c, step.i) {
      CalmReceive(c, step.i, k);
    }
    hide Inv, LastSeq, Sought, Awaited, Without, Appended, CanReceive;
  }

  lemma CalmOther(c: Client, step: Step, k: nat)
    requires Settled(c, k) && Calm(step) && !step.Live? && !step.Answer? && !step.Receive?
    ensures Moves(c, Apply(c, step), step, k)
  {
    assert c.entered && Loaded(c.query) && k <= LastSeq(c.timeline);
    LastOfLedger(c.ledger, c.timeline);
    OtherFetchesNothing(c, step);
    OtherBringsNothing(c, step, k);
    hide Inv, Has, LastSeq, Brought, Apply;
  }

  lemma OtherFetchesNothing(c: Client, step: Step)
    requires c.entered && Loaded(c.query) && Calm(step) && !step.Live? && !step.Answer? && !step.Receive?
    ensures var d := Apply(c, step); d.timeline == c.timeline && d.fetches == c.fetches
  {
    hide Has, LastSeq, Refused, Opened, Failed, Received, Arrived;
    if step.Refuse? && c.open {
      RefusedOnlyLoses(c, step.lost, step.last);
    }
  }

  lemma RefusedOnlyLoses(c: Client, lost: set<nat>, last: bool)
    ensures var d := Refused(c, lost, last); d.timeline == c.timeline && d.fetches == c.fetches && d.pipe <= c.pipe
  {
  }

  lemma OtherBringsNothing(c: Client, step: Step, k: nat)
    requires Calm(step) && !step.Live? && !step.Answer? && !step.Receive?
    requires k <= LastSeq(c.timeline) <= |c.ledger|
    ensures k in Apply(c, step).pipe ==> k in c.pipe
  {
    hide Has, LastSeq, Refused, Opened, Failed, Received, Arrived, Continues;
    if step.Refuse? {
      RefusedOnlyLoses(c, step.lost, step.last);
    }
  }

  lemma StillLoaded(c: Client, step: Step)
    requires c.entered && Loaded(c.query) && Calm(step)
    ensures Apply(c, step).entered && Loaded(Apply(c, step).query)
  {
    hide Appended, LastSeq, Has, Awaited, Continues, Without, Upto;
  }

  lemma LastGrows(c: Client, step: Step)
    requires Inv(c)
    ensures LastSeq(Apply(c, step).timeline) >= LastSeq(c.timeline)
  {
    hide Inv, LastSeq, Arrived, Received, Has;
    if step.Live? && CanArrive(c, step.n) {
      LiveGrows(c, step.n);
    } else if step.Receive? && CanReceive(c, step.i) {
      PageGrows(c, step.i);
    } else {
      OnlyArrivalsMerge(c, step);
    }
  }

  lemma LiveGrows(c: Client, n: nat)
    requires Inv(c) && CanArrive(c, n)
    ensures LastSeq(Arrived(c, n).timeline) >= LastSeq(c.timeline)
  {
    MergeSlice(c.ledger, c.timeline, n - 1, n);
    hide Inv, Appended, LastSeq;
  }

  lemma PageGrows(c: Client, i: nat)
    requires Inv(c) && CanReceive(c, i)
    ensures LastSeq(Received(c, i).timeline) >= LastSeq(c.timeline)
  {
    MergeSlice(c.ledger, c.timeline, c.fetches[i].after, Upto(c.fetches[i].page.value, c.fetches[i].after, PAGE));
    hide Inv, Appended, LastSeq, Awaited, Without;
  }

  lemma OnlyArrivalsMerge(c: Client, step: Step)
    requires !(step.Live? && CanArrive(c, step.n)) && !(step.Receive? && CanReceive(c, step.i))
    ensures Apply(c, step).timeline == c.timeline
  {
    hide LastSeq, Has, Awaited, Without, Rest, Continues, Range, Joins, Unowed;
  }

  lemma {:induction false} CalmRun(c: Client, steps: seq<Step>, k: nat)
    requires Settled(c, k) && AllCalm(steps)
    ensures var e := Run(c, steps);
      && Settled(e, k)
      && (Sought(e, k) || k in e.pipe <==> Sought(c, k) || (k in c.pipe && !Lost(c, steps, k)))
      && (k in e.pipe ==> k in c.pipe && !Lost(c, steps, k) && (Sought(e, k) ==> Sought(c, k)))
      && (Sought(c, k) ==> Sought(e, k))
  {
    if steps != [] {
      var front, step := steps[..|steps| - 1], steps[|steps| - 1];
      CalmRun(c, front, k);
      hide Settled, Sought, Apply, Calm, Loses;
      assert Calm(step);
      CalmStep(Run(c, front), step, k);
    }
  }

  /**
   * What becomes of a number below the last one, exactly: along any run without a new load or a failure, when
   * all fetches have ended, it is there or still on its way if and only if it was there, in a page still to
   * come, or on its way and not lost on the way.
   */
  lemma FateOfMissing(c: Client, steps: seq<Step>, k: nat)
    requires Settled(c, k) && AllCalm(steps) && Run(c, steps).fetches == []
    ensures Has(Run(c, steps).timeline, k) || k in Run(c, steps).pipe <==>
      Has(c.timeline, k) || Brought(c.fetches, k) || (k in c.pipe && !Lost(c, steps, k))
  {
    hide Settled;
    CalmRun(c, steps, k);
    assert !Brought(Run(c, steps).fetches, k);
  }

  // ---- the first event of an empty bucket ------------------------------------------------------------------

  /** A load that will still bring everything up to `k`: unanswered, continuing, or answered late enough. */
  predicate StillBrings(f: Fetch, k: nat) {
    f.page.None? || PAGE <= f.page.value || k <= f.page.value
  }

  /** Some load will. */
  predicate LoadBrings(c: Client, k: nat) {
    exists i :: 0 <= i < |c.fetches| && StillBrings(c.fetches[i], k)
  }

  lemma LoadsOfEmpty(c: Client, k: nat)
    requires Inv(c) && c.timeline == [] && 1 <= k
    ensures Brought(c.fetches, k) <==> LoadBrings(c, k)
  {
    forall i | 0 <= i < |c.fetches| ensures Brings(c.fetches[i], k) <==> StillBrings(c.fetches[i], k) {
      assert FetchOk(c.fetches[i], 0, |c.ledger|);
    }
    hide Inv, StillBrings, Brings;
  }

  /** The loads that were running when the first event arrived are all there is: no gap fetch follows it. */
  lemma FirstArrival(c: Client, n: nat, k: nat)
    requires Inv(c) && c.timeline == [] && CanArrive(c, n) && Loaded(c.query) && 1 <= k < n
    ensures Settled(Arrived(c, n), k)
    ensures Sought(Arrived(c, n), k) <==> LoadBrings(c, k)
    ensures k in Arrived(c, n).pipe <==> k in c.pipe
  {
    var d := Arrived(c, n);
    LiveKeeps(c, n);
    EmptyGains(c, n, k);
    LoadsOfEmpty(c, k);
    hide Inv, Appended, LoadBrings, Has, LastSeq, Brought, Arrived;
  }

  lemma EmptyGains(c: Client, n: nat, k: nat)
    requires Inv(c) && c.timeline == [] && CanArrive(c, n) && 1 <= k < n
    ensures var d := Arrived(c, n);
      && d.fetches == c.fetches && LastSeq(d.timeline) == n && !Has(d.timeline, k)
      && d.entered && d.query == c.query && d.pipe == c.pipe - {n}
  {
    MergeSlice(c.ledger, c.timeline, n - 1, n);
    hide Inv, Appended, Has;
    assert c.fetches + [] == c.fetches;
  }

  /**
   * The first event of an empty bucket, number `n`, starts no gap fetch. Along any run without a new load or a
   * failure, when all fetches have ended, the numbers it skipped are all there or on their way if and only if
   * for each of them some load was unanswered, continuing, or answered late enough to hold it when `n` arrived,
   * or it was then on its way and not lost.
   */
  lemma FirstEventIsCoveredIff(c: Client, n: nat, steps: seq<Step>)
    requires Inv(c) && c.timeline == [] && CanArrive(c, n) && Loaded(c.query)
    requires AllCalm(steps) && Run(Arrived(c, n), steps).fetches == []
    ensures var e := Run(Arrived(c, n), steps);
      (forall k: nat :: 1 <= k < n ==> Has(e.timeline, k) || k in e.pipe)
      <==> forall k: nat :: 1 <= k < n ==> LoadBrings(c, k) || (k in c.pipe && !Lost(Arrived(c, n), steps, k))
  {
    var d := Arrived(c, n);
    var e := Run(d, steps);
    hide Inv, LoadBrings, Has, Run, Arrived, Lost, CanArrive;
    forall k: nat | 1 <= k < n
      ensures Has(e.timeline, k) || k in e.pipe <==>
        LoadBrings(c, k) || (k in c.pipe && !Lost(d, steps, k))
    {
      FirstFate(c, n, steps, k);
    }
  }

  lemma FirstFate(c: Client, n: nat, steps: seq<Step>, k: nat)
    requires Inv(c) && c.timeline == [] && CanArrive(c, n) && Loaded(c.query) && 1 <= k < n
    requires AllCalm(steps) && Run(Arrived(c, n), steps).fetches == []
    ensures Has(Run(Arrived(c, n), steps).timeline, k) || k in Run(Arrived(c, n), steps).pipe <==>
      LoadBrings(c, k) || (k in c.pipe && !Lost(Arrived(c, n), steps, k))
  {
    var d := Arrived(c, n);
    FirstArrival(c, n, k);
    hide Settled, LoadBrings, Run, Arrived, Lost, Inv, Brought, Has;
    FateOfMissing(d, steps, k);
  }

  /** If nothing that was skipped was on its way, one load must have been late enough for all of it. */
  lemma FirstEventNeedsALoad(c: Client, n: nat, steps: seq<Step>)
    requires Inv(c) && c.timeline == [] && CanArrive(c, n) && Loaded(c.query)
    requires AllCalm(steps) && Run(Arrived(c, n), steps).fetches == []
    requires forall k: nat :: 1 <= k < n ==> k !in c.pipe
    ensures var e := Run(Arrived(c, n), steps);
      (forall k: nat :: 1 <= k < n ==> Has(e.timeline, k) || k in e.pipe)
      <==> n == 1 || LoadBrings(c, n - 1)
  {
    hide Inv, Run, Arrived, Has, Lost;
    FirstEventIsCoveredIff(c, n, steps);
    if n > 1 {
      assert n - 1 !in c.pipe;
      if i :| 0 <= i < |c.fetches| && StillBrings(c.fetches[i], n - 1) {
        forall k: nat | 1 <= k < n ensures StillBrings(c.fetches[i], k) {
        }
      }
    }
  }

  /** After the first event, while the page is mounted, whatever an arrival skips is in a gap fetch's range. */
  lemma LaterEventIsCovered(c: Client, n: nat, k: nat)
    requires Inv(c) && c.timeline != [] && c.here && CanArrive(c, n) && LastSeq(c.timeline) < k < n
    ensures Covered(Arrived(c, n).fetches, k)
  {
    LastOfLedger(c.ledger, c.timeline);
    GapCovers(c.fetches, LastSeq(c.timeline), n, k);
  }

  // ---- staying on the page ------------------------------------------------------------------------------------

  predicate AllStaying(steps: seq<Step>) {
    forall k :: 0 <= k < |steps| ==> Calm(steps[k]) && !steps[k].Leave?
  }

  /** With a bucket that is not empty, a mounted page skips nothing unseen. */
  lemma StayingStep(c: Client, step: Step)
    requires Inv(c) && c.here && c.timeline != [] && Calm(step) && !step.Leave?
    ensures var d := Apply(c, step); d.here && d.timeline != [] && d.skipped == c.skipped
  {
    LastOfLedger(c.ledger, c.timeline);
    LastGrows(c, step);
    assert LastSeq(c.timeline) > 0;
    assert Apply(c, step).timeline != [];
    hide Inv, Has, LastSeq, Appended, Without, Arrived, Awaited;
    if step.Live? && CanArrive(c, step.n) {
      StayingArrival(c, step.n);
    }
  }

  lemma StayingArrival(c: Client, n: nat)
    requires 1 <= n <= |c.ledger| && c.here && LastSeq(c.timeline) > 0
    ensures var d := Arrived(c, n); d.here && d.skipped == c.skipped
  {
    hide LastSeq, Appended;
    if n <= LastSeq(c.timeline) + 1 {
      assert Range(LastSeq(c.timeline), n - 1) == {};
      assert c.skipped + {} == c.skipped;
    }
  }

  lemma {:induction false} StayingRun(c: Client, steps: seq<Step>)
    requires Inv(c) && c.here && c.timeline != [] && AllStaying(steps)
    ensures var d := Run(c, steps); Inv(d) && d.here && d.timeline != [] && d.skipped == c.skipped
  {
    if steps != [] {
      var front, step := steps[..|steps| - 1], steps[|steps| - 1];
      StayingRun(c, front);
      hide Inv, Apply, Calm;
      assert Calm(step) && !step.Leave?;
      StayingStep(Run(c, front), step);
      StepKeeps(Run(c, front), step);
    }
  }

  /**
   * A mounted page with events, along any run on which it stays, no load starts and no fetch fails: when all
   * fetches have ended and nothing is on its way, the timeline is the ledger up to lastSeq if and only if every
   * number skipped since the last load was there at the start, in a page still to come, or on its way and not
   * lost on the way.
   */
  lemma StayIsSafeIff(d: Client, steps: seq<Step>)
    requires Inv(d) && d.here && Loaded(d.query) && d.timeline != [] && AllStaying(steps)
    requires var e := Run(d, steps); e.fetches == [] && forall n: nat :: n in e.pipe ==> Has(e.timeline, n)
    ensures var e := Run(d, steps);
      && LastSeq(e.timeline) <= |e.ledger|
      && (e.timeline == e.ledger[..LastSeq(e.timeline)]
          <==> forall n: nat :: n in d.skipped ==>
            Has(d.timeline, n) || Brought(d.fetches, n) || (n in d.pipe && !Lost(d, steps, n)))
  {
    var e := Run(d, steps);
    StayingRun(d, steps);
    CompleteIff(e);
    assert SkippedOk(d) && d.entered;
    hide Has, LastSeq, Brought, Run, Lost, Calm, TimelineOk, FetchesOk, Explained, SocketOk;
    assert AllCalm(steps);
    forall n: nat | n in d.skipped
      ensures Has(e.timeline, n) <==> Has(d.timeline, n) || Brought(d.fetches, n) || (n in d.pipe && !Lost(d, steps, n))
    {
      FateOfMissing(d, steps, n);
    }
  }

  /**
   * Coming back to a page whose query has a current answer, or is still loading, subscribes from lastSeq and
   * loads nothing. Along any stay on the page without a load or a failure, when all fetches have ended and
   * nothing is on its way, the timeline is the ledger up to lastSeq if and only if every number skipped since
   * the last load had come before the return, was in a page still to come, or was on its way and not lost: in
   * particular not dropped by a server that had yet to handle the unsubscribe.
   */
  lemma ReturnIsSafeIff(c: Client, steps: seq<Step>)
    requires Inv(c) && !c.here && Loaded(c.query) && c.timeline != [] && AllStaying(steps)
    requires var e := Run(Entered(c, true), steps); e.fetches == [] && forall n: nat :: n in e.pipe ==> Has(e.timeline, n)
    ensures var e := Run(Entered(c, true), steps);
      && LastSeq(e.timeline) <= |e.ledger|
      && (e.timeline == e.ledger[..LastSeq(e.timeline)]
          <==> forall n: nat :: n in c.skipped ==>
            Has(c.timeline, n) || Brought(c.fetches, n) || (n in c.pipe && !Lost(Entered(c, true), steps, n)))
  {
    var d := Entered(c, true);
    EnterKeeps(c, true);
    assert SkippedOk(c);
    assert forall n: nat :: n in c.skipped ==> (n in d.pipe <==> n in c.pipe);
    assert d.skipped == c.skipped && d.timeline == c.timeline && d.fetches == c.fetches && d.query == c.query && d.here;
    hide Inv, Has, LastSeq, Brought, Run, Lost, AllStaying, Entered;
    StayIsSafeIff(d, steps);
  }

  /**
   * A socket that reopens while the first load of the mounted page is under way starts no load. Along any such
   * stay, the timeline ends as the ledger up to lastSeq if and only if every number skipped since that load was
   * issued had come before the socket reopened, was in a page still to come, or was in a hook that ran late and
   * was not lost afterwards.
   */
  lemma ReopenIsSafeIff(c: Client, late: set<nat>, steps: seq<Step>)
    requires Inv(c) && !c.open && c.here && Joins(c) && c.timeline != [] && AllStaying(steps)
    requires var e := Run(Opened(c, late), steps); e.fetches == [] && forall n: nat :: n in e.pipe ==> Has(e.timeline, n)
    ensures var e := Run(Opened(c, late), steps);
      && LastSeq(e.timeline) <= |e.ledger|
      && (e.timeline == e.ledger[..LastSeq(e.timeline)]
          <==> forall n: nat :: n in c.skipped ==>
            Has(c.timeline, n) || Brought(c.fetches, n) || (n in late && !Lost(Opened(c, late), steps, n)))
  {
    var d := Opened(c, late);
    OpenKeeps(c, late);
    LastOfLedger(c.ledger, c.timeline);
    assert SkippedOk(c);
    assert forall n: nat :: n in c.skipped ==> (n in d.pipe <==> n in late);
    assert d.skipped == c.skipped && d.timeline == c.timeline && d.fetches == c.fetches && d.query.busy && d.here;
    hide Inv, Has, LastSeq, Brought, Run, Lost, AllStaying, Opened;
    StayIsSafeIff(d, steps);
  }

  // ---- three runs that end with a hole ---------------------------------------------------------------------------

  function Example(n: nat): TaskEvent {
    TaskEvent("e", n, None, None, Other("agent.message"), None, None)
  }

  lemma RunOne(c: Client, steps: seq<Step>, step: Step)
    ensures Run(c, steps + [step]) == Apply(Run(c, steps), step)
  {
    assert (steps + [step])[..|steps|] == steps;
  }

  /** The steps `steps` lead from state 0 to state |steps| of the list. */
  ghost predicate Leads(states: seq<Client>, steps: seq<Step>) {
    |states| == |steps| + 1 && forall k :: 0 <= k < |steps| ==> Apply(states[k], steps[k]) == states[k + 1]
  }

  lemma {:induction false} LeadsRuns(states: seq<Client>, steps: seq<Step>)
    requires Leads(states, steps)
    ensures Run(states[0], steps) == states[|steps|]
  {
    hide Apply;
    if steps != [] {
      var front := steps[..|steps| - 1];
      LeadsRuns(states[..|steps|], front);
      assert steps == front + [steps[|steps| - 1]];
      RunOne(states[0], front, steps[|steps| - 1]);
    }
  }

  /** The open socket of a page that was never mounted, and of one that is. */
  function Away(ledger: seq<TaskEvent>): Client {
    Client(ledger, [], [], NEW, true, false, false, 0, {}, false, false, {})
  }

  function Mounted(ledger: seq<TaskEvent>, timeline: seq<TaskEvent>, fetches: seq<Fetch>, pipe: set<nat>): Client {
    Client(ledger, timeline, fetches, if fetches == [] then Query(true, false, false) else Query(false, false, true),
           true, true, true, 0, pipe, false, false, {})
  }

  function FirstStates(): seq<Client> {
    var one, both, answered := [Example(1)], [Example(1), Example(2)], [Fetch(0, None, Some(0))];
    [Away([]), Mounted([], [], [LOAD], {}), Mounted([], [], answered, {}),
     Mounted(one, [], answered, {}).(lossy := true), Mounted(both, [], answered, {2}).(lossy := true),
     Mounted(both, [Example(2)], answered, {}).(lossy := true, skipped := {1}),
     Mounted(both, [Example(2)], [], {}).(lossy := true, skipped := {1})]
  }

  function FirstSteps(): seq<Step> {
    [Enter(false), Answer(0), Commit([Example(1)], false), Commit([Example(2)], true), Live(2), Receive(0)]
  }

  lemma FirstEnter()
    ensures Apply(Away([]), Enter(false)) == Mounted([], [], [LOAD], {})
    ensures Apply(Mounted([], [], [LOAD], {}), Answer(0)) == Mounted([], [], [Fetch(0, None, Some(0))], {})
  {
    assert {} + Range(0, 0) == {};
    assert [] + [LOAD] == [LOAD];
  }

  lemma FirstCommits()
    ensures Apply(FirstStates()[2], FirstSteps()[2]) == FirstStates()[3]
    ensures Apply(FirstStates()[3], FirstSteps()[3]) == FirstStates()[4]
  {
    assert [] + [Example(1)] == [Example(1)];
    assert [Example(1)] + [Example(2)] == [Example(1), Example(2)];
    assert Range(1, 2) == {2} && {} + {2} == {2};
  }

  lemma FirstLive()
    ensures Apply(FirstStates()[4], FirstSteps()[4]) == FirstStates()[5]
  {
    var c := FirstStates()[4];
    assert c.ledger[1..2] == [Example(2)] && c.fetches + [] == c.fetches;
    AppendedStep([], [Example(2)], 0);
    assert Range(0, 1) == {1} && {} + {1} == {1};
  }

  lemma FirstReceive()
    ensures Apply(FirstStates()[5], FirstSteps()[5]) == FirstStates()[6]
  {
    var c := FirstStates()[5];
    assert c.ledger[0..0] == [];
    AppendedNone([Example(2)]);
    hide Appended, Inserted;
  }

  /**
   * The load answers "no events yet"; two events are committed, and only the second is published. It is
   * the first to arrive, lastSeq is 0, so no gap is detected: nothing will ever bring event 1, although
   * every fetch has succeeded, the socket is open and the page never left.
   */
  lemma FirstEventMayHideAGap()
    ensures var w := Run(Away([]),
        [Enter(false), Answer(0), Commit([Example(1)], false), Commit([Example(2)], true), Live(2), Receive(0)]);
      && w.open && w.here && w.fetches == [] && w.pipe == {}
      && w.timeline == [Example(2)] && w.ledger == [Example(1), Example(2)]
  {
    FirstEnter();
    FirstCommits();
    FirstLive();
    FirstReceive();
    assert Leads(FirstStates(), FirstSteps()) by {
      hide Apply;
    }
    LeadsRuns(FirstStates(), FirstSteps());
  }

  function ReturnStates(): seq<Client> {
    var one, all, first := [Example(1)], [Example(1), Example(2), Example(3)], [Example(1)];
    var away := Mounted(all, first, [], {2, 3}).(here := false);
    var late := away.(timeline := [Example(1), Example(3)], skipped := {2});
    [Away([]), Mounted([], [], [LOAD], {}), Mounted([], [], [Fetch(0, None, Some(0))], {}), Mounted([], [], [], {}),
     Mounted(one, [], [], {1}), Mounted(one, first, [], {}), Mounted(all, first, [], {2, 3}), away,
     late.(pipe := {2}), late.(pipe := {}), late.(pipe := {}, here := true, from := 3)]
  }

  function ReturnSteps(): seq<Step> {
    [Enter(false), Answer(0), Receive(0), Commit([Example(1)], true), Live(1),
     Commit([Example(2), Example(3)], true), Leave, Live(3), Drop(2), Enter(true)]
  }

  lemma ReturnLoads()
    ensures Apply(ReturnStates()[2], ReturnSteps()[2]) == ReturnStates()[3]
    ensures Apply(ReturnStates()[3], ReturnSteps()[3]) == ReturnStates()[4]
  {
    var c := ReturnStates()[2];
    assert c.ledger[0..0] == [];
    AppendedNone([]);
    assert [] + [Example(1)] == [Example(1)] && Range(0, 1) == {1} && {} + {1} == {1};
    hide Appended, Inserted;
  }

  lemma ReturnFirst()
    ensures Apply(ReturnStates()[4], ReturnSteps()[4]) == ReturnStates()[5]
    ensures Apply(ReturnStates()[5], ReturnSteps()[5]) == ReturnStates()[6]
  {
    var c := ReturnStates()[4];
    assert c.ledger[0..1] == [Example(1)] && c.fetches + [] == c.fetches;
    AppendedStep([], [Example(1)], 0);
    assert Range(0, 0) == {} && c.skipped + {} == c.skipped && c.pipe - {1} == {};
    assert [Example(1)] + [Example(2), Example(3)] == [Example(1), Example(2), Example(3)];
    assert Range(1, 3) == {2, 3} && {} + {2, 3} == {2, 3};
  }

  lemma ReturnAway()
    ensures Apply(ReturnStates()[7], ReturnSteps()[7]) == ReturnStates()[8]
  {
    var c := ReturnStates()[7];
    assert c.ledger[2..3] == [Example(3)] && c.fetches + [] == c.fetches;
    assert Inserted([Example(1)], Example(3)) == [Example(1), Example(3)];
    AppendedStep([Example(1)], [Example(3)], 0);
    assert Range(1, 2) == {2} && {} + {2} == {2} && c.pipe - {3} == {2};
  }

  lemma ReturnBack()
    ensures Apply(ReturnStates()[8], ReturnSteps()[8]) == ReturnStates()[9]
    ensures Apply(ReturnStates()[9], ReturnSteps()[9]) == ReturnStates()[10]
  {
    assert {2} - {2} == {} && Range(3, 3) == {};
    hide Appended, Inserted;
  }

  /**
   * Every commit is published and the socket stays open. Event 3 is published before event 2; the user leaves,
   * event 3 arrives without gap detection, and the server handles the unsubscribe before it takes event 2
   * from the queue. The user comes back, subscribes from 3, and the cached query loads nothing: event 2 never
   * comes.
   */
  lemma ReturnMayHideAGap()
    ensures AllPublished(ReturnSteps())
    ensures var w := Run(Away([]), ReturnSteps());
      && w.open && w.here && w.fetches == [] && w.pipe == {}
      && w.timeline == [Example(1), Example(3)] && w.ledger == [Example(1), Example(2), Example(3)]
  {
    FirstEnter();
    ReturnLoads();
    ReturnFirst();
    ReturnAway();
    ReturnBack();
    assert Apply(ReturnStates()[6], ReturnSteps()[6]) == ReturnStates()[7];
    assert Leads(ReturnStates(), ReturnSteps()) by {
      hide Apply;
    }
    LeadsRuns(ReturnStates(), ReturnSteps());
  }

  function ReopenStates(): seq<Client> {
    var both, answered := [Example(1), Example(2)], [Fetch(0, None, Some(0))];
    var second := Mounted(both, [Example(2)], answered, {1}).(skipped := {1});
    var again := second.(from := 2, pipe := {});
    [Away([]), Mounted([], [], [LOAD], {}), Mounted([], [], answered, {}), Mounted(both, [], answered, {1, 2}),
     second, second.(open := false, pipe := {}), again.(query := Query(false, true, true)),
     Mounted(both, [Example(2)], [], {}).(from := 2, skipped := {1})]
  }

  function ReopenSteps(): seq<Step> {
    [Enter(false), Answer(0), Commit([Example(1), Example(2)], true), Live(2), Close, Open({}), Receive(0)]
  }

  lemma ReopenArrives()
    ensures Apply(ReopenStates()[2], ReopenSteps()[2]) == ReopenStates()[3]
    ensures Apply(ReopenStates()[3], ReopenSteps()[3]) == ReopenStates()[4]
  {
    var c := ReopenStates()[3];
    assert [] + [Example(1), Example(2)] == [Example(1), Example(2)];
    assert Range(0, 2) == {1, 2} && {} + {1, 2} == {1, 2} && {1, 2} - {2} == {1};
    assert c.ledger[1..2] == [Example(2)] && c.fetches + [] == c.fetches;
    AppendedStep([], [Example(2)], 0);
    assert Range(0, 1) == {1} && {} + {1} == {1};
  }

  lemma ReopenJoins()
    ensures Apply(ReopenStates()[4], ReopenSteps()[4]) == ReopenStates()[5]
    ensures Apply(ReopenStates()[5], ReopenSteps()[5]) == ReopenStates()[6]
    ensures Apply(ReopenStates()[6], ReopenSteps()[6]) == ReopenStates()[7]
  {
    var c := ReopenStates()[6];
    assert Range(2, 2) + {} * Range(0, 2) == {};
    assert c.ledger[0..0] == [];
    AppendedNone([Example(2)]);
    assert Awaited(c, 0);
    hide Appended, Inserted;
  }

  /**
   * The first load is answered before events 1 and 2 are committed and published, and delayed. Event 2 is the
   * first to arrive; the socket closes and reopens from 2. The query's first load is still under way, so the
   * reload joins it, and it brings nothing: event 1 never comes.
   */
  lemma ReopenMayHideAGap()
    ensures AllPublished(ReopenSteps())
    ensures var w := Run(Away([]), ReopenSteps());
      && w.open && w.here && w.fetches == [] && w.pipe == {}
      && w.timeline == [Example(2)] && w.ledger == [Example(1), Example(2)]
  {
    FirstEnter();
    ReopenArrives();
    ReopenJoins();
    assert Leads(ReopenStates(), ReopenSteps()) by {
      hide Apply;
    }
    LeadsRuns(ReopenStates(), ReopenSteps());
  }
}
