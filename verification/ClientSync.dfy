/**
 * One task at the browser: live events, gap fetches and the initial load merge into the timeline, while
 * the ledger keeps growing, answers are under way, and the page may be left and entered again.
 */
module ClientSync {
  import opened Options
  import opened EventStore
  import opened Paging

  /** `detectGap` */
  function DetectGap(lastSeq: nat, incoming: nat): Option<(nat, nat)> {
    if lastSeq > 0 && incoming > lastSeq + 1 then Some((lastSeq, incoming)) else None
  }

  /**
   * A running `syncTaskEvents`: its cursor, its bound (None is Infinity), and, when the server has
   * answered the current page, how many events the ledger had then.
   */
  datatype Fetch = Fetch(after: nat, through: Option<nat>, page: Option<nat>)

  /**
   * The events query: whether it has an answer, whether that was invalidated, and whether its latest load is
   * still under way. A query that nobody watches is forgotten once it is idle.
   */
  datatype Query = Query(data: bool, stale: bool, busy: bool)

  /**
   * `open` is the shared socket, `here` that the task's page is mounted (its subscription is in the
   * connection's set), and `entered` that it ever was. `pipe` holds the numbers still to come on the open
   * socket, of which those above `from`, the number last subscribed from, are owed, unless the server
   * `refused` that subscribe; `lossy` says that one was committed without acknowledgement, so that nothing
   * published it. `skipped` are the numbers that no fetch looks for any more since the last load was issued:
   * jumped over by an arrival that no gap fetch followed, or left by a fetch that failed.
   */
  datatype Client = Client(
    ledger: seq<TaskEvent>, timeline: seq<TaskEvent>, fetches: seq<Fetch>, query: Query,
    open: bool, here: bool, entered: bool,
    from: nat, pipe: set<nat>, lossy: bool, refused: bool, skipped: set<nat>)

  datatype Step =
    | Commit(events: seq<TaskEvent>, published: bool)
    | Open(late: set<nat>)   // onopen: resubscribe from lastSeq, and invalidate; `late` hooks are still to run
    | Close
    | Enter(kept: bool)      // mount: subscribe from lastSeq; `kept` if the query is still in the cache
    | Leave                  // unmount: unsubscribe
    | Load                   // the query is asked again
    | Live(n: nat)           // event `n` arrives on the socket
    | Drop(n: nat)           // the server takes event `n` from its queue while the task is not subscribed
    | Refuse(lost: set<nat>, last: bool)   // a subscribe fails at the server; `last` if none follows
    | Answer(i: nat)         // the server reads the page of fetch `i`
    | Receive(i: nat)        // that page arrives
    | Fail(i: nat, again: bool)   // fetch `i` fails; `again` if the query starts its load once more

  function Range(lo: nat, hi: nat): (r: set<nat>)
    ensures forall n: nat :: n in r <==> lo < n <= hi
  {
    if hi <= lo then {} else Range(lo, hi - 1) + {hi}
  }

  const LOAD := Fetch(0, None, None)
  const NEW := Query(false, false, false)

  function GapFetch(lastSeq: nat, n: nat): seq<Fetch> {
    match DetectGap(lastSeq, n)
    case Some(gap) => [Fetch(gap.0, Some(gap.1), None)]
    case None => []
  }

  /** A new load covers everything there is so far. */
  function WithLoad(c: Client): Client {
    c.(fetches := c.fetches + [LOAD], query := c.query.(busy := true), skipped := {})
  }

  /** The first load of a query is not cancelled: asking again only waits for it. */
  predicate Joins(c: Client) {
    c.query.busy && !c.query.data
  }

  /** An invalidated query is asked again at once if its page is mounted, else when it is next. */
  function Invalidated(c: Client): Client {
    var d := c.(query := c.query.(stale := true));
    if c.here && !Joins(c) then WithLoad(d) else d
  }

  /** Fetch `i` is the latest load, the one the query waits for. */
  predicate Awaited(c: Client, i: nat) {
    && c.query.busy && i < |c.fetches| && c.fetches[i].through.None?
    && forall k :: i < k < |c.fetches| ==> c.fetches[k].through.Some?
  }

  function Without(fetches: seq<Fetch>, i: nat): seq<Fetch>
    requires i < |fetches|
  {
    fetches[..i] + fetches[i + 1..]
  }

  predicate CanArrive(c: Client, n: nat) {
    c.open && c.entered && 1 <= n <= |c.ledger| && (n in c.pipe || Has(c.timeline, n))
  }

  /** The gap is looked for only while the task is in the connection's set. */
  function Arrived(c: Client, n: nat): Client
    requires 1 <= n <= |c.ledger|
  {
    var last := LastSeq(c.timeline);
    var gap := if c.here then GapFetch(last, n) else [];
    c.(fetches := c.fetches + gap,
       timeline := Appended(c.timeline, c.ledger[n - 1..n]),
       pipe := c.pipe - {n},
       skipped := if gap == [] then c.skipped + Range(last, n - 1) else c.skipped)
  }

  predicate CanReceive(c: Client, i: nat) {
    i < |c.fetches| && c.fetches[i].page.Some? && c.fetches[i].after <= c.fetches[i].page.value <= |c.ledger|
  }

  function Received(c: Client, i: nat): Client
    requires CanReceive(c, i)
  {
    var f := c.fetches[i];
    var hi := Upto(f.page.value, f.after, PAGE);
    var d := c.(timeline := Appended(c.timeline, c.ledger[f.after..hi]));
    if hi == f.after + PAGE && Below(hi, f.through)
    then d.(fetches := c.fetches[i := Fetch(hi, f.through, None)])
    else d.(fetches := Without(c.fetches, i), query := if Awaited(c, i) then Query(true, false, false) else c.query)
  }

  /** Number `n` may be lost on the way: the subscription that owed it is over, or it has come. */
  predicate Unowed(c: Client, n: nat) {
    !c.here || c.refused || n <= c.from || Has(c.timeline, n)
  }

  predicate CanDrop(c: Client, n: nat) {
    c.open && n in c.pipe && Unowed(c, n)
  }

  function Refused(c: Client, lost: set<nat>, last: bool): Client {
    var d := c.(refused := c.refused || last);
    d.(pipe := set n | n in c.pipe && !(n in lost && Unowed(d, n)))
  }

  /** The numbers that fetch `f` was still to bring. */
  function Rest(c: Client, f: Fetch): set<nat> {
    Range(f.after, if f.through.Some? then f.through.value else LastSeq(c.timeline))
  }

  /** The query retries its load; after a failed gap fetch it is invalidated. */
  function Failed(c: Client, i: nat, again: bool): Client
    requires i < |c.fetches|
  {
    var f := c.fetches[i];
    var d := c.(fetches := Without(c.fetches, i), skipped := c.skipped + Rest(c, f));
    if f.through.Some? then Invalidated(d)
    else if !Awaited(c, i) then d
    else if again then WithLoad(d)
    else d.(query := Query(c.query.data, true, false))
  }

  function Opened(c: Client, late: set<nat>): Client {
    var last, size := LastSeq(c.timeline), |c.ledger|;
    var owed := if c.here then Range(last, size) else {};
    Invalidated(c.(open := true, from := last, lossy := false, refused := false, pipe := owed + late * Range(0, size)))
  }

  /** Coming to the page asks for what the socket has since, and for a load if the query is new or stale. */
  function Entered(c: Client, kept: bool): Client {
    var last := LastSeq(c.timeline);
    var q := if kept || c.query.busy then c.query else NEW;
    var d := c.(here := true, entered := true, query := q);
    var e := if !c.open then d
      else d.(from := last, pipe := c.pipe + Range(last, |c.ledger|), lossy := false, refused := false);
    if !q.busy && (!q.data || q.stale) then WithLoad(e) else e
  }

  function Apply(c: Client, step: Step): Client {
    match step
    case Commit(events, published) =>
      if !Continues(c.ledger, events) then c
      else
        var all := c.ledger + events;
        if !c.open then c.(ledger := all)
        else if published then c.(ledger := all, pipe := c.pipe + Range(|c.ledger|, |all|))
        else c.(ledger := all, lossy := c.lossy || events != [])
    case Open(late) => if c.open then c else Opened(c, late)
    case Close => c.(open := false, pipe := {})
    case Enter(kept) => if c.here then c else Entered(c, kept)
    case Leave => c.(here := false)
    case Load => if c.here && !Joins(c) then WithLoad(c) else c
    case Live(n) => if CanArrive(c, n) then Arrived(c, n) else c
    case Drop(n) => if CanDrop(c, n) then c.(pipe := c.pipe - {n}) else c
    case Refuse(lost, last) => if c.open then Refused(c, lost, last) else c
    case Answer(i) =>
      if i < |c.fetches| && c.fetches[i].page.None?
      then c.(fetches := c.fetches[i := c.fetches[i].(page := Some(|c.ledger|))]) else c
    case Receive(i) => if CanReceive(c, i) then Received(c, i) else c
    case Fail(i, again) => if i < |c.fetches| then Failed(c, i, again) else c
  }

  function Run(c: Client, steps: seq<Step>): Client {
    if steps == [] then c else Apply(Run(c, steps[..|steps| - 1]), steps[|steps| - 1])
  }

  /** Before the task's page is first mounted; the shared socket may already be open. */
  ghost predicate Initial(c: Client) {
    && Gapless(c.ledger) && (!c.open ==> c.pipe == {}) && c.pipe <= Range(0, |c.ledger|)
    && c == Client(c.ledger, [], [], NEW, c.open, false, false, 0, c.pipe, false, false, {})
  }

  // ---- coverage ----------------------------------------------------------------------------------

  /** The current page is full, so the loop may ask for another one. */
  predicate FullPage(f: Fetch) {
    f.page.Some? && f.after + PAGE <= f.page.value
  }

  /** Number `m` is in the range that fetch `f` still has to bring. */
  predicate Covers(f: Fetch, m: nat) {
    && f.after < m && (f.through.Some? ==> m <= f.through.value)
    && (f.page.None? || FullPage(f) || m <= f.page.value)
  }

  predicate Covered(fetches: seq<Fetch>, m: nat) {
    exists i :: 0 <= i < |fetches| && Covers(fetches[i], m)
  }

  /** The timeline is sorted and holds ledger events only. */
  ghost predicate TimelineOk(ledger: seq<TaskEvent>, timeline: seq<TaskEvent>) {
    && Gapless(ledger) && Sorted(timeline)
    && forall e :: e in timeline ==> 1 <= e.number <= |ledger| && ledger[e.number - 1] == e
  }

  ghost predicate FetchOk(f: Fetch, last: nat, size: nat) {
    && f.after <= last
    && (f.through.Some? ==> f.after < f.through.value <= last)
    && (f.page.Some? ==> f.after <= f.page.value <= size && (f.through.Some? ==> f.through.value <= f.page.value))
  }

  ghost predicate FetchesOk(fetches: seq<Fetch>, last: nat, size: nat) {
    forall i :: 0 <= i < |fetches| ==> FetchOk(fetches[i], last, size)
  }

  /** While the page is mounted and served, and every commit was published, the socket owes all above `from`. */
  ghost predicate SocketOk(c: Client) {
    && (forall n :: n in c.pipe ==> 1 <= n <= |c.ledger|)
    && c.from <= LastSeq(c.timeline)
    && (c.open && c.here && !c.lossy && !c.refused ==>
         forall n :: c.from < n <= |c.ledger| ==> Has(c.timeline, n) || n in c.pipe)
    && (!c.open ==> c.pipe == {})
    && (c.here ==> c.entered)
  }

  /** Every number missing below the last one is in the range of a fetch, or no fetch looks for it. */
  ghost predicate Explained(c: Client) {
    forall n :: 1 <= n < LastSeq(c.timeline) && !Has(c.timeline, n) ==> Covered(c.fetches, n) || n in c.skipped
  }

  ghost predicate SkippedOk(c: Client) {
    forall n :: n in c.skipped ==> 1 <= n <= LastSeq(c.timeline)
  }

  ghost predicate Inv(c: Client) {
    && TimelineOk(c.ledger, c.timeline)
    && FetchesOk(c.fetches, LastSeq(c.timeline), |c.ledger|)
    && SocketOk(c) && SkippedOk(c) && Explained(c)
  }

  // ---- merging a slice of the ledger ----------------------------------------------------------------

  lemma MergeSlice(ledger: seq<TaskEvent>, timeline: seq<TaskEvent>, a: nat, b: nat)
    requires TimelineOk(ledger, timeline) && a <= b <= |ledger|
    ensures var all := Appended(timeline, ledger[a..b]);
      && TimelineOk(ledger, all)
      && (forall n: nat :: Has(all, n) <==> Has(timeline, n) || a < n <= b)
      && LastSeq(all) == (if a < b && b > LastSeq(timeline) then b else LastSeq(timeline))
  {
    var items := ledger[a..b];
    MergeIsConsistent(ledger, timeline, a, b);
    AppendedIsUnion(timeline, items);
    var all := Appended(timeline, items);
    hide Appended, Has, Consistent, Sorted, LastSeq;
    forall e | e in all ensures 1 <= e.number <= |ledger| && ledger[e.number - 1] == e {
      FromLedger(ledger, timeline, a, b, e);
    }
    forall n: nat ensures Has(all, n) <==> Has(timeline, n) || a < n <= b {
      MergedHas(ledger, timeline, a, b, all, n);
    }
    hide TimelineOk;
    MergedLast(ledger, timeline, all, a, b);
  }

  lemma MergedLast(ledger: seq<TaskEvent>, timeline: seq<TaskEvent>, all: seq<TaskEvent>, a: nat, b: nat)
    requires TimelineOk(ledger, timeline) && TimelineOk(ledger, all)
    requires forall n: nat :: Has(all, n) <==> Has(timeline, n) || a < n <= b
    ensures LastSeq(all) == if a < b && b > LastSeq(timeline) then b else LastSeq(timeline)
  {
    LastOfLedger(ledger, timeline);
    LastOfLedger(ledger, all);
    hide Has, TimelineOk;
    assert Has(timeline, LastSeq(timeline)) ==> Has(all, LastSeq(timeline));
    assert a < b ==> Has(all, b);
    assert all == [] ==> LastSeq(all) == 0;
  }

  lemma MergeIsConsistent(ledger: seq<TaskEvent>, timeline: seq<TaskEvent>, a: nat, b: nat)
    requires TimelineOk(ledger, timeline) && a <= b <= |ledger|
    ensures Consistent(timeline + ledger[a..b])
  {
    var both := timeline + ledger[a..b];
    forall i, j | 0 <= i < |both| && 0 <= j < |both| && both[i].number == both[j].number ensures both[i] == both[j] {
      FromLedger(ledger, timeline, a, b, both[i]);
      FromLedger(ledger, timeline, a, b, both[j]);
    }
  }

  lemma FromLedger(ledger: seq<TaskEvent>, timeline: seq<TaskEvent>, a: nat, b: nat, e: TaskEvent)
    requires TimelineOk(ledger, timeline) && a <= b <= |ledger| && (e in timeline || e in ledger[a..b])
    ensures 1 <= e.number <= |ledger| && ledger[e.number - 1] == e
  {
    if e in ledger[a..b] {
      var k :| 0 <= k < b - a && ledger[a..b][k] == e;
      assert ledger[a + k] == e;
    }
  }

  lemma MergedHas(ledger: seq<TaskEvent>, timeline: seq<TaskEvent>, a: nat, b: nat, all: seq<TaskEvent>, n: nat)
    requires TimelineOk(ledger, timeline) && a <= b <= |ledger|
    requires forall e :: e in all <==> e in timeline || e in ledger[a..b]
    ensures Has(all, n) <==> Has(timeline, n) || a < n <= b
  {
    if Has(all, n) {
      var e := ByNumber(all, n);
      if e in ledger[a..b] {
        var k :| 0 <= k < b - a && ledger[a..b][k] == e;
        assert ledger[a + k] == e;
      }
    }
    if Has(timeline, n) {
      assert ByNumber(timeline, n) in all;
    }
    if a < n <= b {
      assert ledger[a..b][n - 1 - a] == ledger[n - 1];
      assert ledger[n - 1] in all;
    }
  }

  lemma LastIsLargest(es: seq<TaskEvent>)
    requires Sorted(es)
    ensures forall n: nat :: Has(es, n) ==> n <= LastSeq(es)
    ensures es != [] ==> Has(es, LastSeq(es))
  {
  }

  // ---- every step keeps the invariant ---------------------------------------------------------------

  lemma LastOfLedger(ledger: seq<TaskEvent>, timeline: seq<TaskEvent>)
    requires TimelineOk(ledger, timeline)
    ensures LastSeq(timeline) <= |ledger|
    ensures forall n: nat :: Has(timeline, n) ==> 1 <= n <= LastSeq(timeline)
    ensures timeline != [] ==> Has(timeline, LastSeq(timeline))
  {
    LastIsLargest(timeline);
  }

  lemma CommitKeeps(c: Client, events: seq<TaskEvent>, published: bool)
    requires Inv(c)
    ensures Inv(Apply(c, Commit(events, published)))
  {
    if Continues(c.ledger, events) {
      var d := Apply(c, Commit(events, published));
      assert Gapless(d.ledger);
      LongerLedger(c, d.ledger);
      CommitSocket(c, events, published);
      hide Has, LastSeq, Covered, TimelineOk, Gapless, SocketOk, FetchesOk;
    }
  }

  lemma CommitSocket(c: Client, events: seq<TaskEvent>, published: bool)
    requires SocketOk(c) && Continues(c.ledger, events)
    ensures SocketOk(Apply(c, Commit(events, published)))
  {
    hide Continues, Has, LastSeq;
  }

  lemma LongerLedger(c: Client, ledger: seq<TaskEvent>)
    requires Inv(c) && c.ledger <= ledger && Gapless(ledger)
    ensures TimelineOk(ledger, c.timeline) && FetchesOk(c.fetches, LastSeq(c.timeline), |ledger|)
  {
    hide SocketOk, SkippedOk, Explained, LastSeq;
    forall i | 0 <= i < |c.fetches| ensures FetchOk(c.fetches[i], LastSeq(c.timeline), |ledger|) {
      assert FetchOk(c.fetches[i], LastSeq(c.timeline), |c.ledger|);
    }
  }

  /** A load repairs whatever is not explained. */
  lemma LoadKeeps(c: Client)
    requires TimelineOk(c.ledger, c.timeline) && FetchesOk(c.fetches, LastSeq(c.timeline), |c.ledger|) && SocketOk(c)
    ensures Inv(WithLoad(c))
  {
    hide Has, LastSeq, TimelineOk, Covered;
    LoadCovers(c.fetches);
  }

  lemma InvalidKeeps(c: Client)
    requires Inv(c)
    ensures Inv(Invalidated(c))
  {
    hide Has, LastSeq, TimelineOk, FetchesOk, Covered;
    if c.here && !Joins(c) {
      LoadKeeps(c.(query := c.query.(stale := true)));
    }
  }

  lemma LoadCovers(fetches: seq<Fetch>)
    ensures forall n: nat :: n > 0 ==> Covered(fetches + [LOAD], n)
  {
    forall n: nat | n > 0 ensures Covered(fetches + [LOAD], n) {
      assert Covers((fetches + [LOAD])[|fetches|], n);
    }
  }

  lemma OpenKeeps(c: Client, late: set<nat>)
    requires Inv(c) && !c.open
    ensures Inv(Opened(c, late))
  {
    LastOfLedger(c.ledger, c.timeline);
    var last, size := LastSeq(c.timeline), |c.ledger|;
    var owed := if c.here then Range(last, size) else {};
    var d := c.(open := true, from := last, lossy := false, refused := false, pipe := owed + late * Range(0, size));
    assert Inv(d) by {
      hide Has, LastSeq, TimelineOk, FetchesOk, Covered;
    }
    hide Inv, Has, LastSeq;
    InvalidKeeps(d);
  }

  lemma EnterKeeps(c: Client, kept: bool)
    requires Inv(c)
    ensures Inv(Entered(c, kept))
  {
    var last := LastSeq(c.timeline);
    var q := if kept || c.query.busy then c.query else NEW;
    var d := c.(here := true, entered := true, query := q);
    var e := if !c.open then d
      else d.(from := last, pipe := c.pipe + Range(last, |c.ledger|), lossy := false, refused := false);
    EnterSocket(c, q, e);
    assert Inv(e) by {
      hide TimelineOk, FetchesOk, SocketOk, Covered, Has, LastSeq;
    }
    if !q.busy && (!q.data || q.stale) {
      hide SkippedOk, Explained, TimelineOk, FetchesOk, SocketOk;
      LoadKeeps(e);
    }
  }

  lemma EnterSocket(c: Client, q: Query, e: Client)
    requires Inv(c)
    requires var last := LastSeq(c.timeline); var d := c.(here := true, entered := true, query := q);
      e == if !c.open then d
           else d.(from := last, pipe := c.pipe + Range(last, |c.ledger|), lossy := false, refused := false)
    ensures SocketOk(e)
  {
    LastOfLedger(c.ledger, c.timeline);
    hide LastSeq, Has, TimelineOk, FetchesOk, Explained, SkippedOk;
  }

  lemma CoveredByMore(a: seq<Fetch>, b: seq<Fetch>, n: nat)
    requires Covered(a, n)
    ensures Covered(a + b, n)
  {
    var i :| 0 <= i < |a| && Covers(a[i], n);
    assert Covers((a + b)[i], n);
  }

  /** Replacing fetch `i` keeps what the others cover, and what the new one covers. */
  lemma CoveredBySwap(a: seq<Fetch>, i: nat, f: Fetch, n: nat)
    requires i < |a| && Covered(a, n)
    ensures Covered(a[i := f], n) || (Covers(a[i], n) && !Covers(f, n))
  {
    var k :| 0 <= k < |a| && Covers(a[k], n);
    if k != i {
      assert Covers(a[i := f][k], n);
    } else if Covers(f, n) {
      assert Covers(a[i := f][i], n);
    }
  }

  lemma CoveredByRest(a: seq<Fetch>, i: nat, n: nat)
    requires i < |a| && Covered(a, n)
    ensures Covered(Without(a, i), n) || Covers(a[i], n)
  {
    var k :| 0 <= k < |a| && Covers(a[k], n);
    var rest := Without(a, i);
    if k < i {
      assert Covers(rest[k], n);
    } else if k > i {
      assert Covers(rest[k - 1], n);
    }
  }

  lemma AnswerKeeps(c: Client, i: nat)
    requires Inv(c)
    ensures Inv(Apply(c, Answer(i)))
  {
    if i < |c.fetches| && c.fetches[i].page.None? {
      var fetches := c.fetches[i := c.fetches[i].(page := Some(|c.ledger|))];
      LastOfLedger(c.ledger, c.timeline);
      AnsweredOk(c.fetches, i, LastSeq(c.timeline), |c.ledger|);
      AnsweredCovers(c.fetches, i, |c.ledger|);
      hide Has, LastSeq, TimelineOk, Covered, FetchesOk;
      InvOf(c.(fetches := fetches));
    }
  }

  lemma AnsweredCovers(fetches: seq<Fetch>, i: nat, size: nat)
    requires i < |fetches| && fetches[i].page.None?
    ensures forall n: nat :: n <= size && Covered(fetches, n) ==>
      Covered(fetches[i := fetches[i].(page := Some(size))], n)
  {
    var f := fetches[i].(page := Some(size));
    hide Covered;
    forall n: nat | n <= size && Covered(fetches, n) ensures Covered(fetches[i := f], n) {
      CoveredBySwap(fetches, i, f, n);
    }
  }

  lemma AnsweredOk(fetches: seq<Fetch>, i: nat, last: nat, size: nat)
    requires i < |fetches| && FetchesOk(fetches, last, size) && last <= size
    ensures FetchesOk(fetches[i := fetches[i].(page := Some(size))], last, size)
  {
    var all := fetches[i := fetches[i].(page := Some(size))];
    forall k | 0 <= k < |all| ensures FetchOk(all[k], last, size) {
      assert FetchOk(fetches[k], last, size);
    }
  }

  lemma WithoutOk(fetches: seq<Fetch>, i: nat, last: nat, size: nat)
    requires i < |fetches| && FetchesOk(fetches, last, size)
    ensures FetchesOk(Without(fetches, i), last, size)
  {
    var rest := Without(fetches, i);
    forall k | 0 <= k < |rest| ensures FetchOk(rest[k], last, size) {
      assert rest[k] == fetches[if k < i then k else k + 1];
    }
  }

  lemma FailKeeps(c: Client, i: nat, again: bool)
    requires Inv(c) && i < |c.fetches|
    ensures Inv(Failed(c, i, again))
  {
    var d := c.(fetches := Without(c.fetches, i), skipped := c.skipped + Rest(c, c.fetches[i]));
    WithoutOk(c.fetches, i, LastSeq(c.timeline), |c.ledger|);
    RestIsExplained(c, i);
    assert Inv(d.(query := Query(c.query.data, true, false))) && Inv(d) by {
      hide Has, LastSeq, TimelineOk, FetchesOk, Covered, Without, Rest;
    }
    InvalidKeeps(d);
    assert Inv(WithLoad(d)) by {
      hide Explained, SkippedOk;
      LoadKeeps(d);
    }
    hide Inv, Invalidated, WithLoad, Awaited, Without, Rest;
  }

  /** What only the failed fetch looked for is skipped from now on. */
  lemma RestIsExplained(c: Client, i: nat)
    requires Inv(c) && i < |c.fetches|
    ensures var d := c.(fetches := Without(c.fetches, i), skipped := c.skipped + Rest(c, c.fetches[i]));
      Explained(d) && SkippedOk(d)
  {
    var f, last := c.fetches[i], LastSeq(c.timeline);
    var d := c.(fetches := Without(c.fetches, i), skipped := c.skipped + Rest(c, f));
    assert FetchOk(f, last, |c.ledger|);
    hide Has, LastSeq, TimelineOk, FetchesOk, SocketOk, Covered, Without;
    forall n: nat | 1 <= n < last && !Has(d.timeline, n) ensures Covered(d.fetches, n) || n in d.skipped {
      if Covered(c.fetches, n) {
        CoveredByRest(c.fetches, i, n);
      }
    }
  }

  /** `d` has what `c` has and the numbers above `a` up to `b`. */
  ghost predicate Gained(c: Client, d: Client, a: nat, b: nat) {
    && d.ledger == c.ledger && TimelineOk(d.ledger, d.timeline)
    && (forall n: nat :: Has(d.timeline, n) <==> Has(c.timeline, n) || a < n <= b)
    && (forall n: nat :: Has(d.timeline, n) ==> 1 <= n <= LastSeq(d.timeline))
    && LastSeq(d.timeline) == if a < b && b > LastSeq(c.timeline) then b else LastSeq(c.timeline)
  }

  lemma SliceGained(c: Client, d: Client, a: nat, b: nat)
    requires TimelineOk(c.ledger, c.timeline) && a <= b <= |c.ledger|
    requires d.ledger == c.ledger && d.timeline == Appended(c.timeline, c.ledger[a..b])
    ensures Gained(c, d, a, b)
  {
    MergeSlice(c.ledger, c.timeline, a, b);
    LastOfLedger(d.ledger, d.timeline);
    hide Appended, TimelineOk, Has, LastSeq;
  }

  lemma LiveKeeps(c: Client, n: nat)
    requires Inv(c) && CanArrive(c, n)
    ensures Inv(Arrived(c, n))
  {
    var d := Arrived(c, n);
    SliceGained(c, d, n - 1, n);
    assert LastSeq(d.timeline) == Max(n, LastSeq(c.timeline)) by {
      hide TimelineOk, Has, LastSeq;
    }
    ArrivedFetches(c, n);
    ArrivedSocket(c, n);
    ArrivedExplained(c, n);
    assert TimelineOk(d.ledger, d.timeline);
    hide *;
    InvOf(d);
  }

  lemma InvOf(c: Client)
    requires TimelineOk(c.ledger, c.timeline) && FetchesOk(c.fetches, LastSeq(c.timeline), |c.ledger|)
    requires SocketOk(c) && SkippedOk(c) && Explained(c)
    ensures Inv(c)
  {
  }

  lemma ArrivedSocket(c: Client, n: nat)
    requires Inv(c) && CanArrive(c, n) && Gained(c, Arrived(c, n), n - 1, n)
    ensures SocketOk(Arrived(c, n)) && SkippedOk(Arrived(c, n))
  {
    hide TimelineOk, FetchesOk, Explained, Has, LastSeq, Appended;
  }

  lemma ArrivedExplained(c: Client, n: nat)
    requires Inv(c) && CanArrive(c, n) && Gained(c, Arrived(c, n), n - 1, n)
    ensures Explained(Arrived(c, n))
  {
    hide TimelineOk, FetchesOk, SocketOk, Has, LastSeq, Appended, Covered;
    var d := Arrived(c, n);
    forall k: nat | 1 <= k < LastSeq(d.timeline) && !Has(d.timeline, k) ensures Covered(d.fetches, k) || k in d.skipped {
      ArrivedHole(c, n, k);
    }
  }

  lemma ArrivedFetches(c: Client, n: nat)
    requires Inv(c) && CanArrive(c, n) && LastSeq(Arrived(c, n).timeline) == Max(n, LastSeq(c.timeline))
    ensures FetchesOk(Arrived(c, n).fetches, LastSeq(Arrived(c, n).timeline), |c.ledger|)
  {
    var last := LastSeq(c.timeline);
    hide LastSeq, TimelineOk, Has, Explained, SocketOk;
    var d := Arrived(c, n);
    forall i | 0 <= i < |d.fetches| ensures FetchOk(d.fetches[i], LastSeq(d.timeline), |c.ledger|) {
      if i < |c.fetches| {
        assert FetchOk(c.fetches[i], last, |c.ledger|);
      }
    }
  }

  function Max(a: nat, b: nat): nat {
    if a > b then a else b
  }

  lemma ArrivedHole(c: Client, n: nat, k: nat)
    requires Inv(c) && CanArrive(c, n)
    requires 1 <= k < Max(n, LastSeq(c.timeline)) && !Has(c.timeline, k) && k != n
    ensures Covered(Arrived(c, n).fetches, k) || k in Arrived(c, n).skipped
  {
    var last, d := LastSeq(c.timeline), Arrived(c, n);
    LastOfLedger(c.ledger, c.timeline);
    hide Has, TimelineOk, Covers, LastSeq;
    if k < last {
      if Covered(c.fetches, k) && d.fetches != c.fetches {
        CoveredByMore(c.fetches, GapFetch(last, n), k);
      }
    } else if d.fetches != c.fetches && c.here && DetectGap(last, n).Some? {
      assert GapFetch(last, n) == [Fetch(last, Some(n), None)] && k != last;
      GapCovers(c.fetches, last, n, k);
    }
  }

  lemma GapCovers(fetches: seq<Fetch>, last: nat, n: nat, k: nat)
    requires last < k <= n
    ensures Covered(fetches + [Fetch(last, Some(n), None)], k)
  {
    assert Covers((fetches + [Fetch(last, Some(n), None)])[|fetches|], k);
  }

  lemma ReceiveKeeps(c: Client, i: nat)
    requires Inv(c) && CanReceive(c, i)
    ensures Inv(Received(c, i))
  {
    var f, d := c.fetches[i], Received(c, i);
    var hi := Upto(f.page.value, f.after, PAGE);
    SliceGained(c, d, f.after, hi);
    assert FetchOk(f, LastSeq(c.timeline), |c.ledger|);
    assert LastSeq(d.timeline) == Max(hi, LastSeq(c.timeline)) by {
      hide TimelineOk, Has, LastSeq;
    }
    ReceivedFetches(c, i);
    ReceivedSocket(c, i);
    ReceivedExplained(c, i);
    assert TimelineOk(d.ledger, d.timeline);
    hide *;
    InvOf(d);
  }

  lemma ReceivedSocket(c: Client, i: nat)
    requires Inv(c) && CanReceive(c, i)
    requires Gained(c, Received(c, i), c.fetches[i].after, Upto(c.fetches[i].page.value, c.fetches[i].after, PAGE))
    ensures SocketOk(Received(c, i)) && SkippedOk(Received(c, i))
  {
    hide TimelineOk, FetchesOk, Explained, Has, LastSeq, Appended, Without;
  }

  lemma ReceivedExplained(c: Client, i: nat)
    requires Inv(c) && CanReceive(c, i)
    requires Gained(c, Received(c, i), c.fetches[i].after, Upto(c.fetches[i].page.value, c.fetches[i].after, PAGE))
    ensures Explained(Received(c, i))
  {
    var d := Received(c, i);
    assert FetchOk(c.fetches[i], LastSeq(c.timeline), |c.ledger|);
    hide TimelineOk, FetchesOk, SocketOk, Has, LastSeq, Appended, Covered, Without;
    forall k: nat | 1 <= k < LastSeq(d.timeline) && !Has(d.timeline, k) ensures Covered(d.fetches, k) || k in d.skipped {
      ReceivedHole(c, i, k);
    }
  }

  lemma ReceivedFetches(c: Client, i: nat)
    requires Inv(c) && CanReceive(c, i)
    requires var f := c.fetches[i]; var hi := Upto(f.page.value, f.after, PAGE);
      LastSeq(Received(c, i).timeline) == Max(hi, LastSeq(c.timeline))
    ensures FetchesOk(Received(c, i).fetches, LastSeq(Received(c, i).timeline), |c.ledger|)
  {
    var last := LastSeq(c.timeline);
    var d := Received(c, i);
    var f := c.fetches[i];
    var hi := Upto(f.page.value, f.after, PAGE);
    assert FetchOk(f, last, |c.ledger|);
    WithoutOk(c.fetches, i, last, |c.ledger|);
    hide LastSeq, TimelineOk, Has, Explained, SocketOk, Without;
    forall k | 0 <= k < |d.fetches| ensures FetchOk(d.fetches[k], LastSeq(d.timeline), |c.ledger|) {
      if hi == f.after + PAGE && Below(hi, f.through) {
        assert k != i ==> FetchOk(c.fetches[k], last, |c.ledger|);
      } else {
        assert FetchOk(d.fetches[k], last, |c.ledger|);
      }
    }
  }

  lemma ReceivedHole(c: Client, i: nat, k: nat)
    requires Inv(c) && CanReceive(c, i)
    requires var f := c.fetches[i]; var hi := Upto(f.page.value, f.after, PAGE);
      1 <= k < Max(hi, LastSeq(c.timeline)) && !Has(c.timeline, k) && !(f.after < k <= hi)
    ensures Covered(Received(c, i).fetches, k) || k in Received(c, i).skipped
  {
    var f, last := c.fetches[i], LastSeq(c.timeline);
    var hi := Upto(f.page.value, f.after, PAGE);
    LastOfLedger(c.ledger, c.timeline);
    assert FetchOk(f, last, |c.ledger|);
    hide Has, TimelineOk, Covered, Without;
    assert k < last;
    if Covered(c.fetches, k) {
      if hi == f.after + PAGE && Below(hi, f.through) {
        CoveredBySwap(c.fetches, i, Fetch(hi, f.through, None), k);
      } else {
        CoveredByRest(c.fetches, i, k);
      }
    }
  }

  lemma DropKeeps(c: Client, n: nat)
    requires Inv(c) && CanDrop(c, n)
    ensures Inv(c.(pipe := c.pipe - {n}))
  {
    hide TimelineOk, FetchesOk, Covered, LastSeq, Has;
  }

  lemma RefuseKeeps(c: Client, lost: set<nat>, last: bool)
    requires Inv(c)
    ensures Inv(Refused(c, lost, last))
  {
    hide TimelineOk, FetchesOk, Covered, LastSeq, Has;
  }

  lemma QuietKeeps(c: Client, step: Step)
    requires Inv(c) && (step.Close? || step.Leave? || step.Load?)
    ensures Inv(Apply(c, step))
  {
    hide TimelineOk, FetchesOk, Covered, LastSeq, Has;
    if step.Load? && c.here && !Joins(c) {
      LoadKeeps(c);
    }
  }

  /** Every step keeps the invariant: mounted or away, published or not, whichever fetches fail. */
  lemma StepKeeps(c: Client, step: Step)
    requires Inv(c)
    ensures Inv(Apply(c, step))
  {
    hide Inv, Opened, Entered, Arrived, Received, Refused, Failed, CanArrive, CanReceive, CanDrop;
    match step {
      case Commit(events, published) => CommitKeeps(c, events, published);
      case Open(late) => if !c.open { OpenKeeps(c, late); }
      case Enter(kept) => if !c.here { EnterKeeps(c, kept); }
      case Live(n) => if CanArrive(c, n) { LiveKeeps(c, n); }
      case Drop(n) => if CanDrop(c, n) { DropKeeps(c, n); }
      case Refuse(lost, last) => if c.open { RefuseKeeps(c, lost, last); }
      case Answer(i) => AnswerKeeps(c, i);
      case Receive(i) => if CanReceive(c, i) { ReceiveKeeps(c, i); }
      case Fail(i, again) => if i < |c.fetches| { FailKeeps(c, i, again); }
      case _ => QuietKeeps(c, step);
    }
  }

  lemma InitialIsOk(c: Client)
    requires Initial(c)
    ensures Inv(c)
  {
  }

  lemma {:induction false} AlwaysInv(c: Client, steps: seq<Step>)
    requires Inv(c)
    ensures Inv(Run(c, steps))
  {
    if steps != [] {
      hide Inv, Apply;
      AlwaysInv(c, steps[..|steps| - 1]);
      StepKeeps(Run(c, steps[..|steps| - 1]), steps[|steps| - 1]);
    }
  }

  // ---- whole runs -------------------------------------------------------------------------------------

  /**
   * In every run whatsoever each number missing below the last one is in the remaining range of a fetch, or
   * no fetch has looked for it since the last load was issued.
   */
  lemma MissingIsExplained(c: Client, steps: seq<Step>, n: nat)
    requires Initial(c)
    requires var w := Run(c, steps); 1 <= n < LastSeq(w.timeline) && !Has(w.timeline, n)
    ensures var w := Run(c, steps); Covered(w.fetches, n) || n in w.skipped
  {
    InitialIsOk(c);
    AlwaysInv(c, steps);
  }

  /** Once all fetches have ended, the timeline is the ledger up to lastSeq exactly when all that was skipped has come. */
  lemma QuietIsCompleteIff(c: Client, steps: seq<Step>)
    requires Initial(c) && Run(c, steps).fetches == []
    ensures var w := Run(c, steps);
      && LastSeq(w.timeline) <= |w.ledger|
      && (w.timeline == w.ledger[..LastSeq(w.timeline)] <==> forall n: nat :: n in w.skipped ==> Has(w.timeline, n))
  {
    InitialIsOk(c);
    AlwaysInv(c, steps);
    hide Run, Inv;
    CompleteIff(Run(c, steps));
  }

  lemma CompleteIff(w: Client)
    requires Inv(w) && w.fetches == []
    ensures LastSeq(w.timeline) <= |w.ledger|
    ensures w.timeline == w.ledger[..LastSeq(w.timeline)] <==> forall n: nat :: n in w.skipped ==> Has(w.timeline, n)
  {
    var last := LastSeq(w.timeline);
    LastOfLedger(w.ledger, w.timeline);
    if forall n: nat :: n in w.skipped ==> Has(w.timeline, n) {
      assert forall n: nat :: 1 <= n <= last ==> Has(w.timeline, n) by {
        hide TimelineOk, FetchesOk, SocketOk, LastSeq, Has;
      }
      PrefixIsTimeline(w.ledger, w.timeline);
    }
    if w.timeline == w.ledger[..last] {
      forall n: nat | n in w.skipped ensures Has(w.timeline, n) {
        assert w.timeline[n - 1].number == n;
      }
    }
  }

  lemma PrefixIsTimeline(ledger: seq<TaskEvent>, timeline: seq<TaskEvent>)
    requires TimelineOk(ledger, timeline) && LastSeq(timeline) <= |ledger|
    requires forall n: nat :: 1 <= n <= LastSeq(timeline) ==> Has(timeline, n)
    ensures timeline == ledger[..LastSeq(timeline)]
  {
    var last := LastSeq(timeline);
    LastOfLedger(ledger, timeline);
    var prefix := ledger[..last];
    forall e ensures e in timeline <==> e in prefix {
      if e in timeline {
        assert Has(timeline, e.number);
        assert prefix[e.number - 1] == e;
      }
      if e in prefix {
        var k :| 0 <= k < last && prefix[k] == e;
        assert Has(timeline, k + 1);
        var x := ByNumber(timeline, k + 1);
        assert x == ledger[k];
      }
    }
    SortedIsUnique(timeline, prefix);
  }

  /**
   * In every run, while the page is mounted and served and no unpublished commit intervened: each number the
   * timeline lacks is in the remaining range of a fetch, or on its way on the socket, or it lies at or below
   * the number last subscribed from and no fetch looks for it.
   */
  lemma MissingIsComing(c: Client, steps: seq<Step>, n: nat)
    requires Initial(c)
    requires var w := Run(c, steps);
      w.open && w.here && !w.lossy && !w.refused && 1 <= n <= |w.ledger| && !Has(w.timeline, n)
    ensures var w := Run(c, steps); Covered(w.fetches, n) || n in w.pipe || (n <= w.from && n in w.skipped)
  {
    InitialIsOk(c);
    AlwaysInv(c, steps);
    LastOfLedger(Run(c, steps).ledger, Run(c, steps).timeline);
    hide Run, TimelineOk, FetchesOk, Has, LastSeq, Covered;
  }

  /**
   * In every run, once all fetches have ended and nothing is on its way to the mounted page: the timeline is
   * the ledger exactly when all that was skipped has come and, if the subscribe was refused, nothing is newer
   * than lastSeq.
   */
  lemma TimelineIsLedgerIff(c: Client, steps: seq<Step>)
    requires Initial(c)
    requires var w := Run(c, steps);
      w.open && w.here && !w.lossy && w.fetches == [] && forall n: nat :: n in w.pipe ==> Has(w.timeline, n)
    ensures var w := Run(c, steps);
      w.timeline == w.ledger <==>
        (forall n: nat :: n in w.skipped ==> Has(w.timeline, n)) && (!w.refused || LastSeq(w.timeline) == |w.ledger|)
  {
    InitialIsOk(c);
    AlwaysInv(c, steps);
    hide Run;
    EverythingCame(Run(c, steps));
  }

  lemma EverythingCame(w: Client)
    requires Inv(w) && w.open && w.here && !w.lossy && w.fetches == []
    requires forall n: nat :: n in w.pipe ==> Has(w.timeline, n)
    ensures w.timeline == w.ledger <==>
      (forall n: nat :: n in w.skipped ==> Has(w.timeline, n)) && (!w.refused || LastSeq(w.timeline) == |w.ledger|)
  {
    LastOfLedger(w.ledger, w.timeline);
    CompleteIff(w);
    var last := LastSeq(w.timeline);
    if !w.refused && w.from < |w.ledger| {
      assert Has(w.timeline, |w.ledger|);
    }
    assert w.ledger[..|w.ledger|] == w.ledger;
    hide TimelineOk, FetchesOk, Explained, Has;
    if w.timeline == w.ledger && w.ledger != [] {
      assert last == |w.ledger|;
    }
  }

  predicate AllPublished(steps: seq<Step>) {
    forall k :: 0 <= k < |steps| && steps[k].Commit? ==> steps[k].published
  }

  // ---- one mount -------------------------------------------------------------------------------------

  /**
   * A step of one mount that gives up no number: every commit is published, a failed load is started again,
   * and neither a failed gap fetch nor a socket that reopens on a bucket with events finds the first load
   * still under way.
   */
  predicate Untroubled(c: Client, step: Step) {
    && !step.Leave? && (step.Commit? ==> step.published)
    && (step.Open? && !c.open && c.here && Joins(c) ==> c.timeline == [])
    && (step.Fail? && step.i < |c.fetches| ==>
          if c.fetches[step.i].through.Some? then !Joins(c) else step.again && Awaited(c, step.i))
  }

  predicate AllUntroubled(c: Client, steps: seq<Step>) {
    steps == []
    || (AllUntroubled(c, steps[..|steps| - 1]) && Untroubled(Run(c, steps[..|steps| - 1]), steps[|steps| - 1]))
  }

  /** Only the first event of an empty bucket can have skipped something, and then the socket subscribed from 0. */
  ghost predicate Steady(c: Client) {
    && (c.entered ==> c.here) && (!c.entered ==> c.skipped == {} && c.fetches == [])
    && (c.open && c.skipped != {} ==> c.from == 0 || c.refused) && !c.lossy
  }

  lemma SteadyStep(c: Client, step: Step)
    requires Inv(c) && Steady(c) && Untroubled(c, step)
    ensures Steady(Apply(c, step))
  {
    hide TimelineOk, FetchesOk, Explained, Appended, Has, Without, Rest;
    match step {
      case Live(n) => if CanArrive(c, n) { SteadyArrival(c, n); }
      case Fail(i, again) => if i < |c.fetches| { SteadyFail(c, i, again); }
      case Receive(i) => hide Awaited, Upto;
      case _ => hide Awaited;
    }
  }

  /** A failed load is started again, and a failed gap fetch starts one. */
  lemma SteadyFail(c: Client, i: nat, again: bool)
    requires SocketOk(c) && Steady(c) && i < |c.fetches| && Untroubled(c, Fail(i, again))
    ensures Steady(Failed(c, i, again))
  {
    hide Awaited, Has, Rest, Without, LastSeq;
  }

  lemma SteadyArrival(c: Client, n: nat)
    requires SocketOk(c) && Steady(c) && CanArrive(c, n)
    ensures Steady(Arrived(c, n))
  {
    var last := LastSeq(c.timeline);
    hide Appended, Has, LastSeq;
    if last > 0 && n <= last + 1 {
      assert Range(last, n - 1) == {};
      assert c.skipped + {} == c.skipped;
    }
  }

  lemma {:induction false} AlwaysSteady(c: Client, steps: seq<Step>)
    requires Inv(c) && Steady(c) && AllUntroubled(c, steps)
    ensures Steady(Run(c, steps))
  {
    if steps != [] {
      var front, step := steps[..|steps| - 1], steps[|steps| - 1];
      AlwaysSteady(c, front);
      AlwaysInv(c, front);
      hide Inv, Steady, Apply, Untroubled;
      SteadyStep(Run(c, front), step);
    }
  }

  /**
   * In one mount without those troubles, whenever the server serves the page, all fetches have ended and
   * nothing is on its way, the timeline is the ledger.
   */
  lemma TimelineIsLedger(c: Client, steps: seq<Step>)
    requires Initial(c) && AllUntroubled(c, steps)
    requires var w := Run(c, steps);
      w.open && w.here && !w.refused && w.fetches == [] && forall n: nat :: n in w.pipe ==> Has(w.timeline, n)
    ensures var w := Run(c, steps); w.timeline == w.ledger
  {
    InitialIsOk(c);
    AlwaysInv(c, steps);
    AlwaysSteady(c, steps);
    TimelineIsLedgerIff(c, steps);
    var w := Run(c, steps);
    hide Run, AllUntroubled, TimelineOk, FetchesOk, Explained, LastSeq, Has;
    assert forall n: nat :: n in w.skipped ==> Has(w.timeline, n);
  }
}
