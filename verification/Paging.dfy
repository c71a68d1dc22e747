/** Reading a task's ledger page by page: the events query, the REST page, and the client's paging loop. */
module Paging {
  import opened Options
  import opened EventStore

  /** The ledger of a task as written by the server: sequence numbers 1, 2, 3, … */
  ghost predicate Gapless(es: seq<TaskEvent>) {
    forall k :: 0 <= k < |es| ==> es[k].number == k + 1
  }

  /** What a transaction appends: events that carry the next numbers. */
  predicate Continues(ledger: seq<TaskEvent>, events: seq<TaskEvent>) {
    forall k :: 0 <= k < |events| ==> events[k].number == |ledger| + k + 1
  }

  // ---- listEvents ------------------------------------------------------------------------------

  /** `WHERE seq > after`, in order. */
  function After(es: seq<TaskEvent>, after: nat): seq<TaskEvent> {
    if es == [] then []
    else After(es[..|es| - 1], after) + if es[|es| - 1].number > after then [es[|es| - 1]] else []
  }

  function Min(a: nat, b: nat): nat {
    if a < b then a else b
  }

  /** `WHERE seq > after ORDER BY seq LIMIT limit` */
  function Query(es: seq<TaskEvent>, after: nat, limit: nat): seq<TaskEvent> {
    After(es, after)[..Min(limit, |After(es, after)|)]
  }

  /** The position up to which a query from `after` reads a ledger of `size` events. */
  function Upto(size: nat, after: nat, limit: nat): (hi: nat)
    ensures after <= size ==> after <= hi <= size
  {
    if size <= after then after else Min(after + limit, size)
  }

  lemma SliceGrows<T>(s: seq<T>, lo: nat)
    requires lo < |s|
    ensures s[lo..] == s[..|s| - 1][lo..] + [s[|s| - 1]]
  {
  }

  lemma {:induction false} AfterOfGapless(es: seq<TaskEvent>, after: nat)
    requires Gapless(es)
    ensures After(es, after) == es[Min(after, |es|)..]
  {
    if es != [] {
      var front := es[..|es| - 1];
      AfterOfGapless(front, after);
      if after < |es| {
        SliceGrows(es, after);
      }
    }
  }

  /** On a gapless ledger a query returns the next events, without omission. */
  lemma QueryOfGapless(es: seq<TaskEvent>, after: nat, limit: nat)
    requires Gapless(es) && after <= |es|
    ensures Query(es, after, limit) == es[after..Upto(|es|, after, limit)]
    ensures limit > 0 && after < |es| ==> Query(es, after, limit) != []
  {
    AfterOfGapless(es, after);
  }

  // ---- FetchEvents -----------------------------------------------------------------------------

  datatype EventPage = EventPage(items: seq<TaskEvent>, nextAfterSeq: Option<nat>)

  datatype Fetched = Page(page: EventPage) | BadRequest | TaskNotFound

  const MAX_LIMIT := 1000

  /** `max(1, min(limit, 1000))` */
  function Clamped(limit: int): (r: nat)
    ensures 1 <= r <= MAX_LIMIT && (1 <= limit <= MAX_LIMIT ==> r == limit)
  {
    if limit < 1 then 1 else if limit > MAX_LIMIT then MAX_LIMIT else limit
  }

  /** A page names a next cursor exactly when it is full, and the cursor is its last number. */
  method FetchEvents(ledger: Option<seq<TaskEvent>>, after: int, limit: int) returns (r: Fetched)
    ensures after < 0 <==> r == BadRequest
    ensures after >= 0 && ledger.None? <==> r == TaskNotFound
    ensures after >= 0 && ledger.Some? ==> r == Page(PageOf(ledger.value, after, Clamped(limit)))
  {
    if after < 0 {
      return BadRequest;
    }
    var n := Clamped(limit);
    if ledger.None? {
      return TaskNotFound;
    }
    var list := Query(ledger.value, after, n);
    var out := EventPage(list, None);
    if |list| == n {
      out := out.(nextAfterSeq := Some(list[|list| - 1].number));
    }
    return Page(out);
  }

  function PageOf(es: seq<TaskEvent>, after: nat, limit: nat): EventPage {
    var list := Query(es, after, limit);
    EventPage(list, if |list| == limit && limit > 0 then Some(list[|list| - 1].number) else None)
  }

  /** A server page is the next slice of the ledger; its cursor is where the slice ends, and it advances. */
  lemma PageIsSlice(es: seq<TaskEvent>, after: nat, limit: nat)
    requires Gapless(es) && after <= |es| && limit > 0
    ensures var hi := Upto(|es|, after, limit);
      && PageOf(es, after, limit).items == es[after..hi]
      && PageOf(es, after, limit).nextAfterSeq == (if hi == after + limit then Some(hi) else None)
      && (PageOf(es, after, limit).nextAfterSeq.None? ==> hi == |es|)
  {
    QueryOfGapless(es, after, limit);
  }

  // ---- syncTaskEvents --------------------------------------------------------------------------

  const PAGE := 500

  datatype Synced = Synced(count: nat) | Thrown

  /** `after < throughSeq`; None is Infinity. */
  predicate Below(after: nat, through: Option<nat>) {
    through.Some? ==> after < through.value
  }

  /**
   * Merge the pages the fetches return, in order; a fetch without a page fails. The loop ends at a page
   * without cursor or at `through`, and refuses a cursor that does not advance.
   */
  method SyncTaskEvents(store: Store, taskId: string, afterSeq: nat, through: Option<nat>, pages: seq<EventPage>)
    returns (r: Synced)
    requires store.Valid()
    modifies store
    ensures store.Valid()
    ensures r == Sync(afterSeq, through, pages).1
    ensures store.Timeline(taskId) == Appended(old(store.Timeline(taskId)), Sync(afterSeq, through, pages).0)
  {
    var after, count, k := afterSeq, 0, 0;
    ghost var start := store.Timeline(taskId);
    ghost var got := [];
    AppendedNone(start);
    LaterNone(Sync(afterSeq, through, pages));
    assert pages[0..] == pages;
    hide Sync, Later, Appended;
    while Below(after, through)
      invariant store.Valid() && k <= |pages| && count == |got|
      invariant store.Timeline(taskId) == Appended(start, got)
      invariant Sync(afterSeq, through, pages) == Later(got, Sync(after, through, pages[k..]))
      decreases |pages| - k
    {
      SyncStep(got, after, through, pages[k..]);
      if k == |pages| {
        return Thrown;
      }
      var page := pages[k];
      assert pages[k..][0] == page && pages[k..][1..] == pages[k + 1..];
      store.AppendMany(taskId, page.items);
      AppendedTwice(start, got, page.items);
      got, count, k := got + page.items, count + |page.items|, k + 1;
      if page.nextAfterSeq.None? {
        return Synced(count);
      }
      if page.nextAfterSeq.value <= after {
        return Thrown;
      }
      after := page.nextAfterSeq.value;
    }
    SyncEnds(got, after, through, pages[k..]);
    return Synced(count);
  }

  function Later(items: seq<TaskEvent>, rest: (seq<TaskEvent>, Synced)): (seq<TaskEvent>, Synced) {
    (items + rest.0, if rest.1.Synced? then Synced(|items| + rest.1.count) else Thrown)
  }

  /** The events merged by the loop, and how it ends. */
  function Sync(after: nat, through: Option<nat>, pages: seq<EventPage>): (seq<TaskEvent>, Synced)
    decreases |pages|
  {
    if !Below(after, through) then ([], Synced(0))
    else if pages == [] then ([], Thrown)
    else
      var page := pages[0];
      if page.nextAfterSeq.None? then (page.items, Synced(|page.items|))
      else if page.nextAfterSeq.value <= after then (page.items, Thrown)
      else Later(page.items, Sync(page.nextAfterSeq.value, through, pages[1..]))
  }

  lemma LaterTwice(a: seq<TaskEvent>, b: seq<TaskEvent>, rest: (seq<TaskEvent>, Synced))
    ensures Later(a, Later(b, rest)) == Later(a + b, rest)
  {
    assert a + (b + rest.0) == (a + b) + rest.0;
  }

  lemma LaterNone(rest: (seq<TaskEvent>, Synced))
    ensures Later([], rest) == rest
  {
    assert [] + rest.0 == rest.0;
  }

  lemma SyncEnds(got: seq<TaskEvent>, after: nat, through: Option<nat>, pages: seq<EventPage>)
    requires !Below(after, through)
    ensures Later(got, Sync(after, through, pages)) == (got, Synced(|got|))
  {
    assert got + [] == got;
  }

  lemma SyncStep(got: seq<TaskEvent>, after: nat, through: Option<nat>, pages: seq<EventPage>)
    requires Below(after, through)
    ensures pages == [] ==> Later(got, Sync(after, through, pages)) == (got, Thrown)
    ensures pages != [] ==> (
      var all, next := got + pages[0].items, pages[0].nextAfterSeq;
      Later(got, Sync(after, through, pages)) ==
        if next.None? then (all, Synced(|all|))
        else if next.value <= after then (all, Thrown)
        else Later(all, Sync(next.value, through, pages[1..])))
  {
    assert got + [] == got;
    if pages != [] && pages[0].nextAfterSeq.Some? && pages[0].nextAfterSeq.value > after {
      LaterTwice(got, pages[0].items, Sync(pages[0].nextAfterSeq.value, through, pages[1..]));
    }
  }

  lemma {:induction false} AppendedTwice(es: seq<TaskEvent>, a: seq<TaskEvent>, b: seq<TaskEvent>)
    ensures Appended(Appended(es, a), b) == Appended(es, a + b)
  {
    if b == [] {
      assert a + b == a;
    } else {
      AppendedTwice(es, a, b[..|b| - 1]);
      assert (a + b)[..|a + b| - 1] == a + b[..|b| - 1];
    }
  }

  lemma SliceOfPrefix<T>(s: seq<T>, n: nat, lo: nat, hi: nat)
    requires lo <= hi <= n <= |s|
    ensures s[..n][lo..hi] == s[lo..hi]
  {
  }

  /** Page `k` was read from a ledger of `sizes[k]` events, at the cursor the previous page gave. */
  ghost predicate Served(ledger: seq<TaskEvent>, after: nat, pages: seq<EventPage>, sizes: seq<nat>)
    decreases |pages|
  {
    |pages| == |sizes| && (pages == [] ||
      (&& after <= sizes[0] <= |ledger|
       && pages[0] == PageOf(ledger[..sizes[0]], after, PAGE)
       && (pages[0].nextAfterSeq.Some? ==>
             Served(ledger, pages[0].nextAfterSeq.value, pages[1..], sizes[1..]))))
  }

  /**
   * Against the server, however much the ledger grows between pages: the loop never meets a cursor that
   * does not advance, and when it ends it has merged everything after `after` up to `through`, or up to
   * the end of the ledger as last read.
   */
  lemma {:induction false} SyncIsComplete(
      ledger: seq<TaskEvent>, after: nat, through: Option<nat>, pages: seq<EventPage>, sizes: seq<nat>)
    returns (hi: nat)
    requires Gapless(ledger) && after <= |ledger| && Served(ledger, after, pages, sizes)
    ensures after <= hi <= |ledger|
    ensures Sync(after, through, pages).0 == ledger[after..hi]
    ensures Sync(after, through, pages).1.Synced? ==> Sync(after, through, pages).1.count == hi - after
    ensures Sync(after, through, pages).1.Synced? ==> !Below(hi, through) || hi in sizes
    ensures Sync(after, through, pages).1.Thrown? ==> hi == after + PAGE * |pages|
    decreases |pages|
  {
    hi := after;
    if Below(after, through) && pages != [] {
      var small := ledger[..sizes[0]];
      PageIsSlice(small, after, PAGE);
      var next := Upto(sizes[0], after, PAGE);
      SliceOfPrefix(ledger, sizes[0], after, next);
      if pages[0].nextAfterSeq.Some? {
        hi := SyncIsComplete(ledger, next, through, pages[1..], sizes[1..]);
        assert ledger[after..next] + ledger[next..hi] == ledger[after..hi];
      } else {
        hi := next;
      }
    }
  }
}
