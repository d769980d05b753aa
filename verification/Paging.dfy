/** Paging back through the transcript the daemon keeps. */
module Paging {
  import opened Results
  import opened Orders
  import opened Transcript

  const CATCH_UP_PAGE_LIMIT: nat := 50
  const HISTORY_PAGE_LIMIT: nat := 10000

  datatype Page = Page(events: seq<Envelope>, next: Option<nat>, reachedStart: bool)

  /** The number of events of the log before sequence number `n`. */
  function CountBelow(log: seq<Envelope>, n: nat): (k: nat)
    ensures k <= |log|
  {
    if log == [] then 0
    else if log[|log| - 1].seqNo < n then |log| else CountBelow(log[..|log| - 1], n)
  }

  lemma {:induction false} CountBelowAt(log: seq<Envelope>, x: nat)
    requires Increasing(log) && x < |log|
    ensures CountBelow(log, log[x].seqNo) == x
  {
    if x == |log| - 1 {
      CountBelowAll(log[..x], log[x].seqNo);
    } else {
      CountBelowAt(log[..|log| - 1], x);
    }
  }

  lemma CountBelowAll(log: seq<Envelope>, n: nat)
    requires forall i :: 0 <= i < |log| ==> log[i].seqNo < n
    ensures CountBelow(log, n) == |log|
  {
  }

  /** `page` is a page of `log` before `before`, starting at index `i`. */
  ghost predicate IsPage(page: Page, log: seq<Envelope>, before: nat, i: nat) {
    var end := CountBelow(log, before);
    && i <= end
    && page.events == log[i..end]
    && (page.reachedStart ==> i == 0)
    && page.next == if page.reachedStart then None else Some(if i < end then log[i].seqNo else before)
  }

  /** The daemon answers every request with a page of `log`. */
  ghost predicate Serves(pages: nat -> Page, log: seq<Envelope>) {
    forall before: nat :: exists i: nat :: IsPage(pages(before), log, before, i)
  }

  lemma JoinSlices(log: seq<Envelope>, i: nat, x: nat)
    requires i <= x <= |log|
    ensures log[i..x] + log[x..] == log[i..]
    ensures multiset(log[x..]) + multiset(log[i..x]) == multiset(log[i..])
  {
    assert log[i..x] + log[x..] == log[i..];
  }

  lemma MoreEvents(log: seq<Envelope>, events: seq<Envelope>, page: seq<Envelope>, i: nat, x: nat)
    requires i <= x <= |log| && page == log[i..x] && multiset(events) == multiset(log[x..])
    ensures multiset(events + page) == multiset(log[i..])
  {
    JoinSlices(log, i, x);
    assert multiset(events + page) == multiset(events) + multiset(page);
  }

  lemma SortedTail(log: seq<Envelope>, events: seq<Envelope>, x: nat)
    requires Increasing(log) && x <= |log| && multiset(events) == multiset(log[x..])
    ensures Dedup(SortBySeq(events)) == log[x..]
  {
    var tail := log[x..];
    assert Increasing(tail);
    DistinctMultiset(tail, events);
    SortIncreases(events);
    BySeqCompares();
    forall a, b | a in SortBySeq(events) && b in SortBySeq(events) && BySeq(a, b) == 0 ensures a == b {
      SameSeqSame(SortBySeq(events), a, b);
    }
    forall i, j | 0 <= i < j < |tail| ensures BySeq(tail[i], tail[j]) <= 0 {
    }
    SortSorts(events, BySeq);
    SortedUnique(SortBySeq(events), tail, BySeq);
    DedupKeeps(tail);
  }

  lemma SameSeqSame(s: seq<Envelope>, a: Envelope, b: Envelope)
    requires Increasing(s) && a in s && b in s && a.seqNo == b.seqNo
    ensures a == b
  {
    var i :| 0 <= i < |s| && s[i] == a;
    var j :| 0 <= j < |s| && s[j] == b;
    assert i == j;
  }

  /** `log[x..]` holds every event after `resume`. */
  predicate Covers(log: seq<Envelope>, x: nat, resume: nat) {
    forall i :: 0 <= i < x && i < |log| ==> log[i].seqNo <= resume
  }

  /**
   * The tail of `log` from before `before` no longer grows: the daemon has no older page, though it says there is one.
   */
  ghost predicate Stuck(pages: nat -> Page, log: seq<Envelope>, x: nat) {
    x < |log| && pages(log[x].seqNo).events == [] && !pages(log[x].seqNo).reachedStart
  }

  /** What the page before `log[x]` brings. */
  lemma PageBrings(log: seq<Envelope>, events: seq<Envelope>, page: Page, i: nat, x: nat)
    requires Increasing(log) && x < |log| && multiset(events) == multiset(log[x..])
    requires IsPage(page, log, log[x].seqNo, i)
    ensures i <= x && multiset(events + page.events) == multiset(log[i..]) && |page.events| == x - i
    ensures page.reachedStart ==> i == 0
    ensures
      if page.next.Some? && page.next.value < log[x].seqNo then i < x && page.next.value == log[i].seqNo
      else page.next.None? == page.reachedStart && (page.reachedStart || (i == x && page.events == []))
  {
    CountBelowAt(log, x);
    MoreEvents(log, events, page.events, i, x);
  }

  lemma {:induction false} NumbersOutgrow(log: seq<Envelope>, x: nat)
    requires Increasing(log) && x < |log|
    ensures x <= log[x].seqNo
  {
    if x > 0 {
      NumbersOutgrow(log, x - 1);
    }
  }

  lemma StopCovers(log: seq<Envelope>, x: nat, resume: nat)
    requires Increasing(log) && (x == 0 || log == [] || (x < |log| && log[x].seqNo <= resume + 1))
    ensures Covers(log, x, resume)
  {
  }

  /**
   * Hydrates a reconnected session: from the transcript tail, pages back to the last event the client received.
   * The result is a tail of the log, and holds everything missed unless the page limit was reached.
   */
  method FetchMissed(tail: seq<Envelope>, atStart: bool, resume: nat, pages: nat -> Page, ghost log: seq<Envelope>,
                     ghost start: nat)
    returns (events: seq<Envelope>, reachedStart: bool)
    requires Increasing(log) && Serves(pages, log)
    requires start <= |log| && tail == log[start..] && (atStart ==> start == 0) && (tail == [] ==> log == [])
    ensures exists x: nat ::
      && x <= start && events == log[x..]
      && (reachedStart ==> x == 0)
      && (|| Covers(log, x, resume)
          || |events| >= |tail| + CATCH_UP_PAGE_LIMIT
          || Stuck(pages, log, x))
  {
    events, reachedStart := tail, atStart;
    var before: nat := if events == [] then 0 else events[0].seqNo;
    var fetched: nat := 0;
    ghost var x: nat := start;
    ghost var done := false;
    while !reachedStart && before > resume + 1
      invariant x <= start && multiset(events) == multiset(log[x..])
      invariant |events| == |log| - x
      invariant reachedStart ==> x == 0
      invariant !done
      invariant tail != [] ==> x < |log| && before == log[x].seqNo
      invariant tail == [] ==> before == 0
      invariant fetched <= CATCH_UP_PAGE_LIMIT && x + fetched <= start
      decreases before
    {
      fetched := fetched + 1;
      if fetched > CATCH_UP_PAGE_LIMIT {
        assert |events| >= |tail| + CATCH_UP_PAGE_LIMIT;
        done := true;
        break;
      }
      var page := pages(before);
      ghost var i: nat :| IsPage(page, log, before, i);
      PageBrings(log, events, page, i, x);
      reachedStart := page.reachedStart;
      events := events + page.events;
      if page.next.Some? && page.next.value < before {
        before := page.next.value;
        x := i;
      } else {
        assert reachedStart || Stuck(pages, log, x);
        x := i;
        done := true;
        break;
      }
    }
    if !done {
      StopCovers(log, x, resume);
    }
    SortedTail(log, events, x);
    events := Dedup(SortBySeq(events));
    assert |log[x..]| == |log| - x;
  }

  datatype HistoryError = TooManyPages | CursorStuck

  /** Pages back to the start of the transcript. What it returns is the whole log. */
  method FetchHistory(cached: seq<Envelope>, atStart: bool, pages: nat -> Page, ghost log: seq<Envelope>,
                      ghost start: nat)
    returns (r: Result<seq<Envelope>, HistoryError>)
    requires Increasing(log) && Serves(pages, log)
    requires start <= |log| && multiset(cached) == multiset(log[start..]) && (atStart ==> start == 0)
    ensures r.Ok? && cached != [] ==> r.value == log
    ensures r == Err(TooManyPages) ==> |log| > HISTORY_PAGE_LIMIT
    ensures r == Err(CursorStuck) ==> exists x: nat :: x <= start && Stuck(pages, log, x)
  {
    SortedTail(log, cached, start);
    var events, reachedStart := Dedup(SortBySeq(cached)), atStart;
    if cached != [] {
      assert cached[0] in multiset(log[start..]);
    }
    var before: nat := if events == [] then 0 else events[0].seqNo;
    var fetched: nat := 0;
    ghost var x: nat := start;
    while !reachedStart && before > 0
      invariant x <= start && multiset(events) == multiset(log[x..])
      invariant reachedStart ==> x == 0
      invariant cached != [] ==> x < |log| && before == log[x].seqNo
      invariant cached == [] ==> before == 0
      invariant fetched <= HISTORY_PAGE_LIMIT && x + fetched <= start
      decreases before
    {
      fetched := fetched + 1;
      if fetched > HISTORY_PAGE_LIMIT {
        return Err(TooManyPages);
      }
      var page := pages(before);
      ghost var i: nat :| IsPage(page, log, before, i);
      PageBrings(log, events, page, i, x);
      reachedStart := page.reachedStart;
      events := events + page.events;
      if page.next.Some? && page.next.value < before {
        before := page.next.value;
        x := i;
      } else if page.next.Some? && !reachedStart {
        assert Stuck(pages, log, x);
        return Err(CursorStuck);
      } else {
        x := i;
        break;
      }
    }
    SortedTail(log, events, x);
    if cached != [] && before == 0 {
      NumbersOutgrow(log, x);
    }
    assert cached != [] ==> x == 0;
    assert log[0..] == log;
    events := Dedup(SortBySeq(events));
    return Ok(events);
  }
}
