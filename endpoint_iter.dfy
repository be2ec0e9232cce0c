/** The paging state machine (src/v1/endpoint/iter.rs): an iterator that turns
    one-page queries into a stream of items. It owns an endpoint whose older
    `Page` (src/v1/pagination.rs) it moves forward, the offset the server said
    comes next, a count of items fetched so far, and the buffer of items of
    the last page not yet handed out. The HTTP query is an oracle: a function
    from the page window being asked for to the server's answer. */
module Iter {
  import opened Core
  import opened PaginationV1

  /** One page of results as the server returns it
      (src/v1/definition/batch.rs): where it starts, where the next page
      starts (none when the results are exhausted) and the items. */
  datatype Batch<T> = Batch(offset: u64, next: Option<u64>, data: seq<T>)

  /** The value held by an iterator. `buffer` is kept in storage order: the
      fetched items reversed, so that taking the last element hands them out
      first to last. */
  datatype IterState<T> = IterState(window: Window, next: Option<u64>, count: u64, buffer: seq<T>)

  /** The reverse of `s`. */
  function Reversed<T>(s: seq<T>): (r: seq<T>)
    ensures |r| == |s|
    ensures forall i :: 0 <= i < |s| ==> r[i] == s[|s| - 1 - i]
  {
    if |s| == 0 then [] else [s[|s| - 1]] + Reversed(s[..|s| - 1])
  }

  /** The items still to come out of `s`, first item first. */
  function Pending<T>(s: IterState<T>): seq<T>
  {
    Reversed(s.buffer)
  }

  /** Reversing twice gives the sequence back. */
  lemma ReversedTwice<T>(s: seq<T>)
    ensures Reversed(Reversed(s)) == s
  {
    assert forall i :: 0 <= i < |s| ==> Reversed(Reversed(s))[i] == s[i];
  }

  /** Dropping the last stored item drops the first pending one. */
  lemma ReversedDropLast<T>(s: seq<T>)
    requires |s| > 0
    ensures Reversed(s)[0] == s[|s| - 1]
    ensures Reversed(s[..|s| - 1]) == Reversed(s)[1..]
  {
    assert forall i :: 0 <= i < |s| - 1 ==> Reversed(s[..|s| - 1])[i] == Reversed(s)[1..][i];
  }

  /** `Vec::reverse`: swaps the two ends towards the middle, in place. */
  method ReverseInPlace<T>(v: seq<T>) returns (r: seq<T>)
    ensures r == Reversed(v)
  {
    r := v;
    var n := |v|;
    var i := 0;
    while i < n / 2
      invariant 0 <= i <= n / 2 && |r| == n
      invariant forall k :: 0 <= k < i ==> r[k] == v[n - 1 - k] && r[n - 1 - k] == v[k]
      invariant forall k :: i <= k < n - i ==> r[k] == v[k]
    {
      var front := r[i];
      r := r[i := r[n - 1 - i]][n - 1 - i := front];
      i := i + 1;
    }
  }

  /** `update_current_page`: the fetched items become the buffer, the
      server's `next` is adopted, and the count grows by the number of items,
      stuck at `u64::MAX` rather than wrapping. */
  function UpdatedWith<T>(s: IterState<T>, batch: Batch<T>): (r: IterState<T>)
    ensures r.window == s.window && r.next == batch.next && r.buffer == batch.data
    ensures r.count as int == MinInt(s.count as int + |batch.data|, U64_MAX as int)
  {
    s.(count := SaturatingAdd(s.count, LenAsU64(|batch.data|)), next := batch.next, buffer := batch.data)
  }

  /** `requested`: whether the caller's cap allows another page, and the
      state after shrinking the page limit so the next page does not pass
      the cap. The shrunk limit is `requested ⊖ next`, measured from the
      absolute offset of the next page, not from the number of items
      fetched. */
  function RequestedOf<T>(pages: Pages, s: IterState<T>): (r: (bool, IterState<T>))
    ensures r.1.next == s.next && r.1.count == s.count && r.1.buffer == s.buffer
    ensures pages.All? ==> r == (true, s)
    ensures pages.Limit? && s.count >= pages.requested ==> r == (false, s)
    ensures r.1.window.offset == s.window.offset
    ensures r.1.window != s.window ==>
      r.0 && pages.Limit? && s.next.Some? &&
      r.1.window.limit as int == pages.requested as int - s.next.value as int
    ensures !r.0 ==> r.1 == s
    ensures pages.Limit? && s.count < pages.requested && s.next.Some? &&
            SaturatingAdd(s.next.value, s.window.limit) >= pages.requested ==>
      && (r.0 <==> ValidWindow(Window(s.window.offset, SaturatingSub(pages.requested, s.next.value))))
      && (r.0 ==> r.1.window == s.window.(limit := SaturatingSub(pages.requested, s.next.value)))
    ensures pages.Limit? && s.count < pages.requested &&
            (s.next.None? || SaturatingAdd(s.next.value, s.window.limit) < pages.requested) ==>
      r == (true, s)
  {
    match pages
    case All => (true, s)
    case Limit(requested) =>
      if s.count >= requested then (false, s)
      else
        match s.next
        case None => (true, s)
        case Some(next) =>
          if SaturatingAdd(next, s.window.limit) >= requested then
            match SetLimitOf(s.window, SaturatingSub(requested, next))
            case Err(_) => (false, s)
            case Ok(w) => (true, s.(window := w))
          else (true, s)
  }

  /** The iterator's `next_page`: stop when the cap is reached, when there is
      no next page, or when the window cannot move there; otherwise move the
      window to the next page. */
  function AdvanceOf<T>(pages: Pages, s: IterState<T>): (r: (bool, IterState<T>))
    ensures r.1.next == s.next && r.1.count == s.count && r.1.buffer == s.buffer
    ensures r.0 ==> s.next.Some? && r.1.window.offset == s.next.value
    ensures s.next.None? ==> !r.0
    ensures ValidWindow(s.window) ==>
      (r.0 <==> s.next.Some? && s.next.value < 9_999 &&
                (pages.All? || (s.count < pages.requested && s.next.value < pages.requested)))
  {
    var (proceed, s1) := RequestedOf(pages, s);
    if !proceed then (false, s1)
    else
      match s1.next
      case None => (false, s1)
      case Some(next) =>
        match NextPageOf(s1.window, next)
        case Err(_) => (false, s1)
        case Ok(w) => (true, s1.(window := w))
  }

  /** The window a call to `next` on `s` would query, if it queries at all:
      only when the buffer is empty and the iterator can advance. */
  function QueriedWindow<T>(pages: Pages, s: IterState<T>): (r: Option<Window>)
    ensures r.Some? ==> |s.buffer| == 0 && s.next.Some? && r.value.offset == s.next.value
    ensures |s.buffer| > 0 ==> r.None?
    ensures |s.buffer| == 0 ==> (r.Some? <==> AdvanceOf(pages, s).0)
  {
    if |s.buffer| > 0 then None
    else
      var (proceed, s1) := AdvanceOf(pages, s);
      if proceed then Some(s1.window) else None
  }

  /** `Iterator::next`: the item handed out (`None` ends the iteration) and
      the state after it. With items buffered it hands out the first of them
      and queries nothing. Otherwise it advances, queries once, and hands out
      the first fetched item; an error from the query is handed out as it
      is. */
  function StepOf<T, E>(pages: Pages, s: IterState<T>, query: Window -> Result<Batch<T>, E>)
    : (r: (Option<Result<T, E>>, IterState<T>))
    ensures |s.buffer| > 0 ==> r.1.window == s.window && r.1.next == s.next && r.1.count == s.count
  {
    if |s.buffer| == 0 then
      var (proceed, s1) := AdvanceOf(pages, s);
      if !proceed then (None, s1)
      else
        match query(s1.window)
        case Err(err) => (Some(Err(err)), s1)
        case Ok(batch) =>
          var s2 := UpdatedWith(s1, batch).(buffer := Reversed(batch.data));
          if |s2.buffer| == 0 then (None, s2)
          else (Some(Ok(s2.buffer[|s2.buffer| - 1])), s2.(buffer := s2.buffer[..|s2.buffer| - 1]))
    else
      (Some(Ok(s.buffer[|s.buffer| - 1])), s.(buffer := s.buffer[..|s.buffer| - 1]))
  }

  /** On a valid window, `requested` stops exactly when the cap is reached,
      by the count or by the next offset, and otherwise leaves a valid window
      whose limit is `min(limit, requested - next)`: the next page never
      reaches past offset `requested`. */
  lemma RequestedOnValidWindow<T>(pages: Pages, s: IterState<T>)
    requires ValidWindow(s.window)
    ensures var r := RequestedOf(pages, s);
      && (r.0 <==> pages.All? || (s.count < pages.requested && (s.next.None? || s.next.value < pages.requested)))
      && ValidWindow(r.1.window)
      && (pages.Limit? && r.0 && s.next.Some? ==>
            r.1.window.limit as int == MinInt(s.window.limit as int, pages.requested as int - s.next.value as int))
  {
  }

  /** On a valid window, the iterator's `next_page` moves to the next offset
      exactly when there is one below 9 999 and below the cap, and leaves a
      valid window there whose limit is the old limit cut down by both the
      ceiling and the cap. */
  lemma {:induction false} AdvanceOnValidWindow<T>(pages: Pages, s: IterState<T>)
    requires ValidWindow(s.window)
    ensures var r := AdvanceOf(pages, s);
      && ValidWindow(r.1.window)
      && (r.0 ==> var n := s.next.value as int;
            r.1.window.limit as int ==
              MinInt(MinInt(s.window.limit as int, 9_999 - n),
                     if pages.Limit? then pages.requested as int - n else s.window.limit as int))
  {
    RequestedOnValidWindow(pages, s);
    var t := RequestedOf(pages, s).1;
    if s.next.Some? {
      NextPageKeepsValid(t.window, s.next.value);
    }
  }

  /** Under `Limit(requested)`, every page the iterator asks for ends at or
      before offset `requested`. */
  lemma QueriedWindowWithinCap<T>(pages: Pages, s: IterState<T>)
    requires pages.Limit? && QueriedWindow(pages, s).Some?
    ensures var w := QueriedWindow(pages, s).value;
      w.offset as int + w.limit as int <= pages.requested as int
  {
  }

  /** The cap counts absolute offsets: an iterator made on a page that
      already starts at or past `requested` queries nothing at all. */
  lemma StartPastCapQueriesNothing<T>(requested: u64, w: Window)
    requires w.offset >= requested
    ensures QueriedWindow<T>(Pages.Limit(requested), IterState(w, Some(w.offset), 0, [])).None?
  {
  }

  /** `Limit(68)` from offset 0 with 50 per page: after the first page the
      second is shrunk to the 18 results still wanted. */
  lemma CapShrinksLastPage<T>()
    ensures QueriedWindow<T>(Pages.Limit(68), IterState(Window(0, 50), Some(50), 50, [])) == Some(Window(50, 18))
  {
  }

  /** `Limit(68)` from offset 10 with 50 per page: the second page is shrunk
      to 68 - 60 = 8 results, and once those are handed out (count 58,
      next offset 68) the cap stops the iteration, 10 items short of 68. */
  lemma OffsetStartStopsShort<T>()
    ensures QueriedWindow<T>(Pages.Limit(68), IterState(Window(10, 50), Some(60), 50, [])) == Some(Window(60, 8))
    ensures QueriedWindow<T>(Pages.Limit(68), IterState(Window(60, 8), Some(68), 58, [])).None?
  {
  }

  /** The result of `next` depends on the oracle only through its answer at
      the queried window, and not at all when nothing is queried. */
  lemma StepUsesOnlyQueriedWindow<T, E>(pages: Pages, s: IterState<T>,
                                         q1: Window -> Result<Batch<T>, E>,
                                         q2: Window -> Result<Batch<T>, E>)
    requires QueriedWindow(pages, s).None? || q1(QueriedWindow(pages, s).value) == q2(QueriedWindow(pages, s).value)
    ensures StepOf(pages, s, q1) == StepOf(pages, s, q2)
  {
  }

  /** With items buffered, `next` hands out the first pending item and the
      rest stay pending in order. */
  lemma BufferedStepPopsFront<T, E>(pages: Pages, s: IterState<T>, query: Window -> Result<Batch<T>, E>)
    requires |s.buffer| > 0
    ensures StepOf(pages, s, query).0 == Some(Ok(Pending(s)[0]))
    ensures Pending(StepOf(pages, s, query).1) == Pending(s)[1..]
  {
    ReversedDropLast(s.buffer);
  }

  /** A successful fetch of `data` hands out `data[0]` and leaves the rest
      pending in the order the server sent them; an empty page ends the
      iteration. The count grows by the page's length. */
  lemma FetchStepYieldsFirst<T, E>(pages: Pages, s: IterState<T>, query: Window -> Result<Batch<T>, E>)
    requires QueriedWindow(pages, s).Some?
    requires query(QueriedWindow(pages, s).value).Ok?
    ensures var data := query(QueriedWindow(pages, s).value).value.data;
      var r := StepOf(pages, s, query);
      && (|data| == 0 ==> r.0.None?)
      && (|data| > 0 ==> r.0 == Some(Ok(data[0])) && Pending(r.1) == data[1..])
      && r.1.count as int == MinInt(s.count as int + |data|, U64_MAX as int)
      && r.1.next == query(QueriedWindow(pages, s).value).value.next
  {
    var data := query(QueriedWindow(pages, s).value).value.data;
    ReversedTwice(data);
    if |data| > 0 {
      ReversedDropLast(Reversed(data));
    }
  }

  /** A failed query hands the error out and changes neither the count, nor
      the next offset, nor the (empty) buffer: the window stays where the
      query was made. */
  lemma ErrorStepKeepsProgress<T, E>(pages: Pages, s: IterState<T>, query: Window -> Result<Batch<T>, E>)
    requires QueriedWindow(pages, s).Some?
    requires query(QueriedWindow(pages, s).value).Err?
    ensures var r := StepOf(pages, s, query);
      && r.0 == Some(Err(query(QueriedWindow(pages, s).value).error))
      && r.1 == s.(window := QueriedWindow(pages, s).value)
  {
  }

  /** After a failed query, the next call asks for the very same window:
      re-applying the cap and re-moving to the same offset are both no-ops
      on the window the failed call left behind. */
  lemma {:induction false} ErrorRetriesSameWindow<T, E>(pages: Pages, s: IterState<T>,
                                                         query: Window -> Result<Batch<T>, E>)
    requires ValidWindow(s.window)
    requires QueriedWindow(pages, s).Some?
    requires query(QueriedWindow(pages, s).value).Err?
    ensures QueriedWindow(pages, StepOf(pages, s, query).1) == QueriedWindow(pages, s)
  {
    var w := QueriedWindow(pages, s).value;
    var s1 := StepOf(pages, s, query).1;
    assert s1 == s.(window := w);
    var n := s.next.value;
    var (_, t) := RequestedOf(pages, s);
    assert NextPageOf(t.window, n) == Ok(w);
    NextPageIdempotent(t.window, n);
    match pages
    case All =>
    case Limit(requested) =>
      if SaturatingAdd(n, t.window.limit) >= requested {
        // The cap was applied on the failed call: the limit became
        // `requested - n`, then possibly shrank to `9999 - n`.
        assert t.window.limit as int == requested as int - n as int;
        NextPageKeepsValid(t.window, n);
        if SaturatingAdd(n, w.limit) >= requested {
          assert w.limit as int == requested as int - n as int;
        }
      } else {
        assert SaturatingAdd(n, w.limit) < requested;
      }
  }

  /** `k` calls of `next`, the `queries` being the oracles passed to those
      calls: the results handed out, one per call, and the state after the
      last. The count of items fetched never goes down. */
  function Run<T, E>(pages: Pages, s: IterState<T>, queries: seq<Window -> Result<Batch<T>, E>>)
    : (r: (seq<Option<Result<T, E>>>, IterState<T>))
    ensures |r.0| == |queries|
    ensures r.1.count >= s.count
    decreases |queries|
  {
    if |queries| == 0 then ([], s)
    else
      var (item, s1) := StepOf(pages, s, queries[0]);
      var (items, s2) := Run(pages, s1, queries[1..]);
      ([item] + items, s2)
  }

  /** Items come out in the order the server sent them: draining a buffer
      that holds `Pending(s)` yields exactly those items, first to last,
      whatever oracles are passed, and leaves the window, next offset and
      count as they were. */
  lemma {:induction false} DrainIsFifo<T, E>(pages: Pages, s: IterState<T>,
                                              queries: seq<Window -> Result<Batch<T>, E>>)
    requires |queries| <= |s.buffer|
    ensures var r := Run(pages, s, queries);
      && (forall i :: 0 <= i < |queries| ==> r.0[i] == Some(Ok(Pending(s)[i])))
      && r.1.window == s.window && r.1.next == s.next && r.1.count == s.count
      && Pending(r.1) == Pending(s)[|queries|..]
    decreases |queries|
  {
    if |queries| > 0 {
      BufferedStepPopsFront(pages, s, queries[0]);
      var s1 := StepOf(pages, s, queries[0]).1;
      DrainIsFifo(pages, s1, queries[1..]);
    }
  }

  /** A step keeps the page window within the server's bounds. */
  lemma StepKeepsValid<T, E>(pages: Pages, s: IterState<T>, query: Window -> Result<Batch<T>, E>)
    requires ValidWindow(s.window)
    ensures ValidWindow(StepOf(pages, s, query).1.window)
  {
    if |s.buffer| == 0 {
      var (_, t) := RequestedOf(pages, s);
      if s.next.Some? {
        NextPageKeepsValid(t.window, s.next.value);
      }
    }
  }

  /** Any number of calls keeps the page window within the server's
      bounds, whatever the server answers. */
  lemma {:induction false} RunKeepsValid<T, E>(pages: Pages, s: IterState<T>,
                                                queries: seq<Window -> Result<Batch<T>, E>>)
    requires ValidWindow(s.window)
    ensures ValidWindow(Run(pages, s, queries).1.window)
    decreases |queries|
  {
    if |queries| > 0 {
      StepKeepsValid(pages, s, queries[0]);
      RunKeepsValid(pages, StepOf(pages, s, queries[0]).1, queries[1..]);
    }
  }

  class EndpointIter<T, E> {
    const endpoint: Page
    const pages: Pages
    var currentPage: seq<T>
    var next: Option<u64>
    var count: u64

    function View(): IterState<T>
      reads this, endpoint
    {
      IterState(endpoint.View(), next, count, currentPage)
    }

    ghost predicate Valid()
      reads this, endpoint
    {
      endpoint.Valid()
    }

    /** `EndpointIter::new`: the first page starts at the endpoint's own
        offset; nothing is fetched yet. */
    constructor (endpoint: Page, pages: Pages)
      requires endpoint.Valid()
      ensures this.endpoint == endpoint && this.pages == pages && Valid()
      ensures View() == IterState(endpoint.View(), Some(endpoint.offset), 0, [])
    {
      this.endpoint := endpoint;
      this.pages := pages;
      this.currentPage := [];
      this.next := Some(endpoint.GetOffset());
      this.count := 0;
    }

    method UpdateCurrentPage(batch: Batch<T>)
      modifies this
      ensures View() == UpdatedWith(old(View()), batch)
    {
      count := SaturatingAdd(count, LenAsU64(|batch.data|));
      next := batch.next;
      currentPage := batch.data;
    }

    method Requested() returns (proceed: bool)
      requires Valid()
      modifies endpoint
      ensures Valid()
      ensures (proceed, View()) == RequestedOf(pages, old(View()))
    {
      if pages.Limit? {
        var requested := pages.requested;
        if count >= requested {
          return false;
        }
        if next.Some? {
          var limit := endpoint.GetLimit();
          if SaturatingAdd(next.value, limit) >= requested {
            limit := SaturatingSub(requested, next.value);
            var outcome := endpoint.SetLimit(limit);
            if outcome.Err? {
              return false;
            }
          }
        }
      }
      return true;
    }

    method NextPage() returns (proceed: bool)
      requires Valid()
      modifies endpoint
      ensures Valid()
      ensures (proceed, View()) == AdvanceOf(pages, old(View()))
    {
      proceed := Requested();
      if !proceed {
        return;
      }
      if next.Some? {
        var outcome := endpoint.NextPage(next.value);
        proceed := outcome.Ok?;
      } else {
        proceed := false;
      }
    }

    method Next(query: Window -> Result<Batch<T>, E>) returns (item: Option<Result<T, E>>)
      requires Valid()
      modifies this, endpoint
      ensures Valid()
      ensures (item, View()) == StepOf(pages, old(View()), query)
    {
      if |currentPage| == 0 {
        var proceed := NextPage();
        if !proceed {
          return None;
        }
        match query(endpoint.View()) {
          case Err(err) =>
            return Some(Err(err));
          case Ok(batch) =>
            UpdateCurrentPage(batch);
        }
        currentPage := ReverseInPlace(currentPage);
      }
      if |currentPage| == 0 {
        item := None;
      } else {
        item := Some(Ok(currentPage[|currentPage| - 1]));
        currentPage := currentPage[..|currentPage| - 1];
      }
    }
  }
}
