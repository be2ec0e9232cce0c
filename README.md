# scholars: paging and field names, in Dafny

A model of the core of `scholars`, a Rust client for the Semantic Scholar
Academic Graph API, together with proofs about it. The model covers five
parts:

- **The bounded page window `Page`.** It is an `offset`/`limit` pair. The
  server accepts a limit of 1 to 100, and `offset + limit` may not pass the
  10 000th result. The source holds two versions of it:
  - the older one uses saturating arithmetic (module `PaginationV1`);
  - the newer one uses checked arithmetic and a `Limit` newtype (modules
    `PaginationV2` and `PaginationLimit`).
- **`ConstrainedU64<MIN, MAX, DEF>`**, a generic bounded integer, with its
  `Limit` and `Offset` instances (modules `Constrained`, `ParameterLimit`
  and `ParameterOffset`).
- **The paging iterator `EndpointIter`** (module `Iter`). It turns one-page
  queries into a stream of items. It is built on the older `Page`.
- **The field-name enums** that select response fields, with their `Display`
  and `From` impls (module `Parameter`), and the enumerations of all fields
  (module `Utils`).
- **`as_non_empty_string` and `StringOrU64`** (module `Serialize`).

`Core` holds `Option`, `Result`, the `u64` newtype, and Rust's checked and
saturating `u64` operations.

How the source's form is kept:

- Structs whose methods take `&mut self` and assign fields are classes:
  both `Page`s, `ConstrainedU64`, the parameter `Limit`/`Offset`, and
  `EndpointIter`. Each method is specified by its whole new state.
- For `Page` (older version) and `EndpointIter`, the new state is given by
  a pure function of the old state: `SetLimitOf`, `NextPageOf`,
  `RequestedOf`, `AdvanceOf` and `StepOf`. Lemmas about those functions
  state what the source promises.
- The pagination `Limit` of src/v1/pagination/limit.rs is a `datatype`,
  because its `set` assigns nothing.

Four behaviours of the source are kept as written, and the contracts say
so:

- **`Limit::set` never stores its argument** (src/v1/pagination/limit.rs:36-39).
  `PaginationLimit.Limit.Set` returns the value after the call, and it
  equals the value before. So the newer `Page::set_limit` never changes the
  page. Its `next_page` moves the offset in the shrinking branch but keeps
  the old limit, so the window can pass the ceiling.
  `PaginationV2.ClampOverrunsCeiling` builds such a page: offset 9 950 with
  limit 100.
- **The iterator's cap is `requested ⊖ next`**, an absolute offset, not the
  number of items still wanted (`Iter.RequestedOf`).
- **A failed query leaves the iterator's progress as it was**, so the next
  call asks for the same window again (`Iter.ErrorRetriesSameWindow`).
- **The cap counts from offset 0, not from where the iterator starts.**
  Under `Limit(r)` the iteration stops once the count or the next offset
  reaches `r` (`Iter.RequestedOnValidWindow`), and every page it queries
  ends at or before offset `r` (`Iter.QueriedWindowWithinCap`). So from
  offset `o`, when each next offset is where the page ended, it hands out at
  most `r - o` items, not `r`. Started at offset 10 with 50 per page under
  `Limit(68)`, it fetches 50 items and then 8, and stops at 58
  (`Iter.OffsetStartStopsShort`). Started at or past offset `r`, it fetches
  nothing (`Iter.StartPastCapQueriesNothing`).

Two places where the `Display` impls are not injective are characterised
exactly:

- `Authors(None)` and `Base(Info(Authors))` both render `authors`.
- `Papers(None)` and `Papers(Some(Info(Title)))` both render `papers.title`.

The `all_*_fields` enumerations never yield the bare `None` forms, so the
names they yield are pairwise distinct.

## Model

| member | source | states |
|---|---|---|
| Core.CheckedAdd | src/v1/pagination/mod.rs:106 | `u64::checked_add`: `Some` exactly when the sum fits in 64 bits, then the sum |
| Core.CheckedSub | src/v1/pagination/mod.rs:36 | `u64::checked_sub`: `Some` exactly when `b <= a`, then the difference |
| Core.SaturatingAdd | src/v1/pagination.rs:87 | `u64::saturating_add`: the sum, capped at `u64::MAX` |
| Core.SaturatingSub | src/v1/pagination.rs:90 | `u64::saturating_sub`: the difference, floored at 0 |
| Core.LenAsU64 | src/v1/endpoint/iter.rs:18 | `len() as u64` is the length for any length that fits in 64 bits |
| PaginationV1.IsValidRange | src/v1/pagination.rs:86-93 | Ok iff `offset + limit < 10 000` (an overflowing sum counts as too large); the error carries offset and limit, with `availiable = max(0, 9 999 - offset)` |
| PaginationV1.IsValidLimit | src/v1/pagination.rs:98-104 | Ok iff `1 <= limit <= 100`; the error carries the rejected limit |
| PaginationV1.CheckBoundaries | src/v1/pagination.rs:108-112 | Ok iff the window is valid; a bad limit is always a `Limit` error, a good limit with a bad range is a `Range` error with the range details |
| PaginationV1.SetLimitOf | src/v1/pagination.rs:59-63 | `set_limit`: succeeds iff the new window is valid, then only the limit changes; otherwise the error of `check_boundaries` |
| PaginationV1.NextPageOf | src/v1/pagination.rs:65-81 | `next_page`: Ok iff `next < 9 999` or the window at `next` still fits; the offset becomes `next` and the limit `min(limit, 9 999 - next)`; the error is `RangeBoundsError(next, limit, 0)` |
| PaginationV1.NextPageKeepsValid | src/v1/pagination.rs:65-81 | On a valid window `next_page` succeeds iff `next < 9 999`, and the new window is valid |
| PaginationV1.NextPageIdempotent | src/v1/pagination.rs:65-81 | Repeating a successful `next_page(next)` changes nothing more |
| PaginationV1.Page.Literal | src/v1/pagination.rs:41 | The struct expression holds the given offset and limit |
| PaginationV1.Page.Default | src/v1/pagination.rs:125-129 | `default()` is offset 0, limit 10, and valid |
| PaginationV1.Page.New | src/v1/pagination.rs:39-42 | A fresh valid page holding the inputs iff the window is valid; otherwise the error of `check_boundaries` |
| PaginationV1.Page.WithOffset | src/v1/pagination.rs:44-47 | A page at `offset` with limit 10 iff `offset + 10 < 10 000`; otherwise the range error |
| PaginationV1.Page.WithLimit | src/v1/pagination.rs:49-51 | A page at offset 0 iff `1 <= limit <= 100`; otherwise a `Limit` error |
| PaginationV1.Page.SetOffset | src/v1/pagination.rs:53-57 | Moves the offset only on success, never touches the limit, and keeps the page valid |
| PaginationV1.Page.SetLimit | src/v1/pagination.rs:59-63 | New state and result are those of `SetLimitOf`; the page is unchanged on error and stays valid |
| PaginationV1.Page.NextPage | src/v1/pagination.rs:65-81 | New state and result are those of `NextPageOf`; the page is unchanged on error and stays valid |
| PaginationLimit.IsValidLimit | src/v1/pagination/limit.rs:21-27 | Ok iff `1 <= limit <= 100`; the error carries the rejected value |
| PaginationLimit.Limit.New | src/v1/pagination/limit.rs:30-33 | A limit iff the value is valid, and `get` returns it |
| PaginationLimit.Limit.Set | src/v1/pagination/limit.rs:36-39 | Ok iff the argument is valid, and the limit after the call is always the limit before it |
| PaginationLimit.Limit.Default | src/v1/pagination/limit.rs:47-51 | `default()` holds 100, which `new` accepts |
| PaginationLimit.ConstantsAgree | src/v1/pagination/limit.rs:66-72 | `MIN > 0`, `MAX <= 100`, `MIN <= MAX` and `MIN <= DEFAULT <= MAX` |
| PaginationV2.CheckedNonZeroSub | src/v1/pagination/mod.rs:35-37 | `Some` iff `b < a`, that is neither underflow nor zero, then the difference |
| PaginationV2.IsValidRange | src/v1/pagination/mod.rs:105-113 | Ok iff `offset + limit <= 9 999` with no overflow; the error carries offset and limit, with `available = Some(9 999 - offset)` when that is positive, else `None` |
| PaginationV2.NoOverflowAtMax | src/v1/pagination/mod.rs:106-110 | `is_valid_range(u64::MAX, 1)` is a range error with `available == None` |
| PaginationV2.Page.Literal | src/v1/pagination/mod.rs:65 | The struct expression holds the given offset and limit |
| PaginationV2.Page.Default | src/v1/pagination/mod.rs:126-130 | `default()` is offset 0 and limit 100, within bounds |
| PaginationV2.Page.New | src/v1/pagination/mod.rs:62-66 | A page iff the limit is valid and the sum is at most 9 999; a bad limit is a `Limit` error whatever the offset; the getters return the inputs |
| PaginationV2.Page.WithOffset | src/v1/pagination/mod.rs:68-72 | A page at `offset` with limit 100 iff `offset + 100 <= 9 999`; otherwise the range error |
| PaginationV2.Page.WithLimit | src/v1/pagination/mod.rs:74-76 | A page at offset 0 iff the limit is valid; otherwise a `Limit` error |
| PaginationV2.Page.SetOffset | src/v1/pagination/mod.rs:78-82 | Moves the offset only on success and never touches the limit |
| PaginationV2.Page.SetLimit | src/v1/pagination/mod.rs:84-88 | The range is checked before the limit; Ok iff both hold; the page never changes |
| PaginationV2.Page.NextPage | src/v1/pagination/mod.rs:90-100 | Ok iff `next < 9 999`, and then the offset is `next`; the limit never changes, so the window is in range iff `next + limit <= 9 999`; at or past 9 999 it fails with `available == None` and keeps the offset |
| PaginationV2.ClampOverrunsCeiling | src/v1/pagination/mod.rs:90-100 | From the default page, `next_page(9 950)` leaves offset 9 950 with limit 100, out of range |
| Constrained.IsValid | src/v1/pagination/parameter/constrained.rs:18-26 | Ok iff `min <= value <= max`; a value above `max` is `Max`, one below `min` (and not above `max`) is `Min` |
| Constrained.AvailableValue | src/v1/pagination/parameter/constrained.rs:42-49 | `None` at or below `min`, `max` above `max`, the value itself in between |
| Constrained.ConstrainedU64.Literal | src/v1/pagination/parameter/constrained.rs:31 | `Self(value)` holds a value in range |
| Constrained.ConstrainedU64.Default | src/v1/pagination/parameter/constrained.rs:69-73 | `default()` holds `def` |
| Constrained.ConstrainedU64.New | src/v1/pagination/parameter/constrained.rs:29-32 | Succeeds iff the value is in range, and `get` then returns it; otherwise the error of `is_valid` |
| Constrained.ConstrainedU64.Set | src/v1/pagination/parameter/constrained.rs:35-39 | Stores the value iff it is in range; on error the held value stays |
| Constrained.ConstrainedU64.Available | src/v1/pagination/parameter/constrained.rs:42-49 | Returns a value exactly when `AvailableValue` does, holding that value |
| Constrained.ConstrainedU64.NewInfallible | src/v1/pagination/parameter/constrained.rs:57-61 | For the full `u64` range, holds any value |
| Constrained.ConstrainedU64.SetInfallible | src/v1/pagination/parameter/constrained.rs:63-66 | For the full `u64` range, stores any value |
| ParameterLimit.FromRangeBoundError | src/v1/pagination/parameter/limit.rs:74-81 | `Min` maps to `Min` and `Max` to `Max` |
| ParameterLimit.ConstantsAgree | src/v1/pagination/parameter/limit.rs:87-97 | `MIN >= 1`, `MAX <= 100`, `MIN <= MAX` and `MIN <= DEF <= MAX` |
| ParameterLimit.Limit.Literal | src/v1/pagination/parameter/limit.rs:17 | The struct expression holds its own copy of a value of range 1..=100 |
| ParameterLimit.Limit.Default | src/v1/pagination/parameter/limit.rs:5-13 | The derived `default()` holds 100 |
| ParameterLimit.Limit.New | src/v1/pagination/parameter/limit.rs:15-18 | Accepts exactly 1..=100 and holds the value; the error is `Max` above 100, else `Min` |
| ParameterLimit.Limit.Set | src/v1/pagination/parameter/limit.rs:20-23 | Stores the value iff it is in 1..=100; keeps the old one on error |
| ParameterLimit.Limit.Available | src/v1/pagination/parameter/limit.rs:25-28 | `None` for 0 and 1, 100 above 100, the value itself from 2 to 100 |
| ParameterOffset.ConstantsAgree | src/v1/pagination/parameter/offset.rs:87-101 | `MIN == 0`, `MAX == u64::MAX`, and `DEF` lies in the range |
| ParameterOffset.Offset.Default | src/v1/pagination/parameter/offset.rs:3-11 | The derived `default()` holds 0 |
| ParameterOffset.Offset.Literal | src/v1/pagination/parameter/offset.rs:15 | The struct expression holds its own copy of a value of the full range |
| ParameterOffset.Offset.New | src/v1/pagination/parameter/offset.rs:13-16 | Holds any `u64`, which `get` returns |
| ParameterOffset.Offset.Set | src/v1/pagination/parameter/offset.rs:18-21 | Never fails; `get` afterwards returns the value |
| Iter.Reversed | src/v1/endpoint/iter.rs:94 | Same length, and element `i` is element `n - 1 - i` of the input |
| Iter.ReversedTwice | src/v1/endpoint/iter.rs:94-97 | Reversing twice gives the sequence back |
| Iter.ReversedDropLast | src/v1/endpoint/iter.rs:97 | Popping the last stored item takes the first pending one and leaves the rest in order |
| Iter.ReverseInPlace | src/v1/endpoint/iter.rs:94 | `Vec::reverse` by swapping the ends towards the middle yields the reverse |
| Iter.UpdatedWith | src/v1/endpoint/iter.rs:17-21 | The buffer becomes the data, `next` the batch's `next`, and the count grows by the data's length, capped at `u64::MAX` |
| Iter.RequestedOf | src/v1/endpoint/iter.rs:26-43 | With `All`, continues and changes nothing; with `Limit(r)` and count at least `r`, stops and changes nothing; with `next = Some(n)` and `n ⊕ limit >= r`, continues iff the window with limit `r ⊖ n` is valid, and then holds that limit; with no next offset or `n ⊕ limit < r`, continues and changes nothing; stopping never changes the state |
| Iter.AdvanceOf | src/v1/endpoint/iter.rs:46-56 | Continues only with a next offset, and then the window starts there; on a valid window, continues iff there is a next offset below 9 999 and, under `Limit(r)`, the count and the next offset are both below `r` |
| Iter.RequestedOnValidWindow | src/v1/endpoint/iter.rs:26-43 | On a valid window, `requested` stops iff the count or the next offset has reached the cap; it keeps the window valid, and the limit it leaves is `min(limit, r - next)` |
| Iter.AdvanceOnValidWindow | src/v1/endpoint/iter.rs:46-56 | On a valid window, moving to the next page keeps it valid, with limit `min(limit, 9 999 - next, r - next)` (no cap term under `All`) |
| Iter.QueriedWindow | src/v1/endpoint/iter.rs:82-86 | A query is made only with an empty buffer and a next offset, and the window starts at that offset; with an empty buffer, one is made exactly when `next_page` proceeds |
| Iter.QueriedWindowWithinCap | src/v1/endpoint/iter.rs:32-38 | Under `Limit(r)`, every queried page ends at or before offset `r` |
| Iter.StartPastCapQueriesNothing | src/v1/endpoint/iter.rs:32-38 | An iterator made on a page starting at or past offset `r` queries nothing under `Limit(r)` |
| Iter.CapShrinksLastPage | src/v1/endpoint/iter.rs:32-38 | `Limit(68)` from offset 0 with 50 per page asks for `Window(50, 18)` second |
| Iter.OffsetStartStopsShort | src/v1/endpoint/iter.rs:26-43 | `Limit(68)` from offset 10 with 50 per page asks for `Window(60, 8)` second and then stops at 58 items |
| Iter.StepOf | src/v1/endpoint/iter.rs:81-98 | With items buffered, the window, next offset and count stay as they are |
| Iter.StepUsesOnlyQueriedWindow | src/v1/endpoint/iter.rs:82-92 | The result of `next` depends on the query only at the queried window, and not at all when nothing is queried |
| Iter.BufferedStepPopsFront | src/v1/endpoint/iter.rs:97 | With items buffered, `next` yields the first pending item and leaves the rest pending in order |
| Iter.FetchStepYieldsFirst | src/v1/endpoint/iter.rs:86-97 | After a successful fetch, an empty page ends the iteration; otherwise `next` yields the page's first item, the rest stay pending in server order, the count grows by the page length (saturating), and `next` is the batch's |
| Iter.ErrorStepKeepsProgress | src/v1/endpoint/iter.rs:86-87 | A failed query yields the error and changes nothing but the window it moved to |
| Iter.ErrorRetriesSameWindow | src/v1/endpoint/iter.rs:78-87 | After a failed query, the next call queries the very same window |
| Iter.Run | src/v1/endpoint/iter.rs:81-98 | `k` calls of `next` yield `k` results, and the count of items fetched never goes down |
| Iter.RunKeepsValid | src/v1/endpoint/iter.rs:81-98 | Any number of calls of `next` keeps the page window within the server's bounds, whatever the server answers |
| Iter.DrainIsFifo | src/v1/endpoint/iter.rs:93-97 | Draining the buffer yields the pending items first to last, whatever the queries, and keeps window, next offset and count |
| Iter.StepKeepsValid | src/v1/endpoint/iter.rs:81-98 | A call of `next` keeps the page window within the server's bounds |
| Iter.EndpointIter.constructor | src/v1/endpoint/iter.rs:60-63 | `next` is the endpoint's offset, the count is 0 and the buffer is empty |
| Iter.EndpointIter.UpdateCurrentPage | src/v1/endpoint/iter.rs:17-21 | The new state is `UpdatedWith` of the old |
| Iter.EndpointIter.Requested | src/v1/endpoint/iter.rs:26-43 | Result and new state are those of `RequestedOf`; the endpoint stays valid |
| Iter.EndpointIter.NextPage | src/v1/endpoint/iter.rs:46-56 | Result and new state are those of `AdvanceOf`; the endpoint stays valid |
| Iter.EndpointIter.Next | src/v1/endpoint/iter.rs:81-98 | Item and new state are those of `StepOf`; the endpoint stays valid |
| Parameter.BasePaperField.FromInfo | src/v1/parameter/paper.rs:59-63 | Wraps in `Info` and renders as the inner field |
| Parameter.PaperField.FromBase | src/v1/parameter/paper.rs:85-89 | Wraps in `Base` and renders as the inner field |
| Parameter.PaperField.FromInfo | src/v1/parameter/paper.rs:91-95 | Is `Base(Info(f))` and renders as `f` |
| Parameter.PaperWithLinksField.CitationsFrom | src/v1/parameter/paper.rs:122-124 | Is `Citations(Some(_))` and renders `citations.` followed by the field |
| Parameter.PaperWithLinksField.ReferencesFrom | src/v1/parameter/paper.rs:127-129 | Is `References(Some(_))` and renders `references.` followed by the field |
| Parameter.PaperWithLinksField.FromBase | src/v1/parameter/paper.rs:132-136 | Wraps in `Base` and renders as the inner field |
| Parameter.PaperWithLinksField.FromInfo | src/v1/parameter/paper.rs:138-142 | Is `Base(Info(f))` and renders as `f` |
| Parameter.PaperWithLinksField.FromAuthorInfo | src/v1/parameter/paper.rs:144-148 | Is `Authors(Some(_))` and renders `authors.` followed by the field |
| Parameter.FullPaperField.CitationsFrom | src/v1/parameter/paper.rs:179-181 | Is `Citations(Some(_))` and renders `citations.` followed by the field |
| Parameter.FullPaperField.ReferencesFrom | src/v1/parameter/paper.rs:184-186 | Is `References(Some(_))` and renders `references.` followed by the field |
| Parameter.FullPaperField.FromBase | src/v1/parameter/paper.rs:189-193 | Wraps in `Base` and renders as the inner field |
| Parameter.FullPaperField.FromInfo | src/v1/parameter/paper.rs:195-199 | Is `Base(Info(f))` and renders as `f` |
| Parameter.FullPaperField.FromAuthor | src/v1/parameter/paper.rs:201-205 | Is `Authors(Some(_))` and renders `authors.` followed by the field |
| Parameter.FullPaperField.FromAuthorInfo | src/v1/parameter/paper.rs:207-211 | Is `Authors(Some(Info(f)))` and renders `authors.` followed by `f` |
| Parameter.AuthorField.FromInfo | src/v1/parameter/author.rs:53-57 | Wraps in `Info` and renders as the inner field |
| Parameter.AuthorWithPapersField.FromAuthor | src/v1/parameter/author.rs:87-91 | Wraps in `Author` and renders as the inner field |
| Parameter.AuthorWithPapersField.FromAuthorInfo | src/v1/parameter/author.rs:93-97 | Is `Author(Info(f))` and renders as `f` |
| Parameter.AuthorWithPapersField.FromBase | src/v1/parameter/author.rs:99-103 | Is `Papers(Some(_))` and renders `papers.` followed by the field |
| Parameter.AuthorWithPapersField.FromInfo | src/v1/parameter/author.rs:105-109 | Is `Papers(Some(Info(f)))` and renders `papers.` followed by `f` |
| Parameter.PaperInfoField.Display | src/v1/parameter/paper.rs:18-29 | The `Display` impl's field name; no contract of its own, its meaning is stated by Parameter.PaperInfoDisplayInjective |
| Parameter.BasePaperField.Display | src/v1/parameter/paper.rs:44-57 | The `Display` impl's field name; no contract of its own, its meaning is stated by Parameter.BasePaperDisplayInjective and Parameter.BaseNamesDotless |
| Parameter.PaperField.Display | src/v1/parameter/paper.rs:74-83 | The `Display` impl's field name; no contract of its own, its meaning is stated by Parameter.PaperDisplayInjective |
| Parameter.PaperWithLinksField.Display | src/v1/parameter/paper.rs:106-118 | The `Display` impl's field name; no contract of its own, its meaning is stated by Parameter.LinksRendering and Parameter.PaperWithLinksDisplayCollision |
| Parameter.FullPaperField.Display | src/v1/parameter/paper.rs:161-175 | The `Display` impl's field name; no contract of its own, its meaning is stated by Parameter.FullRendering and Parameter.FullPaperDisplayCollision |
| Parameter.AuthorInfoField.Display | src/v1/parameter/author.rs:14-21 | The `Display` impl's field name; no contract of its own, its meaning is stated by Parameter.AuthorInfoDisplayInjective |
| Parameter.AuthorField.Display | src/v1/parameter/author.rs:37-51 | The `Display` impl's field name; no contract of its own, its meaning is stated by Parameter.AuthorDisplayInjective and Parameter.AuthorNamesDotless |
| Parameter.AuthorWithPapersField.Display | src/v1/parameter/author.rs:66-85 | The `Display` impl's field name; no contract of its own, its meaning is stated by Parameter.AuthorWithPapersRendering and Parameter.AuthorWithPapersDisplayCollision |
| Parameter.BaseNamesDotless | src/v1/parameter/paper.rs:44-57 | No base paper field name contains a dot |
| Parameter.AuthorNamesDotless | src/v1/parameter/author.rs:37-51 | No author field name contains a dot |
| Parameter.LinkNamesDotless | src/v1/parameter/paper.rs:106-118 | The link and extra prefixes (`authors`, `citations`, `references`, `embedding`, `tldr`, `papers`) contain no dot |
| Parameter.FirstDot | src/v1/parameter/paper.rs:110-115 | The index of the first dot, or the length when there is none |
| Parameter.PathFirstDot | src/v1/parameter/paper.rs:110-115 | In `prefix.field` with a dotless prefix, the first dot ends the prefix |
| Parameter.TextInjective | src/v1/parameter/paper.rs:110-115 | Well-formed plain names and dotted paths render alike iff they are equal |
| Parameter.PaperInfoDisplayInjective | src/v1/parameter/paper.rs:18-29 | Paper info field names are pairwise distinct |
| Parameter.AuthorInfoDisplayInjective | src/v1/parameter/author.rs:14-21 | `authorId` and `name` are distinct |
| Parameter.BasePaperDisplayInjective | src/v1/parameter/paper.rs:44-57 | Base paper field names are pairwise distinct, `Info(f)` rendering as `f` |
| Parameter.PaperDisplayInjective | src/v1/parameter/paper.rs:74-83 | Paper field names are pairwise distinct |
| Parameter.AuthorDisplayInjective | src/v1/parameter/author.rs:37-51 | Author field names are pairwise distinct |
| Parameter.LinksRendering | src/v1/parameter/paper.rs:106-118 | Every paper-with-links name is a dotless name or a dotless prefix, a dot and a field |
| Parameter.PaperWithLinksDisplayCollision | src/v1/parameter/paper.rs:106-118 | Two paper-with-links fields render alike iff they are equal or are `Base(Info(Authors))` and `Authors(None)` |
| Parameter.FullRendering | src/v1/parameter/paper.rs:161-175 | Every full paper name is a dotless name or a dotless prefix, a dot and a field |
| Parameter.FullPaperDisplayCollision | src/v1/parameter/paper.rs:161-175 | Two full paper fields render alike iff they are equal or are `Base(Info(Authors))` and `Authors(None)` |
| Parameter.AuthorWithPapersRendering | src/v1/parameter/author.rs:66-85 | Every author-with-papers name is a dotless name or `papers.` and a field |
| Parameter.AuthorWithPapersDisplayCollision | src/v1/parameter/author.rs:66-85 | Two author-with-papers fields render alike iff they are equal or are `Papers(None)` and `Papers(Some(Info(Title)))` |
| Utils.Map | src/v1/utils.rs:67 | `Iterator::map`: same length, element by element |
| Utils.InMap | src/v1/utils.rs:81 | A value is in the mapped sequence iff it is the image of an element |
| Utils.DistinctAppend | src/v1/utils.rs:66-68 | `chain` of two duplicate-free, disjoint sequences is duplicate-free |
| Utils.DistinctMap | src/v1/utils.rs:96-97 | Mapping a duplicate-free sequence by an injective function keeps it duplicate-free |
| Utils.AllAuthorInfoFields | src/v1/utils.rs:57-59 | The enumeration as the source chains it; no contract of its own, its meaning is stated by Utils.AllAuthorInfoFieldsExactlyOnce |
| Utils.AllAuthorFields | src/v1/utils.rs:66-68 | The enumeration as the source chains it; no contract of its own, its meaning is stated by Utils.AllAuthorFieldsCover and Utils.AllAuthorFieldsExactlyOnce |
| Utils.AllPaperInfoFields | src/v1/utils.rs:71-73 | The enumeration as the source chains it; no contract of its own, its meaning is stated by Utils.AllPaperInfoFieldsExactlyOnce |
| Utils.AllBasePaperFields | src/v1/utils.rs:80-82 | The enumeration as the source chains it; no contract of its own, its meaning is stated by Utils.AllBasePaperFieldsExactlyOnce |
| Utils.AllPaperFields | src/v1/utils.rs:89-91 | The enumeration as the source chains it; no contract of its own, its meaning is stated by Utils.AllPaperFieldsExactlyOnce |
| Utils.AllAuthorWithPapersFields | src/v1/utils.rs:94-98 | The enumeration as the source chains it; no contract of its own, its meaning is stated by Utils.AllAuthorWithPapersFieldsMissesBarePapers and Utils.AllAuthorWithPapersFieldNamesDistinct |
| Utils.AllPaperWithLinksFields | src/v1/utils.rs:101-107 | The enumeration as the source chains it; no contract of its own, its meaning is stated by Utils.AllPaperWithLinksFieldsMissesBareLinks and Utils.AllPaperWithLinksFieldNamesDistinct |
| Utils.AllFullPaperFields | src/v1/utils.rs:114-120 | The enumeration as the source chains it; no contract of its own, its meaning is stated by Utils.AllFullPaperFieldsMissesBareLinks and Utils.AllFullPaperFieldNamesDistinct |
| Utils.PaperFieldsWith | src/v1/utils.rs:126-130 | The enumeration as the source chains it; no contract of its own, its meaning is stated by Utils.PaperFieldsWithContents |
| Utils.AuthorWithPapersFieldsWith | src/v1/utils.rs:136-142 | The enumeration as the source chains it; no contract of its own, its meaning is stated by Utils.AuthorWithPapersFieldsWithContents |
| Utils.AllAuthorInfoFieldsExactlyOnce | src/v1/utils.rs:57-59 | `all_author_info_fields` is exactly `[AuthorId, Name]` |
| Utils.AllPaperInfoFieldsExactlyOnce | src/v1/utils.rs:71-73 | `all_paper_info_fields` yields every paper info field exactly once, 6 in all |
| Utils.AllAuthorFieldsCover | src/v1/utils.rs:61-68 | `all_author_fields` has 10 entries and yields every author field |
| Utils.AllAuthorFieldsExactlyOnce | src/v1/utils.rs:61-68 | `all_author_fields` yields every author field exactly once, 10 in all, the two `Info` variants first |
| Utils.AllBasePaperFieldsExactlyOnce | src/v1/utils.rs:75-82 | `all_base_paper_fields` yields every base paper field exactly once, 13 in all: 7 others, then the 6 `Info` variants |
| Utils.PaperFieldsWithContents | src/v1/utils.rs:126-130 | `paper_fields_with(xs)` is the three exclusive fields, then `Base(x)` for each `x` in order |
| Utils.AllPaperFieldsExactlyOnce | src/v1/utils.rs:84-91 | `all_paper_fields` yields every paper field exactly once, 16 in all, and equals `paper_fields_with(all_base_paper_fields())` |
| Utils.AuthorWithPapersFieldsWithContents | src/v1/utils.rs:136-142 | `author_with_papers_fields_with(xs)` is `Author(a)` for the ten author fields, then `Papers(Some(x))` for each `x` in order |
| Utils.AllAuthorWithPapersFieldsMissesBarePapers | src/v1/utils.rs:93-98 | `all_author_with_papers_fields` yields 23 distinct values: every field except `Papers(None)` |
| Utils.AllPaperWithLinksFieldsMissesBareLinks | src/v1/utils.rs:100-107 | `all_paper_with_links_fields` yields 27 distinct values: every field except the bare `Authors`, `Citations` and `References` |
| Utils.AllFullPaperFieldsMissesBareLinks | src/v1/utils.rs:109-120 | `all_full_paper_fields` yields 37 distinct values: every field except the bare `Authors`, `Citations` and `References` |
| Utils.AllAuthorWithPapersFieldNamesDistinct | src/v1/utils.rs:93-98 | The names of the fields `all_author_with_papers_fields` yields are pairwise distinct |
| Utils.AllPaperWithLinksFieldNamesDistinct | src/v1/utils.rs:100-107 | The names of the fields `all_paper_with_links_fields` yields are pairwise distinct |
| Utils.AllFullPaperFieldNamesDistinct | src/v1/utils.rs:109-120 | The names of the fields `all_full_paper_fields` yields are pairwise distinct |
| Serialize.IsWhitespace | src/serialize.rs:62 | `char::is_whitespace`, which `trim` cuts by; a predicate with no contract, listing the Unicode `White_Space` code points |
| Serialize.Trim | src/serialize.rs:62 | `str::trim` as `trim_end` after `trim_start`; no contract of its own, its meaning is stated by Serialize.TrimIsMaximalSlice, Serialize.TrimEmptyIffBlank and Serialize.TrimIdempotent |
| Serialize.TrimStart | src/serialize.rs:62 | A suffix of the input; everything cut is whitespace; it does not start with whitespace |
| Serialize.TrimEnd | src/serialize.rs:62 | A prefix of the input; everything cut is whitespace; it does not end with whitespace |
| Serialize.TrimIsMaximalSlice | src/serialize.rs:62 | `trim` is a slice of the input with only whitespace around it, and it neither starts nor ends with whitespace |
| Serialize.TrimEmptyIffBlank | src/serialize.rs:62-64 | A string trims to nothing iff it is all whitespace |
| Serialize.TrimIdempotent | src/serialize.rs:62 | Trimming twice is trimming once |
| Serialize.AsNonEmptyString | src/serialize.rs:60-70 | Never empty; `" "` iff the input is blank; otherwise the trimmed input, with no whitespace at either end |
| Serialize.AsNonEmptyStringIdempotent | src/serialize.rs:60-70 | Applied to its own output it returns that output |
| Serialize.Digit | src/serialize.rs:52 | A decimal digit character worth `d` |
| Serialize.DecimalString | src/serialize.rs:52 | `to_string` of a number: decimal digits, no leading zero unless the number is 0 |
| Serialize.ParseDecimal | src/serialize.rs:52 | Reads a numeral back; defined iff the string is a non-empty run of digits |
| Serialize.DecimalRoundTrip | src/serialize.rs:51-53 | The decimal numeral of `n` reads back as `n` |
| Serialize.CanonicalNumeralUnique | src/serialize.rs:51-53 | A string that reads back as `n` with no leading zero is `n.to_string()` |
| Serialize.DecimalInjective | src/serialize.rs:51-53 | Two numbers have the same numeral iff they are equal |
| Serialize.Visit | src/serialize.rs:43-53 | `visit_str`/`visit_string` return the text unchanged; `visit_u64` returns a numeral that reads back as the number and has no leading zero, which pins it to `to_string` |
| Serialize.SerializeAs | src/serialize.rs:19-25 | The string is written unchanged: visiting it gives it back |

## Left out

- HTTP transport, JSON decoding and the query-string encoders (src/reqwest.rs, src/client.rs, src/endpoint.rs, src/query.rs, src/urlencoded.rs, query_string/) are network I/O and foreign library code. In the iterator the query is a function from the page window to the server's answer, passed to each call of `next`.
- `next_async` (src/v1/endpoint/iter.rs:115-132) is step for step the blocking `next`; futures and `Stream` plumbing are not modelled.
- The `Paged` traits only forward to `Page`'s methods; the iterator calls the older `Page` directly.
- Iter.EndpointIter: the endpoint is the older `Page` itself rather than an endpoint struct holding one; the client reference is left out, since it is used only by the query.
- Iter.ReverseInPlace: the buffer is a `seq` value that the method reassigns, so the in-place update of the `Vec` (and any aliasing of it) is not captured; the swap order is.
- The error types' message strings (`thiserror` formatting) and the `Display` of errors are not modelled; errors are datatypes carrying the same data.
- Serialize.Visit: only the string and `u64` tokens of `deserialize_any` are modelled; any other token makes the visitor fail, which is serde's default and not visible here.
- Serialize.IsWhitespace follows Rust's `char::is_whitespace` (the Unicode `White_Space` property) written out as a list of code points.
- Serde derives and field renaming on the structs, the response data types (src/v1/definition/*), the parameter structs (src/v1/query_params.rs) and the endpoint wrappers and URL constants are glue around the modelled core.
- Constrained.ConstrainedU64: the const generics `MIN`, `MAX`, `DEF` become constant fields fixed at construction. The source only documents `MIN <= DEF <= MAX` (src/v1/pagination/parameter/constrained.rs:5-15) and does not check it: `default()` returns `Self(DEF)` as it is, so a badly instantiated type would hold an out-of-range value. The model makes the documented requirement a precondition of every way of making a value, so it does not capture such an instance.
