/**
 * Cursor pagination over a changing set of sessions (src/session-store.ts:185-213, 284-312).
 *
 * Strings are modelled by their place in the collation `localeCompare` uses, so keys and ids are
 * integers; ids that differ are assumed to differ under it.
 */
module Pagination {
  import opened Common

  type Collated = int

  datatype SortKey = StartedAt | LastActivityAt | ProjectName | StatusRank

  datatype Order = Asc | Desc

  datatype Session = Session(
    id: Collated, status: nat, startedAt: Collated, lastActivityAt: Option<Collated>, projectName: Collated, statusValue: Collated)

  datatype Cursor = Cursor(k: Collated, id: Collated)

  datatype Query = Query(status: seq<nat>, sortBy: SortKey, order: Order, limit: nat)

  datatype Page = Page(sessions: seq<Session>, nextCursor: Option<Cursor>, total: nat)

  // ── The order ───────────────────────────────────────────────────────────────

  function SortValue(s: Session, key: SortKey): Collated {
    match key
    case StartedAt => s.startedAt
    case LastActivityAt => if s.lastActivityAt.Some? then s.lastActivityAt.value else s.startedAt
    case ProjectName => s.projectName
    case StatusRank => s.statusValue
  }

  function Dir(order: Order): int { if order == Asc then 1 else -1 }

  /** `compareValues(...) * dir`, as a sign. */
  function Compare(a: Collated, b: Collated, order: Order): int {
    (a - b) * Dir(order)
  }

  /** The comparator: sort value in the chosen order, then id, always ascending. */
  predicate Before(a: Session, b: Session, q: Query) {
    var cmp := Compare(SortValue(a, q.sortBy), SortValue(b, q.sortBy), q.order);
    cmp < 0 || (cmp == 0 && a.id < b.id)
  }

  /** The boundary test: strictly after the cursor. */
  predicate After(s: Session, c: Cursor, q: Query) {
    var cmp := Compare(SortValue(s, q.sortBy), c.k, q.order);
    cmp > 0 || (cmp == 0 && s.id > c.id)
  }

  function CursorOf(s: Session, q: Query): Cursor { Cursor(SortValue(s, q.sortBy), s.id) }

  lemma {:induction false} CursorStandsForSession(a: Session, b: Session, q: Query)
    ensures After(a, CursorOf(b, q), q) <==> Before(b, a, q)
  {
  }

  lemma {:induction false} BeforeIsTotal(a: Session, b: Session, c: Session, q: Query)
    ensures a.id != b.id ==> Before(a, b, q) || Before(b, a, q)
    ensures !(Before(a, b, q) && Before(b, a, q))
    ensures Before(a, b, q) && Before(b, c, q) ==> Before(a, c, q)
  {
  }

  ghost predicate Ordered(s: seq<Session>, q: Query) {
    forall i, j :: 0 <= i < j < |s| ==> Before(s[i], s[j], q)
  }

  ghost predicate UniqueIds(s: seq<Session>) {
    forall i, j :: 0 <= i < j < |s| ==> s[i].id != s[j].id
  }

  // ── Filtering and sorting ───────────────────────────────────────────────────

  predicate Passes(s: Session, q: Query) { q.status == [] || s.status in q.status }

  function Filtered(all: seq<Session>, q: Query): (r: seq<Session>)
    ensures forall x :: x in r <==> x in all && Passes(x, q)
  {
    if all == [] then []
    else
      var rest := Filtered(all[..|all| - 1], q);
      if Passes(all[|all| - 1], q) then rest + [all[|all| - 1]] else rest
  }

  lemma {:induction false} FilteredKeepsUnique(all: seq<Session>, q: Query)
    requires UniqueIds(all)
    ensures UniqueIds(Filtered(all, q))
  {
    if all != [] {
      var init, last := all[..|all| - 1], all[|all| - 1];
      FilteredKeepsUnique(init, q);
      var rest := Filtered(init, q);
      forall i | 0 <= i < |rest| ensures rest[i].id != last.id {
        assert rest[i] in init;
      }
    }
  }

  function Insert(x: Session, s: seq<Session>, q: Query): (r: seq<Session>)
    ensures multiset(r) == multiset(s) + multiset{x}
  {
    if s == [] || Before(x, s[0], q) then [x] + s
    else
      assert s == [s[0]] + s[1..];
      [s[0]] + Insert(x, s[1..], q)
  }

  /** `Array.prototype.sort` with the comparator. */
  function Sorted(s: seq<Session>, q: Query): (r: seq<Session>)
    ensures multiset(r) == multiset(s)
  {
    if s == [] then []
    else
      assert s == s[..|s| - 1] + [s[|s| - 1]];
      Insert(s[|s| - 1], Sorted(s[..|s| - 1], q), q)
  }

  lemma {:induction false} InsertKeepsOrder(x: Session, s: seq<Session>, q: Query)
    requires Ordered(s, q) && forall i :: 0 <= i < |s| ==> s[i].id != x.id
    ensures Ordered(Insert(x, s, q), q)
  {
    if s == [] {
    } else if Before(x, s[0], q) {
      forall j | 0 <= j < |s| ensures Before(x, s[j], q) {
        BeforeIsTotal(x, s[0], s[j], q);
      }
    } else {
      var rest := Insert(x, s[1..], q);
      InsertKeepsOrder(x, s[1..], q);
      BeforeIsTotal(x, s[0], x, q);
      forall j | 0 <= j < |rest| ensures Before(s[0], rest[j], q) {
        assert rest[j] in multiset(rest);
        if rest[j] != x {
          assert rest[j] in multiset(s[1..]);
          assert rest[j] in s[1..];
        }
      }
    }
  }

  lemma {:induction false} SortOrders(s: seq<Session>, q: Query)
    requires UniqueIds(s)
    ensures Ordered(Sorted(s, q), q)
  {
    if s != [] {
      var init, last := s[..|s| - 1], s[|s| - 1];
      SortOrders(init, q);
      var sorted := Sorted(init, q);
      forall i | 0 <= i < |sorted| ensures sorted[i].id != last.id {
        assert sorted[i] in multiset(sorted);
        assert sorted[i] in multiset(init);
        assert sorted[i] in init;
      }
      InsertKeepsOrder(last, sorted, q);
    }
  }

  function View(all: seq<Session>, q: Query): seq<Session> {
    Sorted(Filtered(all, q), q)
  }

  lemma {:induction false} ViewIs(all: seq<Session>, q: Query)
    requires UniqueIds(all)
    ensures Ordered(View(all, q), q)
    ensures forall x :: x in View(all, q) <==> x in all && Passes(x, q)
  {
    FilteredKeepsUnique(all, q);
    SortOrders(Filtered(all, q), q);
    forall x ensures x in View(all, q) <==> x in Filtered(all, q) {
      assert x in View(all, q) <==> x in multiset(View(all, q));
      assert x in Filtered(all, q) <==> x in multiset(Filtered(all, q));
    }
  }

  // ── One page ────────────────────────────────────────────────────────────────

  /** `findCursorBoundary`: in an ordered list, everything before the result is not after the cursor, everything from it on is. */
  method FindCursorBoundary(sorted: seq<Session>, c: Cursor, q: Query) returns (r: nat)
    ensures r == Boundary(sorted, Some(c), q)
  {
    var i := 0;
    while i < |sorted|
      invariant i <= |sorted| && forall k :: 0 <= k < i ==> !After(sorted[k], c, q)
    {
      var cmp := Compare(SortValue(sorted[i], q.sortBy), c.k, q.order);
      if cmp > 0 {
        BoundaryIs(sorted, c, q, i);
        return i;
      }
      if cmp == 0 && sorted[i].id > c.id {
        BoundaryIs(sorted, c, q, i);
        return i;
      }
      i := i + 1;
    }
    BoundaryIs(sorted, c, q, |sorted|);
    return |sorted|;
  }

  function FirstAfter(sorted: seq<Session>, c: Cursor, q: Query, i: nat): (r: nat)
    requires i <= |sorted|
    ensures i <= r <= |sorted|
    ensures forall k :: i <= k < r ==> !After(sorted[k], c, q)
    ensures r < |sorted| ==> After(sorted[r], c, q)
    decreases |sorted| - i
  {
    if i == |sorted| || After(sorted[i], c, q) then i else FirstAfter(sorted, c, q, i + 1)
  }

  function Boundary(sorted: seq<Session>, c: Option<Cursor>, q: Query): (r: nat)
    ensures r <= |sorted|
  {
    match c case None => 0 case Some(cursor) => FirstAfter(sorted, cursor, q, 0)
  }

  lemma {:induction false} BoundaryIs(sorted: seq<Session>, c: Cursor, q: Query, r: nat)
    requires r <= |sorted| && (forall k :: 0 <= k < r ==> !After(sorted[k], c, q)) && (r < |sorted| ==> After(sorted[r], c, q))
    ensures Boundary(sorted, Some(c), q) == r
  {
  }

  lemma {:induction false} BoundarySplits(sorted: seq<Session>, c: Cursor, q: Query)
    requires Ordered(sorted, q)
    ensures forall i :: 0 <= i < |sorted| ==> (i < Boundary(sorted, Some(c), q) <==> !After(sorted[i], c, q))
  {
    var r := Boundary(sorted, Some(c), q);
    forall i | r <= i < |sorted| ensures After(sorted[i], c, q) {
      assert i == r || Before(sorted[r], sorted[i], q);
    }
  }

  function Min(a: nat, b: nat): nat { if a < b then a else b }

  /** The page of an ordered list that begins at `start`. */
  function PageFrom(sorted: seq<Session>, start: nat, q: Query): Page
    requires start <= |sorted|
  {
    var end := Min(start + q.limit, |sorted|);
    var page := sorted[start..end];
    Page(page, if page != [] && end < |sorted| then Some(CursorOf(page[|page| - 1], q)) else None, |sorted|)
  }

  function Paginate(all: seq<Session>, c: Option<Cursor>, q: Query): Page {
    PageFrom(View(all, q), Boundary(View(all, q), c, q), q)
  }

  // ── Walking pages over a changing set ───────────────────────────────────────

  /** What a client holds after `n` requests, the store showing `lists[k]` at request `k`: the sessions got, and where it is. */
  datatype Walk = Walk(got: seq<Session>, cursor: Option<Cursor>, done: bool)

  function WalkPages(lists: seq<seq<Session>>, q: Query, n: nat): Walk
    requires n <= |lists|
  {
    if n == 0 then Walk([], None, false)
    else
      var w := WalkPages(lists, q, n - 1);
      if w.done then w
      else
        var page := Paginate(lists[n - 1], w.cursor, q);
        Walk(w.got + page.sessions, page.nextCursor, page.nextCursor.None?)
  }

  function Count(s: seq<Session>, id: Collated): nat {
    if s == [] then 0 else Count(s[..|s| - 1], id) + if s[|s| - 1].id == id then 1 else 0
  }

  lemma {:induction false} CountOfConcat(a: seq<Session>, b: seq<Session>, id: Collated)
    ensures Count(a + b, id) == Count(a, id) + Count(b, id)
  {
    if b == [] {
      assert a + b == a;
    } else {
      assert (a + b)[..|a + b| - 1] == a + b[..|b| - 1];
      CountOfConcat(a, b[..|b| - 1], id);
    }
  }

  lemma {:induction false} CountOnce(s: seq<Session>, x: Session, q: Query)
    requires Ordered(s, q) && (forall i :: 0 <= i < |s| && s[i].id == x.id ==> s[i] == x)
    ensures Count(s, x.id) == if x in s then 1 else 0
  {
    if s != [] {
      var init, last := s[..|s| - 1], s[|s| - 1];
      CountOnce(init, x, q);
      assert s == init + [last];
      if x in init {
        var i :| 0 <= i < |init| && init[i] == x;
        assert Before(s[i], last, q);
      }
    }
  }

  /** `y` is session `x` as the walk sees it: the same id and sort value, whatever else of it changed. */
  predicate SameKey(y: Session, x: Session, q: Query) {
    y.id == x.id && SortValue(y, q.sortBy) == SortValue(x, q.sortBy)
  }

  ghost predicate Listed(all: seq<Session>, x: Session, q: Query) {
    exists y :: y in all && SameKey(y, x, q) && Passes(y, q)
  }

  /** Every list shows session `x` under its sort value and past the filter; the rest of its record may change. */
  ghost predicate Stable(lists: seq<seq<Session>>, x: Session, q: Query) {
    forall k :: 0 <= k < |lists| ==> UniqueIds(lists[k]) && Listed(lists[k], x, q)
  }

  lemma {:induction false} CursorAt(sorted: seq<Session>, at: nat, last: nat, q: Query)
    requires Ordered(sorted, q) && at < |sorted| && last < |sorted|
    ensures After(sorted[at], CursorOf(sorted[last], q), q) <==> at > last
  {
    CursorStandsForSession(sorted[at], sorted[last], q);
    BeforeIsTotal(sorted[at], sorted[last], sorted[at], q);
    if at < last { assert Before(sorted[at], sorted[last], q); }
    if at > last { assert Before(sorted[last], sorted[at], q); }
  }

  lemma {:induction false} CountInSlice(sorted: seq<Session>, at: nat, start: nat, end: nat, q: Query)
    requires Ordered(sorted, q) && at < |sorted| && start <= end <= |sorted|
    requires forall i :: 0 <= i < |sorted| && sorted[i].id == sorted[at].id ==> sorted[i] == sorted[at]
    ensures Count(sorted[start..end], sorted[at].id) == if start <= at < end then 1 else 0
  {
    var x, page := sorted[at], sorted[start..end];
    CountOnce(page, x, q);
    if start <= at < end {
      assert page[at - start] == x;
    } else {
      forall i | 0 <= i < |page| ensures page[i] != x {
        BeforeIsTotal(x, x, x, q);
        assert if start + i < at then Before(sorted[start + i], x, q) else Before(x, sorted[start + i], q);
      }
    }
  }

  lemma {:induction false} PageFromHolds(sorted: seq<Session>, at: nat, start: nat, q: Query)
    requires Ordered(sorted, q) && at < |sorted| && start <= |sorted| && q.limit > 0
    requires forall i :: 0 <= i < |sorted| && sorted[i].id == sorted[at].id ==> sorted[i] == sorted[at]
    ensures var p := PageFrom(sorted, start, q);
            && Count(p.sessions, sorted[at].id) ==
                 (if at < start || (p.nextCursor.Some? && After(sorted[at], p.nextCursor.value, q)) then 0 else 1)
            && (at < start && p.nextCursor.Some? ==> !After(sorted[at], p.nextCursor.value, q))
  {
    var end := Min(start + q.limit, |sorted|);
    CountInSlice(sorted, at, start, end, q);
    if start < end < |sorted| { CursorAt(sorted, at, end - 1, q); }
    hide Ordered, Count, After;
  }

  /** A page holds a listed session exactly if it lies between the cursors before and after it. */
  lemma {:induction false} PageHolds(all: seq<Session>, c: Option<Cursor>, x: Session, q: Query)
    requires UniqueIds(all) && x in all && Passes(x, q) && q.limit > 0
    ensures var p := Paginate(all, c, q);
            var before := c.Some? && !After(x, c.value, q);
            && Count(p.sessions, x.id) == (if before || (p.nextCursor.Some? && After(x, p.nextCursor.value, q)) then 0 else 1)
            && (before && p.nextCursor.Some? ==> !After(x, p.nextCursor.value, q))
  {
    var sorted := View(all, q);
    ViewIs(all, q);
    OthersDiffer(all, sorted, x, q);
    var at :| 0 <= at < |sorted| && sorted[at] == x;
    var start := Boundary(sorted, c, q);
    if c.Some? { BoundarySplits(sorted, c.value, q); }
    PageFromHolds(sorted, at, start, q);
    hide View, Boundary, PageFrom, Ordered, UniqueIds, Count, After;
  }

  /** What a page holds and its cursor say of a session depends only on the session's id and sort value. */
  lemma {:induction false} ListedPageHolds(all: seq<Session>, c: Option<Cursor>, x: Session, q: Query)
    requires UniqueIds(all) && Listed(all, x, q) && q.limit > 0
    ensures var p := Paginate(all, c, q);
            var before := c.Some? && !After(x, c.value, q);
            && Count(p.sessions, x.id) == (if before || (p.nextCursor.Some? && After(x, p.nextCursor.value, q)) then 0 else 1)
            && (before && p.nextCursor.Some? ==> !After(x, p.nextCursor.value, q))
  {
    var y :| y in all && SameKey(y, x, q) && Passes(y, q);
    PageHolds(all, c, y, q);
    assert forall d :: After(y, d, q) == After(x, d, q);
    hide UniqueIds, Count, After, Paginate, Passes;
  }

  lemma {:induction false} OthersDiffer(all: seq<Session>, sorted: seq<Session>, x: Session, q: Query)
    requires UniqueIds(all) && x in all && forall y :: y in sorted ==> y in all
    ensures forall i :: 0 <= i < |sorted| && sorted[i].id == x.id ==> sorted[i] == x
  {
    forall i | 0 <= i < |sorted| && sorted[i].id == x.id ensures sorted[i] == x {
      assert sorted[i] in all;
    }
  }

  lemma {:induction false} WalkCounts(lists: seq<seq<Session>>, x: Session, q: Query, n: nat)
    requires n <= |lists| && Stable(lists, x, q) && q.limit > 0
    ensures var w := WalkPages(lists, q, n);
            && (w.cursor.Some? ==> Count(w.got, x.id) == if After(x, w.cursor.value, q) then 0 else 1)
            && (w.done ==> Count(w.got, x.id) == 1)
            && (w.done ==> w.cursor.None?) && (!w.done && w.cursor.None? ==> n == 0)
  {
    hide UniqueIds, Listed, Count, After, Paginate;
    CountOfNothing(x.id);
    if n > 0 {
      WalkCounts(lists, x, q, n - 1);
      var w := WalkPages(lists, q, n - 1);
      if !w.done {
        ListedPageHolds(lists[n - 1], w.cursor, x, q);
        CountOfConcat(w.got, Paginate(lists[n - 1], w.cursor, q).sessions, x.id);
      }
    }
  }

  lemma {:induction false} CountOfNothing(id: Collated)
    ensures Count([], id) == 0
  {
  }

  /**
   * Whatever sessions come, go, move or change between requests, a finished walk got every session that
   * stayed listed under an unchanged sort value exactly once, for every limit of at least 1, sort key and order.
   */
  lemma {:induction false} StableSessionsOnce(lists: seq<seq<Session>>, x: Session, q: Query)
    requires Stable(lists, x, q) && q.limit > 0 && WalkPages(lists, q, |lists|).done
    ensures Count(WalkPages(lists, q, |lists|).got, x.id) == 1
  {
    WalkCounts(lists, x, q, |lists|);
  }

  // ── Walking pages of an unchanging set ──────────────────────────────────────

  ghost predicate Unchanging(lists: seq<seq<Session>>, all: seq<Session>) {
    forall k :: 0 <= k < |lists| ==> lists[k] == all
  }

  /** The cursor after the first `from` sessions. */
  function CursorBefore(sorted: seq<Session>, from: nat, q: Query): Option<Cursor>
    requires from <= |sorted|
  {
    if from == 0 then None else Some(CursorOf(sorted[from - 1], q))
  }

  lemma {:induction false} WalkStep(all: seq<Session>, got: seq<Session>, from: nat, q: Query)
    requires UniqueIds(all) && q.limit > 0 && from <= |View(all, q)| && got == View(all, q)[..from]
    ensures var sorted := View(all, q);
            var p := Paginate(all, CursorBefore(sorted, from, q), q);
            if from + q.limit < |sorted| then
              got + p.sessions == sorted[..from + q.limit] && p.nextCursor == CursorBefore(sorted, from + q.limit, q)
            else
              got + p.sessions == sorted && p.nextCursor.None?
  {
    ViewIs(all, q);
    var sorted := View(all, q);
    if from > 0 { BoundaryAfter(sorted, from, q); }
    PageStep(sorted, from, q);
    hide View, PageFrom, Ordered, UniqueIds, CursorOf;
  }

  /** How many sessions `n` full pages hold. */
  function Reach(n: nat, q: Query): nat {
    if n == 0 then 0 else Reach(n - 1, q) + q.limit
  }

  lemma {:induction false} WalkIsPrefix(lists: seq<seq<Session>>, all: seq<Session>, q: Query, n: nat)
    requires n <= |lists| && Unchanging(lists, all) && UniqueIds(all) && q.limit > 0
    ensures var w, sorted := WalkPages(lists, q, n), View(all, q);
            && (w.done ==> w.got == sorted)
            && (!w.done ==> Reach(n, q) <= |sorted| && w.got == sorted[..Reach(n, q)]
                            && w.cursor == CursorBefore(sorted, Reach(n, q), q) && (n > 0 ==> Reach(n, q) < |sorted|))
  {
    hide View, Paginate, UniqueIds, CursorOf;
    if n == 0 {
      NoCursorAtFirst(View(all, q), q);
    } else {
      WalkIsPrefix(lists, all, q, n - 1);
      var w := WalkPages(lists, q, n - 1);
      if !w.done {
        assert lists[n - 1] == all;
        WalkStep(all, w.got, Reach(n - 1, q), q);
      }
    }
  }

  lemma {:induction false} NoCursorAtFirst(sorted: seq<Session>, q: Query)
    ensures CursorBefore(sorted, 0, q) == None
  {
  }

  lemma {:induction false} PageStep(sorted: seq<Session>, from: nat, q: Query)
    requires from <= |sorted| && q.limit > 0
    ensures var p := PageFrom(sorted, from, q);
            if from + q.limit < |sorted| then
              sorted[..from] + p.sessions == sorted[..from + q.limit] && p.nextCursor == Some(CursorOf(sorted[from + q.limit - 1], q))
            else
              sorted[..from] + p.sessions == sorted && p.nextCursor.None?
  {
    hide CursorOf;
  }

  /** The cursor of the `from`-th session points just past it. */
  lemma {:induction false} BoundaryAfter(sorted: seq<Session>, from: nat, q: Query)
    requires Ordered(sorted, q) && 0 < from <= |sorted|
    ensures Boundary(sorted, Some(CursorOf(sorted[from - 1], q)), q) == from
  {
    var c := CursorOf(sorted[from - 1], q);
    forall k | 0 <= k < from ensures !After(sorted[k], c, q) {
      CursorStandsForSession(sorted[k], sorted[from - 1], q);
      BeforeIsTotal(sorted[k], sorted[from - 1], sorted[k], q);
      if k < from - 1 { assert Before(sorted[k], sorted[from - 1], q); }
    }
    if from < |sorted| {
      CursorStandsForSession(sorted[from], sorted[from - 1], q);
      assert Before(sorted[from - 1], sorted[from], q);
    }
    BoundaryIs(sorted, c, q, from);
  }

  /** With no changes the pages concatenate to the sorted, filtered list, within as many requests as it has sessions, plus one. */
  lemma {:induction false} PagesConcatenate(lists: seq<seq<Session>>, all: seq<Session>, q: Query)
    requires Unchanging(lists, all) && UniqueIds(all) && q.limit > 0 && |lists| > |View(all, q)|
    ensures WalkPages(lists, q, |lists|).done && WalkPages(lists, q, |lists|).got == View(all, q)
  {
    WalkIsPrefix(lists, all, q, |lists|);
    ReachGrows(|lists|, q);
  }

  lemma {:induction false} ReachGrows(n: nat, q: Query)
    requires q.limit > 0
    ensures Reach(n, q) >= n
  {
    if n > 0 { ReachGrows(n - 1, q); }
  }

  /** A limit of 0 gives an empty page and no cursor, so the walk ends having got nothing. */
  lemma {:induction false} ZeroLimitEndsAtOnce(all: seq<Session>, c: Option<Cursor>, q: Query)
    requires q.limit == 0
    ensures Paginate(all, c, q).sessions == [] && Paginate(all, c, q).nextCursor.None?
    ensures Paginate(all, c, q).total == |View(all, q)|
  {
  }
}
