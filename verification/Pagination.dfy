/** Following next_cursor through a store that changes between the pages. */
module Pagination {
  import opened Wrappers
  import opened Strings
  import opened Listing

  // ---------------------------------------------------------------------------------------
  // Order of one page

  lemma BeforeTransitive(newestFirst: bool, a: Id, b: Id, c: Id)
    requires Before(newestFirst, a, b) && Before(newestFirst, b, c)
    ensures Before(newestFirst, a, c)
  {
    if newestFirst { LessTransitive(c, b, a); } else { LessTransitive(a, b, c); }
  }

  lemma BeforeIrreflexive(newestFirst: bool, a: Id)
    ensures !Before(newestFirst, a, a)
  {
    LessIrreflexive(a);
  }

  lemma {:induction false} KeepInOrder(newestFirst: bool, p: Id -> bool, s: seq<Id>)
    requires InOrder(newestFirst, s)
    ensures InOrder(newestFirst, Keep(p, s))
  {
    if s != [] {
      var front, last := s[..|s| - 1], s[|s| - 1];
      KeepInOrder(newestFirst, p, front);
      var kept := Keep(p, front);
      forall i | 0 <= i < |kept| ensures Before(newestFirst, kept[i], last) {
        KeepMembers(p, front, kept[i]);
      }
    }
  }

  lemma {:induction false} ReverseInOrder(s: seq<Id>)
    requires StrictlyAscending(s)
    ensures InOrder(true, Reverse(s))
  {
    if s != [] {
      ReverseInOrder(s[1..]);
      var r := Reverse(s[1..]);
      forall i | 0 <= i < |r| ensures Before(true, r[i], s[0]) {
        ReverseMembers(s[1..], r[i]);
      }
    }
  }

  lemma MatchingInOrder(v: View, r: Request)
    requires ValidView(v)
    ensures InOrder(r.newestFirst, AllMatching(v, r)) && InOrder(r.newestFirst, Remaining(v, r))
  {
    SortDistinct(v.listed);
    if r.newestFirst { ReverseInOrder(Sort(v.listed)); }
    KeepInOrder(r.newestFirst, MatchesIn(v, r.labels, r.states), Ordered(v, r.newestFirst));
    KeepInOrder(r.newestFirst, PassesCursor(r.newestFirst, r.cursor), AllMatching(v, r));
  }

  lemma RemainingMembers(v: View, r: Request, id: Id)
    ensures id in Remaining(v, r)
      <==> id in v.listed && Matches(v, r.labels, r.states, id) && Passes(r.newestFirst, r.cursor, id)
  {
    OrderedMembers(v, r.newestFirst, id);
    KeepMembers(MatchesIn(v, r.labels, r.states), Ordered(v, r.newestFirst), id);
    KeepMembers(PassesCursor(r.newestFirst, r.cursor), AllMatching(v, r), id);
  }

  // ---------------------------------------------------------------------------------------
  // Chains of pages

  function NextRequest(r: Request, page: Page): Request {
    r.(cursor := page.next)
  }

  /** The pages a client gets that repeats the request with each next cursor, one view a call. */
  function Follow(views: seq<View>, r: Request): seq<Page> {
    if views == [] then []
    else
      var page := PageOf(views[0], r);
      [page] + if page.next.None? then [] else Follow(views[1..], NextRequest(r, page))
  }

  function Ids(pages: seq<Page>): seq<Id> {
    if pages == [] then [] else pages[0].tasks + Ids(pages[1..])
  }

  /** The client has reached a page without a next cursor. */
  predicate Ended(pages: seq<Page>) {
    pages != [] && pages[|pages| - 1].next.None?
  }

  ghost predicate ValidViews(views: seq<View>) {
    forall i :: 0 <= i < |views| ==> ValidView(views[i])
  }

  /** The service accepts each next cursor for the same filters and order. */
  lemma NextCursorAccepted(v: View, r: Request)
    requires Checked(r).None?
    ensures Checked(NextRequest(r, PageOf(v, r))).None?
  {
  }

  /** The IDs of a page come behind its request's cursor, and up to its next cursor. */
  lemma PageBounds(v: View, r: Request)
    requires ValidView(v)
    ensures var page := PageOf(v, r);
            && InOrder(r.newestFirst, page.tasks)
            && (forall id :: id in page.tasks ==> Passes(r.newestFirst, r.cursor, id))
            && (page.next.Some? ==>
                  && Passes(r.newestFirst, r.cursor, page.next.value.lastId)
                  && forall id :: id in page.tasks
                       ==> id == page.next.value.lastId || Before(r.newestFirst, id, page.next.value.lastId))
  {
    MatchingInOrder(v, r);
    var page, rest := PageOf(v, r), Remaining(v, r);
    forall id | id in page.tasks ensures Passes(r.newestFirst, r.cursor, id) {
      assert id in rest;
      RemainingMembers(v, r, id);
    }
    if page.next.Some? {
      assert page.tasks[r.limit - 1] in page.tasks;
    }
  }

  lemma ChainLinks(newestFirst: bool, cursor: Option<Cursor>, page: Page, later: seq<Id>)
    requires page.next.Some? && Passes(newestFirst, cursor, page.next.value.lastId)
    requires InOrder(newestFirst, page.tasks) && InOrder(newestFirst, later)
    requires forall id :: id in page.tasks
               ==> id == page.next.value.lastId || Before(newestFirst, id, page.next.value.lastId)
    requires forall id :: id in later ==> Passes(newestFirst, page.next, id)
    ensures InOrder(newestFirst, page.tasks + later)
    ensures forall id :: id in later ==> Passes(newestFirst, cursor, id)
  {
    var last := page.next.value.lastId;
    forall i, j | 0 <= i < |page.tasks| && 0 <= j < |later|
      ensures Before(newestFirst, page.tasks[i], later[j])
    {
      assert page.tasks[i] in page.tasks && later[j] in later;
      if page.tasks[i] != last { BeforeTransitive(newestFirst, page.tasks[i], last, later[j]); }
    }
    forall id | id in later ensures Passes(newestFirst, cursor, id) {
      if cursor.Some? { BeforeTransitive(newestFirst, cursor.value.lastId, last, id); }
    }
  }

  /** Whatever happens to the store between the calls, no ID is returned twice or out of order. */
  lemma {:induction false} ChainInOrder(views: seq<View>, r: Request)
    requires ValidViews(views)
    ensures InOrder(r.newestFirst, Ids(Follow(views, r)))
    ensures forall id :: id in Ids(Follow(views, r)) ==> Passes(r.newestFirst, r.cursor, id)
    decreases |views|
  {
    if views != [] {
      var page := PageOf(views[0], r);
      PageBounds(views[0], r);
      if page.next.Some? {
        var next := NextRequest(r, page);
        ChainInOrder(views[1..], next);
        var later := Ids(Follow(views[1..], next));
        assert Follow(views, r)[1..] == Follow(views[1..], next);
        assert Ids(Follow(views, r)) == page.tasks + later;
        ChainLinks(r.newestFirst, r.cursor, page, later);
      } else {
        assert Follow(views, r) == [page];
        assert Ids([page]) == page.tasks + Ids([]);
      }
    }
  }

  /** How often an ID occurs. */
  function Count(s: seq<Id>, id: Id): nat {
    multiset(s)[id]
  }

  /** The task is there, and matches, in every view. */
  ghost predicate MatchesThroughout(views: seq<View>, r: Request, id: Id) {
    forall i :: 0 <= i < |views| ==> id in views[i].listed && Matches(views[i], r.labels, r.states, id)
  }

  lemma {:induction false} InOrderCountsOnce(newestFirst: bool, s: seq<Id>, id: Id)
    requires InOrder(newestFirst, s)
    ensures Count(s, id) == if id in s then 1 else 0
  {
    if s != [] {
      InOrderCountsOnce(newestFirst, s[1..], id);
      assert s == [s[0]] + s[1..];
      BeforeIrreflexive(newestFirst, s[0]);
      forall k | 0 <= k < |s[1..]| ensures s[1..][k] != s[0] {
        assert Before(newestFirst, s[0], s[k + 1]);
      }
    }
  }

  /** A matching task behind the cursor is on the page or behind the next cursor. */
  lemma SplitsPage(v: View, r: Request, id: Id)
    requires ValidView(v) && id in v.listed && Matches(v, r.labels, r.states, id)
    requires Passes(r.newestFirst, r.cursor, id)
    ensures var page := PageOf(v, r);
            id in page.tasks || (page.next.Some? && Passes(r.newestFirst, page.next, id))
  {
    RemainingMembers(v, r, id);
    MatchingInOrder(v, r);
    var rest := Remaining(v, r);
    var k :| 0 <= k < |rest| && rest[k] == id;
    if 0 < r.limit < |rest| && k < r.limit {
      assert rest[..r.limit][k] == id;
    }
  }

  lemma {:induction false} MatchingTaskReturned(views: seq<View>, r: Request, id: Id)
    requires ValidViews(views) && Ended(Follow(views, r))
    requires MatchesThroughout(views, r, id) && Passes(r.newestFirst, r.cursor, id)
    ensures id in Ids(Follow(views, r))
    decreases |views|
  {
    var page := PageOf(views[0], r);
    SplitsPage(views[0], r, id);
    if id !in page.tasks {
      var next := NextRequest(r, page);
      assert Follow(views, r)[1..] == Follow(views[1..], next);
      MatchingTaskReturned(views[1..], next, id);
    }
  }

  /** When the chain has ended, a task that matched throughout was returned exactly once. */
  lemma MatchingTaskReturnedOnce(views: seq<View>, r: Request, id: Id)
    requires ValidViews(views) && Ended(Follow(views, r))
    requires MatchesThroughout(views, r, id) && Passes(r.newestFirst, r.cursor, id)
    ensures Count(Ids(Follow(views, r)), id) == 1
  {
    ChainInOrder(views, r);
    InOrderCountsOnce(r.newestFirst, Ids(Follow(views, r)), id);
    MatchingTaskReturned(views, r, id);
  }

  /** Only matching tasks are returned. */
  lemma {:induction false} OnlyMatchingReturned(views: seq<View>, r: Request, id: Id)
    requires id in Ids(Follow(views, r))
    ensures exists i :: 0 <= i < |views| && id in views[i].listed && Matches(views[i], r.labels, r.states, id)
    decreases |views|
  {
    var page := PageOf(views[0], r);
    if id in page.tasks {
      RemainingMembers(views[0], r, id);
    } else {
      assert Follow(views, r)[1..] == if page.next.None? then [] else Follow(views[1..], NextRequest(r, page));
      OnlyMatchingReturned(views[1..], NextRequest(r, page), id);
      var i :| 0 <= i < |views[1..]| && id in views[1..][i].listed && Matches(views[1..][i], r.labels, r.states, id);
      assert views[i + 1] == views[1..][i];
    }
  }

  // ---------------------------------------------------------------------------------------
  // A store that does not change

  function Repeat(v: View, n: nat): seq<View> {
    seq(n, _ => v)
  }

  lemma NoneUpToElement(newestFirst: bool, cursor: Cursor, s: seq<Id>, k: nat)
    requires InOrder(newestFirst, s) && k < |s| && cursor.lastId == s[k]
    ensures forall id :: id in s[..k + 1] ==> !Passes(newestFirst, Some(cursor), id)
  {
    forall id | id in s[..k + 1] ensures !Before(newestFirst, s[k], id) {
      BeforeIrreflexive(newestFirst, id);
      if Before(newestFirst, s[k], id) && Before(newestFirst, id, s[k]) { BeforeTransitive(newestFirst, id, s[k], id); }
    }
  }

  /** What is behind an element of an ordered list is the rest of the list. */
  lemma BehindElement(newestFirst: bool, cursor: Cursor, s: seq<Id>, k: nat)
    requires InOrder(newestFirst, s) && k < |s| && cursor.lastId == s[k]
    ensures Keep(PassesCursor(newestFirst, Some(cursor)), s) == s[k + 1..]
  {
    var p, front, back := PassesCursor(newestFirst, Some(cursor)), s[..k + 1], s[k + 1..];
    NoneUpToElement(newestFirst, cursor, s, k);
    KeepNone(p, front);
    KeepAll(p, back);
    KeepConcat(p, front, back);
    assert s == front + back;
  }

  /** What passes a later cursor passes an earlier one. */
  lemma LaterCursorKeepsLess(newestFirst: bool, c: Option<Cursor>, d: Cursor, s: seq<Id>)
    requires Passes(newestFirst, c, d.lastId)
    ensures Keep(PassesCursor(newestFirst, Some(d)), Keep(PassesCursor(newestFirst, c), s))
            == Keep(PassesCursor(newestFirst, Some(d)), s)
  {
    var p, q := PassesCursor(newestFirst, c), PassesCursor(newestFirst, Some(d));
    forall id | id in s ensures q(id) <==> p(id) && q(id) {
      if q(id) && c.Some? { BeforeTransitive(newestFirst, c.value.lastId, d.lastId, id); }
    }
    KeepBoth(p, q, q, s);
  }

  lemma NextRemaining(v: View, r: Request)
    requires ValidView(v) && PageOf(v, r).next.Some?
    ensures 0 < r.limit < |Remaining(v, r)|
    ensures Remaining(v, NextRequest(r, PageOf(v, r))) == Remaining(v, r)[r.limit..]
  {
    var next := PageOf(v, r).next.value;
    MatchingInOrder(v, r);
    PageBounds(v, r);
    LaterCursorKeepsLess(r.newestFirst, r.cursor, next, AllMatching(v, r));
    BehindElement(r.newestFirst, next, Remaining(v, r), r.limit - 1);
  }

  /** The pages end, hold exactly the given tasks, report one total, and all but the last are full. */
  ghost predicate Complete(pages: seq<Page>, tasks: seq<Id>, total: nat, limit: int) {
    && Ended(pages) && Ids(pages) == tasks
    && (forall i :: 0 <= i < |pages| ==> pages[i].total == total)
    && (forall i :: 0 <= i < |pages| - 1 ==> |pages[i].tasks| == limit)
  }

  lemma CompletePrepend(page: Page, later: seq<Page>, tasks: seq<Id>, total: nat, limit: int)
    requires 0 <= limit <= |tasks| && Complete(later, tasks[limit..], total, limit)
    requires page.tasks == tasks[..limit] && page.total == total
    ensures Complete([page] + later, tasks, total, limit)
  {
    var pages := [page] + later;
    assert pages[1..] == later;
    forall i | 0 <= i < |pages| - 1 ensures |pages[i].tasks| == limit {
      if i > 0 { assert pages[i] == later[i - 1]; }
    }
  }

  lemma CompleteSingle(page: Page, limit: int)
    requires page.next.None?
    ensures Complete([page], page.tasks, page.total, limit)
  {
    assert Ids([page]) == page.tasks + Ids([]);
  }

  lemma FollowRepeat(v: View, r: Request, n: nat)
    requires n > 0
    ensures var page := PageOf(v, r);
            Follow(Repeat(v, n), r)
            == [page] + if page.next.None? then [] else Follow(Repeat(v, n - 1), NextRequest(r, page))
  {
    assert Repeat(v, n)[1..] == Repeat(v, n - 1) && Repeat(v, n)[0] == v;
  }

  lemma FixedStoreNext(v: View, r: Request, n: nat)
    requires ValidView(v) && n > 0 && PageOf(v, r).next.Some?
    requires var next := NextRequest(r, PageOf(v, r));
             Complete(Follow(Repeat(v, n - 1), next), Remaining(v, next), |AllMatching(v, next)|, r.limit)
    ensures Complete(Follow(Repeat(v, n), r), Remaining(v, r), |AllMatching(v, r)|, r.limit)
  {
    var page := PageOf(v, r);
    NextRemaining(v, r);
    FollowRepeat(v, r, n);
    CompletePrepend(page, Follow(Repeat(v, n - 1), NextRequest(r, page)), Remaining(v, r), page.total, r.limit);
  }

  lemma FixedStoreLast(v: View, r: Request, n: nat)
    requires n > 0 && PageOf(v, r).next.None?
    ensures Complete(Follow(Repeat(v, n), r), Remaining(v, r), |AllMatching(v, r)|, r.limit)
  {
    FollowRepeat(v, r, n);
    CompleteSingle(PageOf(v, r), r.limit);
  }

  /** On a store that does not change, at most one call per remaining task completes the list. */
  lemma {:induction false} FixedStorePages(v: View, r: Request, n: nat)
    requires ValidView(v) && n > |Remaining(v, r)|
    ensures Complete(Follow(Repeat(v, n), r), Remaining(v, r), |AllMatching(v, r)|, r.limit)
    decreases n
  {
    if PageOf(v, r).next.Some? {
      NextRemaining(v, r);
      FixedStorePages(v, NextRequest(r, PageOf(v, r)), n - 1);
      FixedStoreNext(v, r, n);
    } else {
      FixedStoreLast(v, r, n);
    }
  }

  // ---------------------------------------------------------------------------------------
  // Lazy status

  lemma {:induction false} KeepSame(p: Id -> bool, q: Id -> bool, s: seq<Id>)
    requires forall id :: id in s ==> (p(id) <==> q(id))
    ensures Keep(p, s) == Keep(q, s)
  {
    if s != [] {
      KeepSame(p, q, s[..|s| - 1]);
    }
  }

  /** Without a state filter no state is resolved before paging, and none can change the page. */
  lemma LazyStatusIsExact(v: View, other: map<Id, string>, r: Request)
    requires ValidView(v) && ValidView(v.(states := other)) && Checked(r).None? && StateFilter(r.states).None?
    ensures PageOf(v, r) == PageOf(v.(states := other), r)
  {
    var w := v.(states := other);
    forall id | id in Ordered(v, r.newestFirst)
      ensures MatchesIn(v, r.labels, r.states)(id) <==> MatchesIn(w, r.labels, r.states)(id)
    {
      OrderedMembers(v, r.newestFirst, id);
      StateFilterIsExact(v, r.states, id);
      StateFilterIsExact(w, r.states, id);
    }
    KeepSame(MatchesIn(v, r.labels, r.states), MatchesIn(w, r.labels, r.states), Ordered(v, r.newestFirst));
  }
}
