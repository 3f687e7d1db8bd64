/**
 Service.List of internal/taskservice/list_get.go and snapshotIDs of resolve.go: keyset pagination
 over a store that may change between pages, and between the reads of one page.
 */
module Listing {
  import opened Wrappers
  import opened Strings

  type Id = string

  // ---------------------------------------------------------------------------------------
  // What one call reads

  /**
   The reads of one List call, each at its own moment: the directory listing, the labels that
   snapshotIDs reads, whether List's own ReadMeta succeeds, and each task's resolved state.
   */
  datatype View = View(listed: seq<Id>, labels: map<Id, seq<string>>, readable: set<Id>, states: map<Id, string>)

  const STATES: seq<string> := ["dead", "exited", "running", "unknown"]

  ghost predicate ValidView(v: View) {
    && Distinct(v.listed) && (forall id :: id in v.listed ==> id != "")
    && (forall id :: id in v.listed ==> id in v.states && v.states[id] in STATES)
  }

  datatype Cursor = Cursor(lastId: Id, newestFirst: bool, labels: seq<string>, states: seq<string>)

  /** A request; `cursor` is the decoded one.  Limit 0 means unbounded. */
  datatype Request = Request(
    labels: seq<string>, states: seq<string>, limit: int, cursor: Option<Cursor>, newestFirst: bool)

  datatype Error = InvalidLimit | InvalidState | CursorOrdering | CursorFilters

  datatype Page = Page(tasks: seq<Id>, total: nat, next: Option<Cursor>)

  // ---------------------------------------------------------------------------------------
  // Specification of a page

  predicate Before(newestFirst: bool, a: Id, b: Id) {
    if newestFirst then Less(b, a) else Less(a, b)
  }

  /** In listing order, without repeats. */
  ghost predicate InOrder(newestFirst: bool, s: seq<Id>) {
    forall i, j :: 0 <= i < j < |s| ==> Before(newestFirst, s[i], s[j])
  }

  function Reverse(s: seq<Id>): seq<Id> {
    if s == [] then [] else Reverse(s[1..]) + [s[0]]
  }

  /** The elements that satisfy p, in order. */
  function Keep(p: Id -> bool, s: seq<Id>): seq<Id> {
    if s == [] then []
    else
      var front := Keep(p, s[..|s| - 1]);
      if p(s[|s| - 1]) then front + [s[|s| - 1]] else front
  }

  predicate HasAnyOf(labels: seq<string>, filter: seq<string>) {
    exists l :: l in labels && l in filter
  }

  predicate LabelsMatch(v: View, labels: seq<string>, id: Id) {
    labels == [] || (id in v.labels && HasAnyOf(v.labels[id], labels))
  }

  predicate StateMatches(v: View, states: seq<string>, id: Id) {
    states == [] || (id in v.states && v.states[id] in states)
  }

  /** The task is present for every read of the call and matches both filters. */
  predicate Matches(v: View, labels: seq<string>, states: seq<string>, id: Id) {
    LabelsMatch(v, labels, id) && id in v.readable && StateMatches(v, states, id)
  }

  function MatchesIn(v: View, labels: seq<string>, states: seq<string>): Id -> bool {
    id => Matches(v, labels, states, id)
  }

  function Ordered(v: View, newestFirst: bool): seq<Id> {
    if newestFirst then Reverse(Sort(v.listed)) else Sort(v.listed)
  }

  /** All matching tasks, in listing order. */
  function AllMatching(v: View, r: Request): seq<Id> {
    Keep(MatchesIn(v, r.labels, r.states), Ordered(v, r.newestFirst))
  }

  predicate Passes(newestFirst: bool, cursor: Option<Cursor>, id: Id) {
    cursor.Some? ==> Before(newestFirst, cursor.value.lastId, id)
  }

  function PassesCursor(newestFirst: bool, cursor: Option<Cursor>): Id -> bool {
    id => Passes(newestFirst, cursor, id)
  }

  /** The matching tasks behind the request's cursor. */
  function Remaining(v: View, r: Request): seq<Id> {
    Keep(PassesCursor(r.newestFirst, r.cursor), AllMatching(v, r))
  }

  function FirstOf(limit: int, s: seq<Id>): seq<Id> {
    if 0 < limit < |s| then s[..limit] else s
  }

  function NormalStates(states: seq<string>): seq<string> {
    if Normalized(states) == [] then STATES else Normalized(states)
  }

  function PageOf(v: View, r: Request): Page {
    var rest := Remaining(v, r);
    var tasks := FirstOf(r.limit, rest);
    Page(tasks, |AllMatching(v, r)|,
         if 0 < r.limit < |rest|
         then Some(Cursor(tasks[r.limit - 1], r.newestFirst, Normalized(r.labels), NormalStates(r.states))) else None)
  }

  function Checked(r: Request): Option<Error> {
    if r.limit < 0 then Some(InvalidLimit)
    else if exists s :: s in r.states && s !in STATES then Some(InvalidState)
    else if r.cursor.Some? && r.cursor.value.newestFirst != r.newestFirst then Some(CursorOrdering)
    else if r.cursor.Some?
            && (r.cursor.value.labels != Normalized(r.labels) || r.cursor.value.states != NormalStates(r.states))
    then Some(CursorFilters)
    else None
  }

  // ---------------------------------------------------------------------------------------
  // Filtering a list

  lemma {:induction false} KeepAll(p: Id -> bool, s: seq<Id>)
    requires forall id :: id in s ==> p(id)
    ensures Keep(p, s) == s
  {
    if s != [] {
      KeepAll(p, s[..|s| - 1]);
    }
  }

  lemma KeepSnoc(p: Id -> bool, s: seq<Id>, x: Id)
    ensures Keep(p, s + [x]) == if p(x) then Keep(p, s) + [x] else Keep(p, s)
  {
    assert (s + [x])[..|s|] == s;
  }

  lemma {:induction false} KeepNone(p: Id -> bool, s: seq<Id>)
    requires forall id :: id in s ==> !p(id)
    ensures Keep(p, s) == []
  {
    if s != [] {
      KeepNone(p, s[..|s| - 1]);
    }
  }

  lemma {:induction false} KeepMembers(p: Id -> bool, s: seq<Id>, id: Id)
    ensures id in Keep(p, s) <==> id in s && p(id)
  {
    if s != [] {
      KeepMembers(p, s[..|s| - 1], id);
      assert s == s[..|s| - 1] + [s[|s| - 1]];
    }
  }

  lemma {:induction false} KeepConcat(p: Id -> bool, a: seq<Id>, b: seq<Id>)
    ensures Keep(p, a + b) == Keep(p, a) + Keep(p, b)
  {
    if b == [] {
      assert a + b == a;
    } else {
      KeepConcat(p, a, b[..|b| - 1]);
      KeepSnoc(p, a + b[..|b| - 1], b[|b| - 1]);
      assert a + b[..|b| - 1] + [b[|b| - 1]] == a + b;
    }
  }

  lemma {:induction false} KeepReverse(p: Id -> bool, s: seq<Id>)
    ensures Reverse(Keep(p, s)) == Keep(p, Reverse(s))
  {
    if s != [] {
      KeepReverse(p, s[1..]);
      KeepConcat(p, [s[0]], s[1..]);
      assert [s[0]] + s[1..] == s;
      KeepSnoc(p, Reverse(s[1..]), s[0]);
      KeepSnoc(p, [], s[0]);
      if p(s[0]) {
        assert Keep(p, s)[1..] == Keep(p, s[1..]);
      } else {
        assert Keep(p, s) == Keep(p, s[1..]);
      }
    }
  }

  /** Filtering twice is filtering by both predicates. */
  lemma {:induction false} KeepBoth(p: Id -> bool, q: Id -> bool, both: Id -> bool, s: seq<Id>)
    requires forall id :: id in s ==> (both(id) <==> p(id) && q(id))
    ensures Keep(q, Keep(p, s)) == Keep(both, s)
  {
    if s != [] {
      KeepBoth(p, q, both, s[..|s| - 1]);
      KeepSnoc(q, Keep(p, s[..|s| - 1]), s[|s| - 1]);
    }
  }

  lemma {:induction false} ReverseMembers(s: seq<Id>, id: Id)
    ensures id in Reverse(s) <==> id in s
  {
    if s != [] {
      ReverseMembers(s[1..], id);
      assert s == [s[0]] + s[1..];
    }
  }

  lemma OrderedMembers(v: View, newestFirst: bool, id: Id)
    ensures id in Ordered(v, newestFirst) <==> id in v.listed
  {
    SortSorts(v.listed);
    ReverseMembers(Sort(v.listed), id);
  }

  // ---------------------------------------------------------------------------------------
  // The code

  method HasAnyLabel(labels: seq<string>, filterLabels: seq<string>) returns (found: bool)
    ensures found <==> HasAnyOf(labels, filterLabels)
  {
    for i := 0 to |filterLabels|
      invariant forall k :: 0 <= k < i ==> filterLabels[k] !in labels
    {
      for j := 0 to |labels|
        invariant forall k :: 0 <= k < j ==> labels[k] != filterLabels[i]
      {
        if labels[j] == filterLabels[i] {
          assert labels[j] in labels && labels[j] in filterLabels;
          return true;
        }
      }
    }
    return false;
  }

  function LabelsMatchIn(v: View, labels: seq<string>): Id -> bool {
    id => LabelsMatch(v, labels, id)
  }

  /** The sorted IDs of the tasks that carry one of the labels; all IDs if no label is asked for. */
  method SnapshotIDs(v: View, labels: seq<string>) returns (out: seq<Id>)
    ensures out == Keep(LabelsMatchIn(v, labels), Sort(v.listed))
  {
    var ids := Sort(v.listed);
    if labels == [] {
      KeepAll(LabelsMatchIn(v, labels), ids);
      return ids;
    }
    out := [];
    for i := 0 to |ids|
      invariant out == Keep(LabelsMatchIn(v, labels), ids[..i])
    {
      assert ids[..i + 1][..i] == ids[..i];
      if ids[i] !in v.labels { continue; }
      var found := HasAnyLabel(v.labels[ids[i]], labels);
      if found {
        out := out + [ids[i]];
      }
    }
    assert ids[..|ids|] == ids;
  }

  /** The filters of an accepted request; no state filter if no state needs to be resolved. */
  datatype Filters = Filters(states: Option<set<string>>, labelList: seq<string>, stateList: seq<string>)

  function StateFilter(states: seq<string>): Option<set<string>> {
    var filter := set s | s in states;
    if 0 < |filter| < 4 then Some(filter) else None
  }

  function FiltersOf(r: Request): Filters {
    Filters(StateFilter(r.states), Normalized(r.labels), NormalStates(r.states))
  }

  method CheckRequest(r: Request) returns (result: Result<Filters, Error>)
    ensures result == if Checked(r).Some? then Err(Checked(r).value) else Ok(FiltersOf(r))
  {
    if r.limit < 0 {
      return Err(InvalidLimit);
    }
    var stateFilter: set<string> := {};
    for i := 0 to |r.states|
      invariant stateFilter == set k | 0 <= k < i :: r.states[k]
      invariant forall k :: 0 <= k < i ==> r.states[k] in STATES
    {
      if r.states[i] !in STATES {
        assert r.states[i] in r.states;
        return Err(InvalidState);
      }
      stateFilter := stateFilter + {r.states[i]};
    }
    assert stateFilter == set s | s in r.states;
    if r.cursor.Some? && r.cursor.value.newestFirst != r.newestFirst {
      return Err(CursorOrdering);
    }
    var labels := NormalizedListFilter(r.labels);
    var states := NormalizedListFilter(r.states);
    if |states| == 0 {
      states := STATES;
    }
    if r.cursor.Some? && (r.cursor.value.labels != labels || r.cursor.value.states != states) {
      return Err(CursorFilters);
    }
    return Ok(Filters(if 0 < |stateFilter| < 4 then Some(stateFilter) else None, labels, states));
  }

  /** Readable, and in a wanted state if states are resolved at all. */
  predicate Wanted(v: View, filter: Option<set<string>>, id: Id) {
    id in v.readable && (filter.Some? ==> id in v.states && v.states[id] in filter.value)
  }

  function WantedIn(v: View, filter: Option<set<string>>): Id -> bool {
    id => Wanted(v, filter, id)
  }

  /** List's loop over the snapshot. */
  method Scan(v: View, r: Request, filters: Filters, ids: seq<Id>) returns (page: Page)
    requires r.limit >= 0
    ensures var counted := Keep(WantedIn(v, filters.states), ids);
            var rest := Keep(PassesCursor(r.newestFirst, r.cursor), counted);
            page == Page(FirstOf(r.limit, rest), |counted|,
                         if 0 < r.limit < |rest|
                         then Some(Cursor(rest[r.limit - 1], r.newestFirst, filters.labelList, filters.stateList))
                         else None)
  {
    var wanted, passes := WantedIn(v, filters.states), PassesCursor(r.newestFirst, r.cursor);
    var tasks: seq<Id> := [];
    var total := 0;
    var hasMore := false;
    ghost var counted: seq<Id> := [];
    ghost var rest: seq<Id> := [];
    for i := 0 to |ids|
      invariant counted == Keep(wanted, ids[..i]) && total == |counted|
      invariant rest == Keep(passes, counted)
      invariant tasks == FirstOf(r.limit, rest) && (hasMore <==> 0 < r.limit < |rest|)
    {
      var id := ids[i];
      assert ids[..i + 1][..i] == ids[..i];
      if id !in v.readable { continue; }
      if filters.states.Some? && !(id in v.states && v.states[id] in filters.states.value) { continue; }
      total := total + 1;
      KeepSnoc(passes, counted, id);
      counted := counted + [id];
      if r.cursor.Some? {
        if r.newestFirst && !Less(id, r.cursor.value.lastId) { continue; }
        if !r.newestFirst && !Less(r.cursor.value.lastId, id) { continue; }
      }
      rest := rest + [id];
      if r.limit > 0 && |tasks| >= r.limit {
        hasMore := true;
        continue;
      }
      tasks := tasks + [id];
    }
    assert ids[..|ids|] == ids;
    var next := None;
    if hasMore {
      next := Some(Cursor(tasks[|tasks| - 1], r.newestFirst, filters.labelList, filters.stateList));
    }
    return Page(tasks, total, next);
  }

  lemma {:induction false} SubsetSize(a: set<string>, b: set<string>)
    requires a <= b
    ensures |a| <= |b|
  {
    if a != {} {
      var x :| x in a;
      SubsetSize(a - {x}, b - {x});
    }
  }

  /** Four or more different states are all states there are. */
  lemma FourStatesAreAll(filter: set<string>, s: string)
    requires (forall x :: x in filter ==> x in STATES) && |filter| >= 4 && s in STATES
    ensures s in filter
  {
    var all := {STATES[0], STATES[1], STATES[2], STATES[3]};
    if s !in filter {
      assert |all - {s}| <= 3;
      SubsetSize(filter, all - {s});
    }
  }

  /** Resolving no state at all selects the same tasks, when none or all four are asked for. */
  lemma StateFilterIsExact(v: View, states: seq<string>, id: Id)
    requires ValidView(v) && id in v.listed && forall s :: s in states ==> s in STATES
    ensures Wanted(v, StateFilter(states), id) <==> id in v.readable && StateMatches(v, states, id)
  {
    var filter := set s | s in states;
    if |filter| >= 4 {
      FourStatesAreAll(filter, v.states[id]);
    }
    if states != [] {
      assert states[0] in filter;
    }
  }

  lemma LoopCountsMatching(v: View, r: Request)
    requires ValidView(v) && Checked(r).None?
    ensures var snapshot := Keep(LabelsMatchIn(v, r.labels), Sort(v.listed));
            Keep(WantedIn(v, StateFilter(r.states)), if r.newestFirst then Reverse(snapshot) else snapshot)
            == AllMatching(v, r)
  {
    var labels, wanted := LabelsMatchIn(v, r.labels), WantedIn(v, StateFilter(r.states));
    KeepReverse(labels, Sort(v.listed));
    var ids := Ordered(v, r.newestFirst);
    forall id | id in ids
      ensures MatchesIn(v, r.labels, r.states)(id) <==> labels(id) && wanted(id)
    {
      OrderedMembers(v, r.newestFirst, id);
      StateFilterIsExact(v, r.states, id);
    }
    KeepBoth(labels, wanted, MatchesIn(v, r.labels, r.states), ids);
  }

  method List(v: View, r: Request) returns (result: Result<Page, Error>)
    requires ValidView(v)
    ensures result == if Checked(r).Some? then Err(Checked(r).value) else Ok(PageOf(v, r))
  {
    var checked := CheckRequest(r);
    if checked.Err? {
      return Err(checked.error);
    }
    var filters := checked.value;
    var ids := SnapshotIDs(v, r.labels);
    if r.newestFirst {
      ids := Reverse(ids);
    }
    LoopCountsMatching(v, r);
    var page := Scan(v, r, filters, ids);
    return Ok(page);
  }
}
