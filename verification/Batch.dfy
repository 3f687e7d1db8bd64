/**
 Bulk operations: runBatch of internal/taskservice/lifecycle.go, which applies an operation to each
 selected task, and batchOutcome of internal/mcpserver/dto.go, which counts, ranks and caps the items.
 */
module Batch {
  import opened Wrappers

  datatype Item = Item(ref: string, error: Option<string>, changed: bool, noOp: bool, forced: bool)

  /** The operation's result for the k-th call of the batch; the store may differ at each call. */
  type Operation = (nat, string) -> Item

  /** Every operation labels its item with the ref it was given. */
  ghost predicate LabelsItems(op: Operation) {
    forall k, ref :: op(k, ref).ref == ref
  }

  // ---------------------------------------------------------------------------------------
  // runBatch

  /**
   `cancelled` is the context's error, if any, and `snapshot` the answer of snapshotIDs.  The result
   is None if there is nothing batch-shaped to report.
   */
  method RunBatch(cancelled: Option<string>, names: seq<string>, snapshot: Result<seq<string>, string>, op: Operation)
    returns (items: Option<seq<Item>>, error: Option<string>)
    ensures cancelled.Some? ==> items == None && error == cancelled
    ensures cancelled.None? && names != [] ==>
              && items.Some? && 0 < |items.value| <= |names|
              && (forall k :: 0 <= k < |items.value| ==> items.value[k] == op(k, names[k]))
              && (forall k :: 0 <= k < |items.value| - 1 ==> items.value[k].error.None?)
              && error == items.value[|items.value| - 1].error
              && (error.None? ==> |items.value| == |names|)
    ensures cancelled.None? && names == [] && snapshot.Err? ==> items == None && error == Some(snapshot.error)
    ensures cancelled.None? && names == [] && snapshot.Ok? ==>
              && error == None && items.Some? && |items.value| == |snapshot.value|
              && forall k :: 0 <= k < |items.value| ==> items.value[k] == op(k, snapshot.value[k])
  {
    if cancelled.Some? {
      return None, cancelled;
    }
    var result: seq<Item> := [];
    if |names| > 0 {
      for i := 0 to |names|
        invariant |result| == i && forall k :: 0 <= k < i ==> result[k] == op(k, names[k]) && result[k].error.None?
      {
        var item := op(i, names[i]);
        result := result + [item];
        if item.error.Some? {
          return Some(result), item.error;
        }
      }
      return Some(result), None;
    }
    if snapshot.Err? {
      return None, Some(snapshot.error);
    }
    var ids := snapshot.value;
    for i := 0 to |ids|
      invariant |result| == i && forall k :: 0 <= k < i ==> result[k] == op(k, ids[k])
    {
      result := result + [op(i, ids[i])];
    }
    return Some(result), None;
  }

  // ---------------------------------------------------------------------------------------
  // batchOutcome

  const MAX_BATCH_ITEMS := 50

  datatype Counts = Counts(targeted: nat, changed: nat, noOp: nat, failed: nat)

  datatype Outcome = Outcome(items: seq<Item>, counts: Counts, omitted: nat, failed: bool, error: Option<string>)

  /** Failures first, then what changed something, then the rest. */
  function Priority(item: Item): (p: nat)
    ensures p <= 2
  {
    if item.error.Some? then 0 else if item.changed || item.forced then 1 else 2
  }

  function Ranked(p: nat): Item -> bool {
    item => Priority(item) == p
  }

  function Select(p: Item -> bool, items: seq<Item>): seq<Item> {
    if items == [] then []
    else
      var front := Select(p, items[..|items| - 1]);
      if p(items[|items| - 1]) then front + [items[|items| - 1]] else front
  }

  /** The items of one priority, in order. */
  function Class(p: nat, items: seq<Item>): seq<Item> {
    Select(Ranked(p), items)
  }

  ghost predicate SortedByPriority(items: seq<Item>) {
    forall i, j :: 0 <= i < j < |items| ==> Priority(items[i]) <= Priority(items[j])
  }

  /** t arranges the items by priority and leaves the order within a priority alone. */
  ghost predicate StableSortOf(items: seq<Item>, t: seq<Item>) {
    SortedByPriority(t) && forall p :: 0 <= p <= 2 ==> Class(p, t) == Class(p, items)
  }

  function Insert(s: seq<Item>, x: Item): (r: seq<Item>)
    ensures |r| == |s| + 1
  {
    if s == [] || Priority(s[|s| - 1]) <= Priority(x) then s + [x]
    else Insert(s[..|s| - 1], x) + [s[|s| - 1]]
  }

  /** sort.SliceStable by batchItemPriority: inserts each item behind those that do not rank lower. */
  function StableSorted(items: seq<Item>): (r: seq<Item>)
    ensures |r| == |items|
  {
    if items == [] then [] else Insert(StableSorted(items[..|items| - 1]), items[|items| - 1])
  }

  predicate Failed(item: Item) { item.error.Some? }

  predicate Changed(item: Item) { item.error.None? && item.changed }

  predicate Unchanged(item: Item) { item.error.None? && !item.changed && item.noOp }

  function CountsOf(items: seq<Item>): Counts {
    Counts(|items|, |Select(Changed, items)|, |Select(Unchanged, items)|, |Select(Failed, items)|)
  }

  function Shown(items: seq<Item>): seq<Item> {
    if |items| > MAX_BATCH_ITEMS then StableSorted(items)[..MAX_BATCH_ITEMS] else items
  }

  function Omitted(items: seq<Item>): seq<Item> {
    if |items| > MAX_BATCH_ITEMS then StableSorted(items)[MAX_BATCH_ITEMS..] else []
  }

  // ---------------------------------------------------------------------------------------
  // Stable sorting

  lemma {:induction false} InsertPermutes(s: seq<Item>, x: Item)
    ensures multiset(Insert(s, x)) == multiset(s) + multiset{x}
  {
    if s != [] && Priority(s[|s| - 1]) > Priority(x) {
      InsertPermutes(s[..|s| - 1], x);
      assert s == s[..|s| - 1] + [s[|s| - 1]];
    }
  }

  lemma SelectSnoc(p: Item -> bool, s: seq<Item>, x: Item)
    ensures Select(p, s + [x]) == if p(x) then Select(p, s) + [x] else Select(p, s)
  {
    assert (s + [x])[..|s|] == s;
  }

  /** Inserting puts x behind its own class and leaves the other classes alone. */
  lemma {:induction false} InsertClass(s: seq<Item>, x: Item, p: nat)
    requires SortedByPriority(s)
    ensures Class(p, Insert(s, x)) == Class(p, s + [x])
  {
    SelectSnoc(Ranked(p), s, x);
    if s != [] && Priority(s[|s| - 1]) > Priority(x) {
      var front, last := s[..|s| - 1], s[|s| - 1];
      InsertClass(front, x, p);
      SelectSnoc(Ranked(p), front, x);
      SelectSnoc(Ranked(p), Insert(front, x), last);
    }
  }

  lemma InsertedFrom(s: seq<Item>, x: Item, i: nat)
    requires i <= |s|
    ensures Insert(s, x)[i] in s || Insert(s, x)[i] == x
  {
    InsertPermutes(s, x);
    assert Insert(s, x)[i] in multiset(Insert(s, x));
  }

  lemma {:induction false} InsertSorted(s: seq<Item>, x: Item)
    requires SortedByPriority(s)
    ensures SortedByPriority(Insert(s, x))
  {
    if s != [] && Priority(s[|s| - 1]) > Priority(x) {
      var front, last := s[..|s| - 1], s[|s| - 1];
      InsertSorted(front, x);
      var r := Insert(front, x);
      forall i | 0 <= i < |r| ensures Priority(r[i]) <= Priority(last) {
        InsertedFrom(front, x, i);
      }
    }
  }

  lemma StableInsert(items: seq<Item>, s: seq<Item>, x: Item)
    requires StableSortOf(items, s)
    ensures StableSortOf(items + [x], Insert(s, x))
  {
    InsertSorted(s, x);
    forall p | 0 <= p <= 2 ensures Class(p, Insert(s, x)) == Class(p, items + [x]) {
      InsertClass(s, x, p);
      SelectSnoc(Ranked(p), s, x);
      SelectSnoc(Ranked(p), items, x);
      assert Class(p, s) == Class(p, items);
    }
  }

  /** The sort yields a stable arrangement of the same items. */
  lemma {:induction false} StableSortedIsStableSort(items: seq<Item>)
    ensures StableSortOf(items, StableSorted(items)) && multiset(StableSorted(items)) == multiset(items)
  {
    if items != [] {
      var front, last := items[..|items| - 1], items[|items| - 1];
      StableSortedIsStableSort(front);
      StableInsert(front, StableSorted(front), last);
      InsertPermutes(StableSorted(front), last);
      assert items == front + [last];
    }
  }

  lemma {:induction false} ClassEmpty(p: nat, s: seq<Item>)
    requires forall i :: 0 <= i < |s| ==> Priority(s[i]) < p
    ensures Class(p, s) == []
  {
    if s != [] {
      ClassEmpty(p, s[..|s| - 1]);
    }
  }

  /** A list sorted by priority is its three classes in turn. */
  lemma {:induction false} SortedIsClasses(t: seq<Item>)
    requires SortedByPriority(t)
    ensures t == Class(0, t) + Class(1, t) + Class(2, t)
  {
    if t != [] {
      var front, last := t[..|t| - 1], t[|t| - 1];
      SortedIsClasses(front);
      if Priority(last) < 1 { ClassEmpty(1, front); }
      if Priority(last) < 2 { ClassEmpty(2, front); }
      assert t == front + [last];
    }
  }

  /** There is only one stable arrangement, so any stable sort shows the same items. */
  lemma StableSortUnique(items: seq<Item>, t: seq<Item>)
    ensures StableSortOf(items, t) <==> t == StableSorted(items)
  {
    StableSortedIsStableSort(items);
    if StableSortOf(items, t) {
      SortedIsClasses(t);
      SortedIsClasses(StableSorted(items));
    }
  }

  // ---------------------------------------------------------------------------------------
  // The outcome

  method BatchOutcome(result: Option<seq<Item>>, error: Option<string>) returns (o: Outcome)
    ensures result.None? ==> o == Outcome([], Counts(0, 0, 0, 0), 0, true, error)
    ensures result.Some? ==>
              o == Outcome(Shown(result.value), CountsOf(result.value), |Omitted(result.value)|, error.Some?, error)
  {
    if result.None? {
      return Outcome([], Counts(0, 0, 0, 0), 0, true, error);
    }
    var items: seq<Item> := [];
    var targeted, failed, changed, noOp := 0, 0, 0, 0;
    for i := 0 to |result.value|
      invariant items == result.value[..i]
      invariant Counts(targeted, changed, noOp, failed) == CountsOf(result.value[..i])
    {
      var info := result.value[i];
      assert result.value[..i + 1][..i] == result.value[..i];
      targeted := targeted + 1;
      if info.error.Some? {
        failed := failed + 1;
      } else if info.changed {
        changed := changed + 1;
      } else if info.noOp {
        noOp := noOp + 1;
      }
      items := items + [info];
    }
    assert items == result.value;
    var omitted := 0;
    if |items| > MAX_BATCH_ITEMS {
      StableSortedIsStableSort(items);
      var sorted := StableSorted(items);
      omitted := |items| - MAX_BATCH_ITEMS;
      items := sorted[..MAX_BATCH_ITEMS];
    }
    return Outcome(items, Counts(targeted, changed, noOp, failed), omitted, error.Some?, error);
  }

  // ---------------------------------------------------------------------------------------
  // Conservation

  /** The three counts add up to the targets exactly when every item failed, changed or did nothing. */
  lemma {:induction false} CountsConserve(items: seq<Item>)
    ensures var c := CountsOf(items);
            && c.targeted == |items| && c.failed + c.changed + c.noOp <= c.targeted
            && (c.failed + c.changed + c.noOp == c.targeted
                <==> forall i :: 0 <= i < |items| ==> items[i].error.Some? || items[i].changed || items[i].noOp)
  {
    if items != [] {
      CountsConserve(items[..|items| - 1]);
    }
  }

  /** Shown and omitted items are all items; at most the cap is shown, and no omitted item outranks a shown one. */
  lemma CapConserves(items: seq<Item>)
    ensures |Shown(items)| + |Omitted(items)| == |items| && |Shown(items)| <= MAX_BATCH_ITEMS
    ensures multiset(Shown(items)) + multiset(Omitted(items)) == multiset(items)
    ensures forall i, j :: 0 <= i < |Shown(items)| && 0 <= j < |Omitted(items)|
              ==> Priority(Shown(items)[i]) <= Priority(Omitted(items)[j])
    ensures |Omitted(items)| > 0 ==> |Shown(items)| == MAX_BATCH_ITEMS
  {
    StableSortedIsStableSort(items);
    if |items| > MAX_BATCH_ITEMS {
      assert StableSorted(items) == Shown(items) + Omitted(items);
    }
  }

  /** A failure is omitted only if nothing but failures is shown. */
  lemma FailureOmittedLast(items: seq<Item>, j: nat)
    requires j < |Omitted(items)| && Omitted(items)[j].error.Some?
    ensures |Shown(items)| == MAX_BATCH_ITEMS && forall i :: 0 <= i < |Shown(items)| ==> Shown(items)[i].error.Some?
  {
    CapConserves(items);
    forall i | 0 <= i < |Shown(items)| ensures Shown(items)[i].error.Some? {
      assert Priority(Shown(items)[i]) <= Priority(Omitted(items)[j]);
    }
  }

  lemma {:induction false} NoFailures(items: seq<Item>)
    requires forall i :: 0 <= i < |items| ==> items[i].error.None?
    ensures Select(Failed, items) == []
  {
    if items != [] {
      NoFailures(items[..|items| - 1]);
    }
  }

  /**
   Explicit refs, of which the tool accepts at most the cap: the report shows the processed prefix of
   the request in order, omits nothing, counts at most one failure, and fails exactly if there is one.
   */
  method RunAndReport(names: seq<string>, op: Operation) returns (o: Outcome)
    requires 0 < |names| <= MAX_BATCH_ITEMS && LabelsItems(op)
    ensures o.omitted == 0 && 0 < |o.items| <= |names| && o.counts.targeted == |o.items|
    ensures forall k :: 0 <= k < |o.items| ==> o.items[k].ref == names[k]
    ensures o.counts.failed == (if o.failed then 1 else 0)
    ensures o.failed <==> o.items[|o.items| - 1].error.Some?
    ensures !o.failed ==> |o.items| == |names|
  {
    var items, error := RunBatch(None, names, Ok([]), op);
    o := BatchOutcome(items, error);
    var front := o.items[..|o.items| - 1];
    NoFailures(front);
    SelectSnoc(Failed, front, o.items[|o.items| - 1]);
    assert o.items == front + [o.items[|o.items| - 1]];
  }
}
