/** Go's string order and sort.Strings, used by the task service for IDs and filters. */
module Strings {

  /** a < b, character by character. */
  predicate Less(a: string, b: string) {
    b != [] && (a == [] || a[0] < b[0] || (a[0] == b[0] && Less(a[1..], b[1..])))
  }

  lemma {:induction false} LessTransitive(a: string, b: string, c: string)
    requires Less(a, b) && Less(b, c)
    ensures Less(a, c)
  {
    if a != [] && a[0] == b[0] == c[0] {
      LessTransitive(a[1..], b[1..], c[1..]);
    }
  }

  lemma {:induction false} LessIrreflexive(a: string)
    ensures !Less(a, a)
  {
    if a != [] {
      LessIrreflexive(a[1..]);
    }
  }

  lemma {:induction false} LessTotal(a: string, b: string)
    ensures Less(a, b) || a == b || Less(b, a)
  {
    if a != [] && b != [] && a[0] == b[0] {
      LessTotal(a[1..], b[1..]);
      if a[1..] == b[1..] {
        assert a == [a[0]] + a[1..] && b == [b[0]] + b[1..];
      }
    }
  }

  /** Sorted, duplicates allowed. */
  ghost predicate Ascending(s: seq<string>) {
    forall i, j :: 0 <= i < j < |s| ==> s[i] == s[j] || Less(s[i], s[j])
  }

  /** Sorted, without duplicates. */
  ghost predicate StrictlyAscending(s: seq<string>) {
    forall i, j :: 0 <= i < j < |s| ==> Less(s[i], s[j])
  }

  function Insert(x: string, s: seq<string>): (r: seq<string>)
    ensures |r| == |s| + 1
  {
    if s == [] || !Less(s[0], x) then [x] + s else [s[0]] + Insert(x, s[1..])
  }

  /** The sorted arrangement of s: sort.Strings and slices.Sort. */
  function Sort(s: seq<string>): (r: seq<string>)
    ensures |r| == |s|
  {
    if s == [] then [] else Insert(s[0], Sort(s[1..]))
  }

  lemma {:induction false} InsertMembers(x: string, s: seq<string>)
    ensures forall y :: y in Insert(x, s) <==> y == x || y in s
  {
    if s != [] && Less(s[0], x) {
      InsertMembers(x, s[1..]);
      assert s == [s[0]] + s[1..];
    }
  }

  lemma {:induction false} InsertSorted(x: string, s: seq<string>)
    requires Ascending(s)
    ensures Ascending(Insert(x, s))
  {
    var r := Insert(x, s);
    if s == [] {
    } else if Less(s[0], x) {
      InsertSorted(x, s[1..]);
      InsertMembers(x, s[1..]);
      forall j | 0 < j < |r| ensures r[0] == r[j] || Less(r[0], r[j]) {
        assert r[j] in Insert(x, s[1..]);
      }
    } else {
      LessTotal(x, s[0]);
      forall j | 0 < j < |r| ensures r[0] == r[j] || Less(r[0], r[j]) {
        if Less(x, s[0]) && Less(s[0], s[j - 1]) { LessTransitive(x, s[0], s[j - 1]); }
      }
    }
  }

  lemma {:induction false} InsertStrict(x: string, s: seq<string>)
    requires StrictlyAscending(s) && x !in s
    ensures StrictlyAscending(Insert(x, s))
  {
    var r := Insert(x, s);
    InsertSorted(x, s);
    InsertMembers(x, s);
    if s != [] && Less(s[0], x) {
      InsertStrict(x, s[1..]);
      InsertMembers(x, s[1..]);
      forall j | 0 < j < |r| ensures Less(r[0], r[j]) {
        assert r[j] in Insert(x, s[1..]);
      }
    } else if s != [] {
      LessTotal(x, s[0]);
      forall j | 0 < j < |r| ensures Less(r[0], r[j]) {
        if j > 1 { LessTransitive(x, s[0], s[j - 1]); }
      }
    }
  }

  ghost predicate Distinct(s: seq<string>) {
    forall i, j :: 0 <= i < j < |s| ==> s[i] != s[j]
  }

  /** Sorting keeps the elements and orders them. */
  lemma {:induction false} SortSorts(s: seq<string>)
    ensures Ascending(Sort(s)) && forall y :: y in Sort(s) <==> y in s
  {
    if s != [] {
      SortSorts(s[1..]);
      InsertSorted(s[0], Sort(s[1..]));
      InsertMembers(s[0], Sort(s[1..]));
      assert s == [s[0]] + s[1..];
    }
  }

  lemma {:induction false} InsertPermutes(x: string, s: seq<string>)
    ensures multiset(Insert(x, s)) == multiset(s) + multiset{x}
  {
    if s != [] && Less(s[0], x) {
      InsertPermutes(x, s[1..]);
      assert s == [s[0]] + s[1..];
    }
  }

  lemma {:induction false} SortPermutes(s: seq<string>)
    ensures multiset(Sort(s)) == multiset(s)
  {
    if s != [] {
      SortPermutes(s[1..]);
      InsertPermutes(s[0], Sort(s[1..]));
      assert s == [s[0]] + s[1..];
    }
  }

  lemma {:induction false} SortDistinct(s: seq<string>)
    requires Distinct(s)
    ensures StrictlyAscending(Sort(s))
  {
    if s != [] {
      SortDistinct(s[1..]);
      SortSorts(s[1..]);
      assert s[0] !in s[1..];
      InsertStrict(s[0], Sort(s[1..]));
    }
  }

  lemma EmptyIff(a: seq<string>, b: seq<string>)
    requires forall y :: y in a <==> y in b
    ensures a == [] <==> b == []
  {
    if a != [] { assert a[0] in b; }
    if b != [] { assert b[0] in a; }
  }

  lemma HeadIsLeast(a: seq<string>, y: string)
    requires StrictlyAscending(a) && y in a
    ensures y == a[0] || Less(a[0], y)
  {
  }

  lemma TailMembers(a: seq<string>, y: string)
    requires StrictlyAscending(a) && a != []
    ensures y in a[1..] <==> y in a && y != a[0]
  {
    LessIrreflexive(a[0]);
    assert a == [a[0]] + a[1..];
    if y in a[1..] {
      var i :| 0 <= i < |a[1..]| && a[1..][i] == y;
      assert Less(a[0], a[i + 1]);
    }
  }

  /** A strictly ascending list is determined by its elements. */
  lemma {:induction false} StrictUnique(a: seq<string>, b: seq<string>)
    requires StrictlyAscending(a) && StrictlyAscending(b)
    requires forall y :: y in a <==> y in b
    ensures a == b
    decreases |a|
  {
    if a == [] || b == [] {
      EmptyIff(a, b);
    } else {
      assert a[0] in b && b[0] in a;
      HeadIsLeast(a, b[0]);
      HeadIsLeast(b, a[0]);
      if a[0] != b[0] { LessTransitive(a[0], b[0], a[0]); LessIrreflexive(a[0]); }
      forall y ensures y in a[1..] <==> y in b[1..] {
        TailMembers(a, y);
        TailMembers(b, y);
      }
      StrictUnique(a[1..], b[1..]);
      assert a == [a[0]] + a[1..] && b == [b[0]] + b[1..];
    }
  }

  // ---------------------------------------------------------------------------------------
  // normalizedListFilter

  function Compacted(s: seq<string>): (r: seq<string>)
    ensures |r| <= |s|
  {
    if |s| <= 1 then s
    else
      var front := Compacted(s[..|s| - 1]);
      if s[|s| - 1] == s[|s| - 2] then front else front + [s[|s| - 1]]
  }

  /** slices.Compact: drops every element equal to its predecessor. */
  method Compact(s: seq<string>) returns (r: seq<string>)
    ensures r == Compacted(s)
  {
    if |s| <= 1 {
      return s;
    }
    r := [s[0]];
    for i := 1 to |s|
      invariant r == Compacted(s[..i])
    {
      assert s[..i + 1][..i] == s[..i];
      if s[i] != s[i - 1] {
        r := r + [s[i]];
      }
    }
    assert s[..|s|] == s;
  }

  lemma {:induction false} CompactedProperties(s: seq<string>)
    requires Ascending(s)
    ensures var r := Compacted(s);
            && StrictlyAscending(r) && (forall y :: y in r <==> y in s)
            && (s != [] ==> r != [] && r[|r| - 1] == s[|s| - 1])
    decreases |s|
  {
    if |s| > 1 {
      var front, last := s[..|s| - 1], s[|s| - 1];
      CompactedProperties(front);
      assert s == front + [last];
      var c := Compacted(front);
      if last != s[|s| - 2] {
        forall i | 0 <= i < |c| ensures Less(c[i], last) {
          if i < |c| - 1 { LessTransitive(c[i], c[|c| - 1], last); }
        }
      }
    }
  }

  function Normalized(values: seq<string>): seq<string> {
    Compacted(Sort(values))
  }

  /** The distinct values in strictly ascending order. */
  method NormalizedListFilter(values: seq<string>) returns (r: seq<string>)
    ensures r == Normalized(values) && StrictlyAscending(r)
    ensures forall y :: y in r <==> y in values
  {
    SortSorts(values);
    CompactedProperties(Sort(values));
    r := Compact(Sort(values));
  }

  /** Two filter lists normalise equally exactly when they have the same elements. */
  lemma NormalizedIsCanonical(a: seq<string>, b: seq<string>)
    ensures Normalized(a) == Normalized(b) <==> forall y :: y in a <==> y in b
  {
    SortSorts(a);
    SortSorts(b);
    CompactedProperties(Sort(a));
    CompactedProperties(Sort(b));
    if Normalized(a) == Normalized(b) {
      forall y ensures y in a <==> y in b {
        assert y in Normalized(a) <==> y in a;
        assert y in Normalized(b) <==> y in b;
      }
    } else if forall y :: y in a <==> y in b {
      StrictUnique(Normalized(a), Normalized(b));
    }
  }
}
