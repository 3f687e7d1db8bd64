/** Log rotation of internal/state/rotate.go, for any number of kept files. */
module Rotation {
  import opened Wrappers

  /** One line of the log. */
  type Entry = string

  /** File 0 is output.jsonl, file i is output.jsonl.i; a missing file is not in the map. */
  type Files = map<nat, seq<Entry>>

  // ---------------------------------------------------------------------------------------
  // Specification

  function At(files: Files, i: nat): Option<seq<Entry>> {
    if i in files then Some(files[i]) else None
  }

  /** The entries of files i, ..., 1, 0, that is, oldest first. */
  function ReadUpTo(files: Files, i: nat): seq<Entry> {
    (if i in files then files[i] else []) + if i == 0 then [] else ReadUpTo(files, i - 1)
  }

  predicate IsSuffix(s: seq<Entry>, all: seq<Entry>) {
    |s| <= |all| && s == all[|all| - |s|..]
  }

  /** Where file i comes from: the numbered files move up by one, and the current one becomes number 1. */
  function RotatedAt(files: Files, max: nat, i: nat): Option<seq<Entry>> {
    if i == 0 then None
    else if 1 <= i <= max || (i == 1 && 0 in files) then At(files, i - 1)
    else At(files, i)
  }

  function Rotated(files: Files, max: nat): Files {
    map i | i in files.Keys + (set j | j in files.Keys :: j + 1) && RotatedAt(files, max, i).Some?
      :: RotatedAt(files, max, i).value
  }

  lemma RotatedIs(files: Files, max: nat, i: nat)
    ensures At(Rotated(files, max), i) == RotatedAt(files, max, i)
  {
    if RotatedAt(files, max, i).Some? && i !in files.Keys {
      assert i - 1 in files.Keys;
    }
  }

  /** The numbers of the listed files up to i, newest first. */
  function Listed(files: Files, i: nat): (names: seq<nat>)
    ensures forall k :: k in names ==> k in files
  {
    var newer := if i == 0 then [] else Listed(files, i - 1);
    if i in files then newer + [i] else newer
  }

  /** The contents of listed files, read from the last to the first. */
  function ReadBackwards(files: Files, names: seq<nat>): seq<Entry>
    requires forall k :: k in names ==> k in files
  {
    if names == [] then [] else files[names[|names| - 1]] + ReadBackwards(files, names[..|names| - 1])
  }

  // ---------------------------------------------------------------------------------------
  // What the code does to the files

  /** os.Rename replaces the target and takes the source away; without a source it does nothing. */
  ghost predicate IsRenamed(f: Files, f': Files, from: nat, to: nat) {
    forall k: nat :: At(f', k) == if k == from then None else if k == to && from in f then At(f, from) else At(f, k)
  }

  /** The files while the shifting loop is about to treat number i. */
  function MovedAt(files: Files, max: nat, i: nat, k: nat): Option<seq<Entry>> {
    if i < k <= max then if k == i + 1 then None else At(files, k - 1) else At(files, k)
  }

  function Appended(files: Files, e: Entry): Files {
    files[0 := (if 0 in files then files[0] else []) + [e]]
  }

  // ---------------------------------------------------------------------------------------
  // Proofs

  lemma SameFiles(a: Files, b: Files)
    requires forall k: nat :: At(a, k) == At(b, k)
    ensures a == b
  {
    forall k: nat ensures k in a <==> k in b { assert At(a, k) == At(b, k); }
    forall k: nat | k in a ensures a[k] == b[k] { assert At(a, k) == At(b, k); }
  }

  /** One turn of the shifting loop, seen at number k. */
  lemma MovedOnce(before: Files, max: nat, i: nat, f: Files, f': Files, k: nat)
    requires 1 <= i <= max
    requires forall j: nat :: At(f, j) == MovedAt(before, max, i, j)
    requires if i == max then f' == f - {i} else IsRenamed(f, f', i, i + 1)
    ensures At(f', k) == MovedAt(before, max, i - 1, k)
  {
    assert At(f, k) == MovedAt(before, max, i, k);
    assert At(f, i) == MovedAt(before, max, i, i);
    if i < max { assert At(f, i + 1) == MovedAt(before, max, i, i + 1); }
  }

  /** The final rename of the current file, seen at number k. */
  lemma MovedCurrent(before: Files, max: nat, f: Files, f': Files, k: nat)
    requires forall j: nat :: At(f, j) == MovedAt(before, max, 0, j)
    requires IsRenamed(f, f', 0, 1)
    ensures At(f', k) == RotatedAt(before, max, k)
  {
    assert At(f, k) == MovedAt(before, max, 0, k);
    assert At(f, 0) == MovedAt(before, max, 0, 0);
    assert At(f, 1) == MovedAt(before, max, 0, 1);
  }

  lemma {:induction false} AppendedReads(files: Files, i: nat, e: Entry)
    ensures ReadUpTo(Appended(files, e), i) == ReadUpTo(files, i) + [e]
  {
    if i > 0 {
      AppendedReads(files, i - 1, e);
    }
  }

  lemma {:induction false} RotatedReads(files: Files, max: nat, i: nat)
    requires i <= max
    ensures ReadUpTo(Rotated(files, max), i) == if i == 0 then [] else ReadUpTo(files, i - 1)
  {
    RotatedIs(files, max, i);
    if i > 0 {
      RotatedReads(files, max, i - 1);
    }
  }

  /** Reading the listed files backwards gives the entries oldest first. */
  lemma {:induction false} ListedReads(files: Files, i: nat)
    ensures ReadBackwards(files, Listed(files, i)) == ReadUpTo(files, i)
  {
    var names := Listed(files, i);
    if i > 0 {
      ListedReads(files, i - 1);
      if i in files {
        assert names == Listed(files, i - 1) + [i] && names[..|names| - 1] == Listed(files, i - 1);
      } else {
        assert names == Listed(files, i - 1);
      }
    } else if i in files {
      assert names[..0] == [];
    }
  }

  lemma SuffixGrows(s: seq<Entry>, all: seq<Entry>, e: Entry)
    requires IsSuffix(s, all)
    ensures IsSuffix(s + [e], all + [e])
  {
  }

  lemma SuffixShrinks(front: seq<Entry>, s: seq<Entry>, all: seq<Entry>)
    requires IsSuffix(front + s, all)
    ensures IsSuffix(s, all)
  {
    assert s == (front + s)[|front|..];
  }

  /** A rotation keeps a suffix a suffix. */
  lemma DroppedFront(files: Files, max: nat, all: seq<Entry>)
    requires IsSuffix(ReadUpTo(files, max), all)
    ensures IsSuffix(ReadUpTo(Rotated(files, max), max), all)
  {
    RotatedReads(files, max, max);
    if max > 0 {
      SuffixShrinks(if max in files then files[max] else [], ReadUpTo(files, max - 1), all);
    }
  }

  // ---------------------------------------------------------------------------------------
  // The code

  /** The log directory of one task, and everything ever written to its log. */
  class LogDir {
    const maxFiles: nat
    var files: Files
    ghost var written: seq<Entry>

    /** What a reader of the listed files sees is the end of what was written. */
    ghost predicate Valid()
      reads this
    {
      IsSuffix(ReadUpTo(files, maxFiles), written)
    }

    /** Any initial files, with any gaps; they are what has been written. */
    constructor (max: nat, initial: Files)
      ensures Valid() && maxFiles == max && files == initial && written == ReadUpTo(initial, max)
    {
      maxFiles := max;
      files := initial;
      written := ReadUpTo(initial, max);
    }

    /** One write through a file opened for appending. */
    method Append(e: Entry)
      requires Valid()
      modifies this
      ensures Valid() && written == old(written) + [e]
      ensures files == Appended(old(files), e)
      ensures ReadUpTo(files, maxFiles) == old(ReadUpTo(files, maxFiles)) + [e]
    {
      AppendedReads(files, maxFiles, e);
      files := files[0 := (if 0 in files then files[0] else []) + [e]];
      written := written + [e];
    }

    /** os.Rename; ok is false if there is no source. */
    method RenameFile(from: nat, to: nat) returns (ok: bool)
      requires from != to
      modifies `files
      ensures ok <==> from in old(files)
      ensures IsRenamed(old(files), files, from, to)
    {
      ok := from in files;
      if ok {
        files := files[to := files[from]] - {from};
      }
    }

    /**
     rotateLog.  Readers lose exactly the file with the highest number, whether or not there is a
     current file and whatever gaps the numbered files have.
     */
    method RotateLog() returns (ok: bool)
      requires Valid()
      modifies this
      ensures Valid() && written == old(written)
      ensures ok <==> 0 in old(files)
      ensures files == Rotated(old(files), maxFiles)
      ensures maxFiles >= 1 ==> ReadUpTo(files, maxFiles) == old(ReadUpTo(files, maxFiles - 1))
    {
      ghost var before := files;
      var i := maxFiles;
      while i >= 1
        invariant 0 <= i <= maxFiles && written == old(written)
        invariant forall k: nat :: At(files, k) == MovedAt(before, maxFiles, i, k)
      {
        ghost var f := files;
        if i == maxFiles {
          files := files - {i};
        } else {
          var _ := RenameFile(i, i + 1);
        }
        forall k: nat ensures At(files, k) == MovedAt(before, maxFiles, i - 1, k) {
          MovedOnce(before, maxFiles, i, f, files, k);
        }
        i := i - 1;
      }
      ghost var f := files;
      assert At(f, 0) == At(before, 0);
      ok := RenameFile(0, 1);
      forall k: nat ensures At(files, k) == At(Rotated(before, maxFiles), k) {
        RotatedIs(before, maxFiles, k);
        MovedCurrent(before, maxFiles, f, files, k);
      }
      SameFiles(files, Rotated(before, maxFiles));
      RotatedReads(before, maxFiles, maxFiles);
      DroppedFront(before, maxFiles, written);
    }

    /** ListLogFiles: the numbers of the existing files, newest first. */
    method ListLogFiles() returns (names: seq<nat>)
      ensures names == Listed(files, maxFiles)
    {
      names := if 0 in files then [0] else [];
      for i := 1 to maxFiles + 1
        invariant names == Listed(files, i - 1)
      {
        if i in files {
          names := names + [i];
        }
      }
    }
  }

  // ---------------------------------------------------------------------------------------
  // Histories

  datatype Op = Write(e: Entry) | Rotate

  function Stepped(files: Files, max: nat, op: Op): Files {
    match op
    case Write(e) => Appended(files, e)
    case Rotate => Rotated(files, max)
  }

  function After(files: Files, max: nat, ops: seq<Op>): Files {
    if ops == [] then files else Stepped(After(files, max, ops[..|ops| - 1]), max, ops[|ops| - 1])
  }

  function Grown(written: seq<Entry>, op: Op): seq<Entry> {
    match op
    case Write(e) => written + [e]
    case Rotate => written
  }

  function WrittenBy(ops: seq<Op>): seq<Entry> {
    if ops == [] then [] else Grown(WrittenBy(ops[..|ops| - 1]), ops[|ops| - 1])
  }

  lemma GrownBehind(start: seq<Entry>, written: seq<Entry>, op: Op)
    ensures start + Grown(written, op) == Grown(start + written, op)
  {
    if op.Write? {
      assert start + (written + [op.e]) == start + written + [op.e];
    }
  }

  lemma StepKeepsSuffix(files: Files, max: nat, op: Op, all: seq<Entry>)
    requires IsSuffix(ReadUpTo(files, max), all)
    ensures IsSuffix(ReadUpTo(Stepped(files, max, op), max), Grown(all, op))
  {
    match op
    case Write(e) =>
      AppendedReads(files, max, e);
      SuffixGrows(ReadUpTo(files, max), all, e);
    case Rotate => DroppedFront(files, max, all);
  }

  lemma {:induction false} SuffixAfter(files: Files, max: nat, ops: seq<Op>)
    ensures IsSuffix(ReadUpTo(After(files, max, ops), max), ReadUpTo(files, max) + WrittenBy(ops))
  {
    var start := ReadUpTo(files, max);
    if ops == [] {
      assert start + [] == start;
    } else {
      var before, op := ops[..|ops| - 1], ops[|ops| - 1];
      SuffixAfter(files, max, before);
      StepKeepsSuffix(After(files, max, before), max, op, start + WrittenBy(before));
      GrownBehind(start, WrittenBy(before), op);
    }
  }

  /**
   After any sequence of writes and rotations, from any initial files, with any number of kept
   files, the listed files read oldest to newest are a suffix of everything written.
   */
  lemma HistoryKeepsSuffix(files: Files, max: nat, ops: seq<Op>)
    ensures var f := After(files, max, ops);
            && ReadBackwards(f, Listed(f, max)) == ReadUpTo(f, max)
            && IsSuffix(ReadUpTo(f, max), ReadUpTo(files, max) + WrittenBy(ops))
  {
    ListedReads(After(files, max, ops), max);
    SuffixAfter(files, max, ops);
  }

  /** Without a file in the last slot a rotation loses nothing. */
  lemma RotationLosesOnlyLastSlot(files: Files, max: nat)
    requires max >= 1
    ensures ReadUpTo(files, max) == (if max in files then files[max] else []) + ReadUpTo(Rotated(files, max), max)
  {
    RotatedReads(files, max, max);
  }

  // ---------------------------------------------------------------------------------------
  // A rotation during a read

  lemma {:induction false} ListedAll(files: Files, i: nat, m: nat)
    ensures m in Listed(files, i) <==> m <= i && m in files
  {
    if i > 0 {
      ListedAll(files, i - 1, m);
    }
  }

  lemma {:induction false} ListedAscends(files: Files, i: nat)
    ensures forall a, b :: 0 <= a < b < |Listed(files, i)| ==> Listed(files, i)[a] < Listed(files, i)[b]
  {
    if i > 0 {
      var newer := Listed(files, i - 1);
      ListedAscends(files, i - 1);
      forall a | 0 <= a < |newer| ensures newer[a] < i {
        assert newer[a] in newer;
        ListedAll(files, i - 1, newer[a]);
      }
    }
  }

  /**
   A reader lists the files, reads the first j of them, and the log is rotated before it reads the rest:
   the file, by its number before the rotation, whose content the k-th read returns.
   */
  function Source(files: Files, max: nat, j: nat, k: nat): Option<nat>
    requires k < |Listed(files, max)|
  {
    var i := Listed(files, max)[k];
    if k < j then Some(i) else if i > 0 && i - 1 in files then Some(i - 1) else None
  }

  /** A read behind the rotation returns what its source holds, and nothing without a source. */
  lemma ReadsSource(files: Files, max: nat, j: nat, k: nat)
    requires j <= k < |Listed(files, max)|
    ensures At(Rotated(files, max), Listed(files, max)[k])
            == if Source(files, max, j, k).Some? then Some(files[Source(files, max, j, k).value]) else None
  {
    var i := Listed(files, max)[k];
    assert i in Listed(files, max);
    ListedAll(files, max, i);
    RotatedIs(files, max, i);
  }

  /** File m is returned by the k-th read. */
  predicate Returns(files: Files, max: nat, j: nat, m: nat, k: nat) {
    k < |Listed(files, max)| && Source(files, max, j, k) == Some(m)
  }

  ghost predicate ReturnedTwice(files: Files, max: nat, j: nat, m: nat) {
    exists a: nat, b: nat :: a < b && Returns(files, max, j, m, a) && Returns(files, max, j, m, b)
  }

  /** If the reader still has a file to read, the one before it is returned again if it is its neighbour. */
  lemma RepeatsExactly(files: Files, max: nat, j: nat, m: nat)
    ensures var names := Listed(files, max);
            ReturnedTwice(files, max, j, m) <==> 1 <= j < |names| && names[j - 1] == m && names[j] == m + 1
  {
    var names := Listed(files, max);
    ListedAscends(files, max);
    if 1 <= j < |names| && names[j - 1] == m && names[j] == m + 1 {
      assert m in names;
      ListedAll(files, max, m);
      assert Returns(files, max, j, m, j - 1) && Returns(files, max, j, m, j);
    }
    if ReturnedTwice(files, max, j, m) {
      var a: nat, b: nat :| a < b && Returns(files, max, j, m, a) && Returns(files, max, j, m, b);
      assert names[a] == m && names[b] == m + 1;
    }
  }

  /** A listed file is missed if it has not been read yet and its successor is not listed, like the last one. */
  lemma MissesExactly(files: Files, max: nat, j: nat, p: nat)
    requires p < |Listed(files, max)|
    ensures var names := Listed(files, max);
            (forall k: nat :: !Returns(files, max, j, names[p], k)) <==> j <= p && names[p] + 1 !in names
  {
    var names := Listed(files, max);
    var m := names[p];
    ListedAscends(files, max);
    assert m in names;
    ListedAll(files, max, m);
    if p < j {
      assert Returns(files, max, j, m, p);
    } else if m + 1 in names {
      var k: nat :| k < |names| && names[k] == m + 1;
      assert Returns(files, max, j, m, k);
    }
  }
}
