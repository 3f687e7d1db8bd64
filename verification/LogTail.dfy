/**
 Service.Logs of internal/taskservice/logs.go: reading log files newest first and stopping early.
 A file is given by its decoded entries, oldest first, or None if reading it fails; a listed file that
 has vanished since reads as no entries.
 */
module LogTail {
  import opened Wrappers

  /** `stream` is 'o', 'e' or 'x'. */
  datatype LogEntry = LogEntry(time: int, stream: char, data: string)

  /** `since` is None where the source has the zero time. */
  datatype Filter = Filter(stdoutOnly: bool, stderrOnly: bool, since: Option<int>)

  datatype Error = ReadFailed

  predicate Passes(f: Filter, e: LogEntry) {
    && (f.stdoutOnly ==> e.stream == 'o')
    && (f.stderrOnly ==> e.stream == 'e')
    && (f.since.Some? ==> e.time >= f.since.value)
  }

  /** The lower bound of a request: the current run's start unless `all`, and the --since cutoff if positive. */
  function EffectiveSince(all: bool, childStart: Option<int>, since: nat, now: int): Option<int> {
    var bound := if all then None else childStart;
    if since > 0 && (bound.None? || now - since > bound.value) then Some(now - since) else bound
  }

  /** One bound stands for both: an entry passes it exactly if it passes each that applies. */
  lemma EffectiveSinceIsBoth(all: bool, childStart: Option<int>, since: nat, now: int, e: LogEntry)
    ensures Passes(Filter(false, false, EffectiveSince(all, childStart, since, now)), e)
            <==> (!all && childStart.Some? ==> e.time >= childStart.value) && (since > 0 ==> e.time >= now - since)
  {
  }

  // ---------------------------------------------------------------------------------------
  // The simple read

  function Filtered(f: Filter, raw: seq<LogEntry>): (r: seq<LogEntry>) {
    if raw == [] then []
    else Filtered(f, raw[..|raw| - 1]) + if Passes(f, raw[|raw| - 1]) then [raw[|raw| - 1]] else []
  }

  /** All entries of the files (newest first), in the order they were written. */
  function Chronological(files: seq<seq<LogEntry>>): seq<LogEntry> {
    if files == [] then [] else Chronological(files[1..]) + files[0]
  }

  /** The last `tail` entries; a negative tail means all. */
  function LastEntries(entries: seq<LogEntry>, tail: int): seq<LogEntry> {
    if tail < 0 || |entries| <= tail then entries else entries[|entries| - tail..]
  }

  /** Reads every file, filters everything, keeps the tail. */
  function SimpleRead(files: seq<seq<LogEntry>>, f: Filter, tail: int): seq<LogEntry> {
    LastEntries(Filtered(f, Chronological(files)), tail)
  }

  /** No entry of an older file is later than the first entry of a newer one. */
  ghost predicate Ordered(files: seq<seq<LogEntry>>) {
    forall i, j, k :: 0 <= i < j < |files| && files[i] != [] && 0 <= k < |files[j]| ==>
      files[j][k].time <= files[i][0].time
  }

  // ---------------------------------------------------------------------------------------
  // The code

  method FilterEntries(raw: seq<LogEntry>, f: Filter) returns (out: seq<LogEntry>)
    ensures out == Filtered(f, raw)
  {
    out := [];
    for i := 0 to |raw|
      invariant out == Filtered(f, raw[..i])
    {
      assert raw[..i + 1][..i] == raw[..i];
      var e := raw[i];
      if f.stdoutOnly && e.stream != 'o' { continue; }
      if f.stderrOnly && e.stream != 'e' { continue; }
      if f.since.Some? && e.time < f.since.value { continue; }
      out := out + [e];
    }
    assert raw[..|raw|] == raw;
  }

  /** A file that crosses the lower bound or completes the tail is the last one read. */
  predicate StopsAt(first: seq<LogEntry>, f: Filter, tail: int, matched: nat) {
    (f.since.Some? && first != [] && first[0].time < f.since.value) || (tail >= 0 && matched >= tail)
  }

  /** The files whose content the scan uses: up to the first that crosses the lower bound or fills the tail. */
  function Scanned(files: seq<seq<LogEntry>>, f: Filter, tail: int, matched: nat): (n: nat)
    ensures n <= |files|
  {
    if files == [] then 0
    else
      var m := matched + |Filtered(f, files[0])|;
      if StopsAt(files[0], f, tail, m) then 1
      else 1 + Scanned(files[1..], f, tail, m)
  }

  function Plus(n: nat, rest: Option<nat>): Option<nat> {
    if rest.Some? then Some(n + rest.value) else None
  }

  ghost predicate AllReadable(files: seq<Option<seq<LogEntry>>>) {
    forall i :: 0 <= i < |files| ==> files[i].Some?
  }

  /** How many files the scan uses if reading may fail; None if it reaches an unreadable file. */
  function Reached(files: seq<Option<seq<LogEntry>>>, f: Filter, tail: int, matched: nat): (n: Option<nat>)
    ensures n.Some? ==> n.value <= |files| && AllReadable(files[..n.value])
  {
    if files == [] then Some(0)
    else if files[0].None? then None
    else
      var m := matched + |Filtered(f, files[0].value)|;
      if StopsAt(files[0].value, f, tail, m) then Some(1) else Plus(1, Reached(files[1..], f, tail, m))
  }

  ghost function Contents(files: seq<Option<seq<LogEntry>>>): (r: seq<seq<LogEntry>>)
    requires AllReadable(files)
    ensures |r| == |files|
  {
    seq(|files|, i requires 0 <= i < |files| => files[i].value)
  }

  ghost predicate ChunksOf(files: seq<Option<seq<LogEntry>>>, f: Filter, chunks: seq<seq<LogEntry>>) {
    && |chunks| <= |files|
    && forall i :: 0 <= i < |chunks| ==> files[i].Some? && chunks[i] == Filtered(f, files[i].value)
  }

  lemma ReachedFrom(files: seq<Option<seq<LogEntry>>>, n: nat, f: Filter, tail: int, matched: nat)
    requires n < |files|
    ensures Reached(files[n..], f, tail, matched) ==
              if files[n].None? then None
              else
                var m := matched + |Filtered(f, files[n].value)|;
                if StopsAt(files[n].value, f, tail, m) then Some(1) else Plus(1, Reached(files[n + 1..], f, tail, m))
  {
    assert files[n..][0] == files[n] && files[n..][1..] == files[n + 1..];
  }

  lemma ChunkAdded(files: seq<Option<seq<LogEntry>>>, f: Filter, chunks: seq<seq<LogEntry>>, chunk: seq<LogEntry>)
    requires ChunksOf(files, f, chunks) && |chunks| < |files|
    requires files[|chunks|].Some? && chunk == Filtered(f, files[|chunks|].value)
    ensures ChunksOf(files, f, chunks + [chunk])
  {
  }

  /** The scan loop: the filtered chunks of the scanned files, newest first. */
  method Scan(files: seq<Option<seq<LogEntry>>>, f: Filter, tail: int)
    returns (r: Result<seq<seq<LogEntry>>, Error>)
    ensures r.Err? <==> Reached(files, f, tail, 0).None?
    ensures r.Ok? ==> |r.value| == Reached(files, f, tail, 0).value && ChunksOf(files, f, r.value)
  {
    var chunks: seq<seq<LogEntry>> := [];
    var matched: nat := 0;
    assert files[0..] == files;
    for n := 0 to |files|
      invariant |chunks| == n && ChunksOf(files, f, chunks)
      invariant Reached(files, f, tail, 0) == Plus(n, Reached(files[n..], f, tail, matched))
    {
      ReachedFrom(files, n, f, tail, matched);
      if files[n].None? {
        return Err(ReadFailed);
      }
      var raw := files[n].value;
      var filtered := FilterEntries(raw, f);
      ChunkAdded(files, f, chunks, filtered);
      chunks := chunks + [filtered];
      matched := matched + |filtered|;
      var crossedBoundary := f.since.Some? && raw != [] && raw[0].time < f.since.value;
      if crossedBoundary { break; }
      if tail >= 0 && matched >= tail { break; }
    }
    return Ok(chunks);
  }

  /** The concatenation loop: newest-first chunks become one chronological list. */
  method Assemble(chunks: seq<seq<LogEntry>>) returns (entries: seq<LogEntry>)
    ensures entries == Chronological(chunks)
  {
    entries := [];
    var i := |chunks| - 1;
    while i >= 0
      invariant -1 <= i < |chunks|
      invariant entries == Chronological(chunks[i + 1..])
    {
      assert chunks[i..][1..] == chunks[i + 1..];
      entries := entries + chunks[i];
      i := i - 1;
    }
  }

  // ---------------------------------------------------------------------------------------
  // The early exit

  /** If every file can be read, the scan uses as many as it would on their contents. */
  lemma {:induction false} ReachedIsScanned(files: seq<Option<seq<LogEntry>>>, f: Filter, tail: int, matched: nat)
    requires AllReadable(files)
    ensures Reached(files, f, tail, matched) == Some(Scanned(Contents(files), f, tail, matched))
    decreases |files|
  {
    if files != [] {
      assert Contents(files)[1..] == Contents(files[1..]);
      ReachedIsScanned(files[1..], f, tail, matched + |Filtered(f, files[0].value)|);
    }
  }

  lemma {:induction false} FilteredConcat(f: Filter, a: seq<LogEntry>, b: seq<LogEntry>)
    ensures Filtered(f, a + b) == Filtered(f, a) + Filtered(f, b)
  {
    if b == [] {
      assert a + b == a;
    } else {
      var c := b[..|b| - 1];
      assert (a + b)[..|a + b| - 1] == a + c;
      FilteredConcat(f, a, c);
    }
  }

  lemma {:induction false} ChunksAreFiltered(files: seq<seq<LogEntry>>, chunks: seq<seq<LogEntry>>, f: Filter)
    requires |files| == |chunks| && forall i :: 0 <= i < |files| ==> chunks[i] == Filtered(f, files[i])
    ensures Chronological(chunks) == Filtered(f, Chronological(files))
  {
    if files != [] {
      ChunksAreFiltered(files[1..], chunks[1..], f);
      FilteredConcat(f, Chronological(files[1..]), files[0]);
    }
  }

  /** The matches of all files, file by file. */
  function Matches(files: seq<seq<LogEntry>>, f: Filter): seq<LogEntry> {
    if files == [] then [] else Matches(files[1..], f) + Filtered(f, files[0])
  }

  lemma {:induction false} MatchesAreFiltered(files: seq<seq<LogEntry>>, f: Filter)
    ensures Matches(files, f) == Filtered(f, Chronological(files))
  {
    if files != [] {
      MatchesAreFiltered(files[1..], f);
      FilteredConcat(f, Chronological(files[1..]), files[0]);
    }
  }

  lemma OrderedRest(files: seq<seq<LogEntry>>)
    requires Ordered(files) && files != []
    ensures Ordered(files[1..])
  {
    var rest: seq<seq<LogEntry>> := files[1..];
    forall i, j, k | 0 <= i < j < |rest| && rest[i] != [] && 0 <= k < |rest[j]|
      ensures rest[j][k].time <= rest[i][0].time
    {
      assert rest[i] == files[i + 1] && rest[j] == files[j + 1];
    }
  }

  lemma Regroup(files: seq<seq<LogEntry>>, f: Filter, newer: seq<LogEntry>)
    requires files != []
    ensures Matches(files, f) + newer == Matches(files[1..], f) + (Filtered(f, files[0]) + newer)
  {
  }

  lemma {:induction false} AllTooOld(f: Filter, raw: seq<LogEntry>)
    requires f.since.Some? && forall k :: 0 <= k < |raw| ==> raw[k].time < f.since.value
    ensures Filtered(f, raw) == []
  {
    if raw != [] {
      AllTooOld(f, raw[..|raw| - 1]);
    }
  }

  lemma {:induction false} OlderAreEarlier(files: seq<seq<LogEntry>>, bound: int)
    requires forall j, k :: 0 <= j < |files| && 0 <= k < |files[j]| ==> files[j][k].time < bound
    ensures forall k :: 0 <= k < |Chronological(files)| ==> Chronological(files)[k].time < bound
  {
    if files != [] {
      assert forall j, k :: 0 <= j < |files[1..]| && 0 <= k < |files[1..][j]| ==>
          files[1..][j][k] == files[j + 1][k];
      OlderAreEarlier(files[1..], bound);
    }
  }

  /** Once the lower bound is crossed, the older files hold nothing that passes. */
  lemma CrossingEndsMatches(files: seq<seq<LogEntry>>, f: Filter)
    requires Ordered(files) && files != [] && files[0] != []
    requires f.since.Some? && files[0][0].time < f.since.value
    ensures Filtered(f, Chronological(files[1..])) == []
  {
    forall j, k | 0 <= j < |files[1..]| && 0 <= k < |files[1..][j]|
      ensures files[1..][j][k].time < f.since.value
    {
      assert files[1..][j] == files[j + 1];
    }
    OlderAreEarlier(files[1..], f.since.value);
    AllTooOld(f, Chronological(files[1..]));
  }

  lemma TailIgnoresOlder(older: seq<LogEntry>, newer: seq<LogEntry>, tail: int)
    requires 0 <= tail <= |newer|
    ensures LastEntries(older + newer, tail) == LastEntries(newer, tail)
  {
  }

  /** Where the scan stops, the older files do not change the last entries. */
  lemma StopIsInvisible(files: seq<seq<LogEntry>>, f: Filter, tail: int, matches: seq<LogEntry>)
    requires Ordered(files) && files != [] && StopsAt(files[0], f, tail, |matches|)
    ensures LastEntries(Matches(files[1..], f) + matches, tail) == LastEntries(matches, tail)
  {
    if tail >= 0 && |matches| >= tail {
      TailIgnoresOlder(Matches(files[1..], f), matches, tail);
    } else {
      CrossingEndsMatches(files, f);
      MatchesAreFiltered(files[1..], f);
      assert [] + matches == matches;
    }
  }

  /** `newer` are the matches of the files scanned before these. */
  lemma {:induction false} EarlyExitIsInvisible(files: seq<seq<LogEntry>>, f: Filter, tail: int, newer: seq<LogEntry>)
    requires Ordered(files)
    ensures var n := Scanned(files, f, tail, |newer|);
            LastEntries(Matches(files, f) + newer, tail) == LastEntries(Matches(files[..n], f) + newer, tail)
    decreases |files|
  {
    var n := Scanned(files, f, tail, |newer|);
    if files == [] {
      assert files[..n] == files;
    } else {
      var matches := Filtered(f, files[0]) + newer;
      Regroup(files, f, newer);
      Regroup(files[..n], f, newer);
      assert files[..n][1..] == files[1..][..n - 1];
      if StopsAt(files[0], f, tail, |matches|) {
        StopIsInvisible(files, f, tail, matches);
        assert [] + matches == matches;
      } else {
        OrderedRest(files);
        EarlyExitIsInvisible(files[1..], f, tail, matches);
      }
    }
  }

  lemma ReadOfScanned(files: seq<seq<LogEntry>>, f: Filter, tail: int)
    requires Ordered(files)
    ensures SimpleRead(files[..Scanned(files, f, tail, 0)], f, tail) == SimpleRead(files, f, tail)
  {
    var front := files[..Scanned(files, f, tail, 0)];
    EarlyExitIsInvisible(files, f, tail, []);
    MatchesAreFiltered(files, f);
    MatchesAreFiltered(front, f);
    assert Matches(files, f) + [] == Matches(files, f) && Matches(front, f) + [] == Matches(front, f);
  }

  lemma ChunksGiveRead(files: seq<Option<seq<LogEntry>>>, chunks: seq<seq<LogEntry>>, f: Filter, tail: int)
    requires ChunksOf(files, f, chunks) && Reached(files, f, tail, 0) == Some(|chunks|)
    ensures LastEntries(Chronological(chunks), tail) == SimpleRead(Contents(files[..|chunks|]), f, tail)
    ensures AllReadable(files) && Ordered(Contents(files)) ==>
              LastEntries(Chronological(chunks), tail) == SimpleRead(Contents(files), f, tail)
  {
    ChunksAreFiltered(Contents(files[..|chunks|]), chunks, f);
    if AllReadable(files) && Ordered(Contents(files)) {
      ReachedIsScanned(files, f, tail, 0);
      assert Contents(files)[..|chunks|] == Contents(files[..|chunks|]);
      ReadOfScanned(Contents(files), f, tail);
    }
  }

  /**
   The request fails exactly if the scan reaches an unreadable file.  Otherwise the result is the
   simple read of the newest files that the scan uses; with readable files in order it is the simple
   read of all files, so the early exit is invisible.
   */
  method Logs(files: seq<Option<seq<LogEntry>>>, f: Filter, tail: int) returns (r: Result<seq<LogEntry>, Error>)
    ensures r.Err? <==> Reached(files, f, tail, 0).None?
    ensures r.Ok? ==> r.value == SimpleRead(Contents(files[..Reached(files, f, tail, 0).value]), f, tail)
    ensures AllReadable(files) && Ordered(Contents(files)) ==> r == Ok(SimpleRead(Contents(files), f, tail))
  {
    var scan := Scan(files, f, tail);
    if scan.Err? {
      if AllReadable(files) { ReachedIsScanned(files, f, tail, 0); }
      return Err(ReadFailed);
    }
    var entries := Assemble(scan.value);
    ChunksGiveRead(files, scan.value, f, tail);
    if tail >= 0 {
      if tail == 0 {
        entries := [];
      } else if |entries| > tail {
        entries := entries[|entries| - tail..];
      }
    }
    return Ok(entries);
  }

  // ---------------------------------------------------------------------------------------
  // When the early exit shows

  lemma {:induction false} ChronologicalSplits(files: seq<seq<LogEntry>>, n: nat)
    requires n <= |files|
    ensures Chronological(files) == Chronological(files[n..]) + Chronological(files[..n])
  {
    if n == 0 {
      assert files[0..] == files && files[..0] == [];
    } else {
      ChronologicalSplits(files[1..], n - 1);
      assert files[1..][n - 1..] == files[n..] && files[..n][1..] == files[1..][..n - 1];
    }
  }

  lemma OlderIgnoredExactly(older: seq<LogEntry>, newer: seq<LogEntry>, tail: int)
    ensures LastEntries(older + newer, tail) == LastEntries(newer, tail) <==> older == [] || 0 <= tail <= |newer|
  {
    if older == [] {
      assert older + newer == newer;
    } else if tail < 0 || tail > |newer| {
      assert |LastEntries(newer, tail)| == |newer| < |LastEntries(older + newer, tail)|;
    }
  }

  /** For one tail: exactly when the scan filled it or no entry of the unread files passes the filter. */
  lemma EarlyExitInvisibleFor(files: seq<seq<LogEntry>>, f: Filter, tail: int)
    ensures var n := Scanned(files, f, tail, 0);
            SimpleRead(files[..n], f, tail) == SimpleRead(files, f, tail)
            <==> Filtered(f, Chronological(files[n..])) == []
                 || 0 <= tail <= |Filtered(f, Chronological(files[..n]))|
  {
    var n := Scanned(files, f, tail, 0);
    ChronologicalSplits(files, n);
    FilteredConcat(f, Chronological(files[n..]), Chronological(files[..n]));
    OlderIgnoredExactly(Filtered(f, Chronological(files[n..])), Filtered(f, Chronological(files[..n])), tail);
  }

  /** How many files there are up to the first, newest first, whose first entry is older than the lower bound. */
  function UpToCrossing(files: seq<seq<LogEntry>>, f: Filter): (n: nat)
    ensures n <= |files|
  {
    if files == [] then 0
    else if f.since.Some? && files[0] != [] && files[0][0].time < f.since.value then 1
    else 1 + UpToCrossing(files[1..], f)
  }

  lemma {:induction false} FrontMatches(files: seq<seq<LogEntry>>, f: Filter, n: nat)
    requires 0 < n <= |files|
    ensures |Matches(files[..n], f)| == |Filtered(f, files[0])| + |Matches(files[1..][..n - 1], f)|
  {
    assert files[..n][1..] == files[1..][..n - 1];
  }

  /** The scan ends where the lower bound is crossed, or because the tail is filled. */
  lemma {:induction false} ScanEnds(files: seq<seq<LogEntry>>, f: Filter, tail: int, matched: nat)
    ensures var n := Scanned(files, f, tail, matched);
            n == UpToCrossing(files, f) || 0 <= tail <= matched + |Matches(files[..n], f)|
    decreases |files|
  {
    if files != [] {
      var n := Scanned(files, f, tail, matched);
      FrontMatches(files, f, n);
      if n > 1 || !StopsAt(files[0], f, tail, matched + |Filtered(f, files[0])|) {
        ScanEnds(files[1..], f, tail, matched + |Filtered(f, files[0])|);
      }
    }
  }

  ghost predicate InvisibleForAllTails(files: seq<seq<LogEntry>>, f: Filter) {
    forall tail: int :: SimpleRead(files[..Scanned(files, f, tail, 0)], f, tail) == SimpleRead(files, f, tail)
  }

  /**
   For files in any order: the early exit is invisible, whatever tail is asked for, exactly when no
   entry of a file beyond the first that crosses the lower bound passes the filter.
   */
  lemma EarlyExitInvisibleExactly(files: seq<seq<LogEntry>>, f: Filter)
    ensures InvisibleForAllTails(files, f)
            <==> Filtered(f, Chronological(files[UpToCrossing(files, f)..])) == []
  {
    forall tail: int
      ensures Filtered(f, Chronological(files[UpToCrossing(files, f)..])) == [] ==>
                SimpleRead(files[..Scanned(files, f, tail, 0)], f, tail) == SimpleRead(files, f, tail)
    {
      var n := Scanned(files, f, tail, 0);
      ScanEnds(files, f, tail, 0);
      MatchesAreFiltered(files[..n], f);
      EarlyExitInvisibleFor(files, f, tail);
    }
    ScanEnds(files, f, -1, 0);
    EarlyExitInvisibleFor(files, f, -1);
    assert InvisibleForAllTails(files, f) ==>
        SimpleRead(files[..Scanned(files, f, -1, 0)], f, -1) == SimpleRead(files, f, -1);
  }

  /** The order matters: with a clock set back between two files, an entry that passes is missed. */
  lemma UnorderedFilesLoseEntries()
    ensures var files := [[LogEntry(5, 'o', "new")], [LogEntry(20, 'o', "old")]];
            var f := Filter(false, false, Some(10));
            !Ordered(files) && SimpleRead(files[..Scanned(files, f, -1, 0)], f, -1) != SimpleRead(files, f, -1)
  {
    var earlier: seq<LogEntry>, later: seq<LogEntry> := [LogEntry(20, 'o', "old")], [LogEntry(5, 'o', "new")];
    var files: seq<seq<LogEntry>> := [later, earlier];
    var f := Filter(false, false, Some(10));
    assert files[1][0].time > files[0][0].time;
    assert Scanned(files, f, -1, 0) == 1 && files[..1] == [later] && files[1..] == [earlier];
    assert [later][1..] == [] && [earlier][1..] == [];
    assert Chronological([later]) == later && Chronological([earlier]) == earlier;
    assert Chronological(files) == earlier + later;
    FilteredConcat(f, earlier, later);
    assert earlier[..0] == [] && later[..0] == [];
    assert Filtered(f, earlier) == earlier && Filtered(f, later) == [];
  }
}
