/** renderLogs of internal/mcpserver/logs.go: the newest log entries that fit a byte budget. */
module RenderLogs {
  import opened Wrappers
  import opened Utf8

  const MAX_ENTRY_BYTES := 4096
  const SPACE: Byte := 0x20
  const NEWLINE: Byte := 0x0A

  /** `stamp` is the entry's time as timeString renders it. */
  datatype LogEntry = LogEntry(
    stamp: seq<Byte>, stream: seq<Byte>, data: seq<Byte>,
    code: Option<int>, attempt: Option<int>, delay: seq<Byte>, message: seq<Byte>)

  /** fmt's %d. */
  function Decimal(n: int): seq<Byte>
    decreases if n < 0 then 1 else 0, if n < 0 then -n else n
  {
    if n < 0 then [0x2D] + Decimal(-n)
    else if n < 10 then [0x30 + n]
    else Decimal(n / 10) + [0x30 + n % 10]
  }

  function TrimNewline(s: seq<Byte>): seq<Byte> {
    if s != [] && s[|s| - 1] == NEWLINE then s[..|s| - 1] else s
  }

  /** " (code=", " attempt=", " delay=" */
  const CODE: seq<Byte> := [0x20, 0x28, 0x63, 0x6F, 0x64, 0x65, 0x3D]
  const ATTEMPT: seq<Byte> := [0x20, 0x61, 0x74, 0x74, 0x65, 0x6D, 0x70, 0x74, 0x3D]
  const DELAY: seq<Byte> := [0x20, 0x64, 0x65, 0x6C, 0x61, 0x79, 0x3D]

  function EntryData(e: LogEntry): seq<Byte> {
    var data := TrimNewline(e.data);
    var data := if e.code.Some? then data + (CODE + Decimal(e.code.value) + [0x29]) else data;
    var data := if e.attempt.Some? then data + (ATTEMPT + Decimal(e.attempt.value)) else data;
    var data := if e.delay != [] then data + (DELAY + e.delay) else data;
    if e.message != [] then data + ([SPACE] + e.message) else data
  }

  function Prefix(e: LogEntry): seq<Byte> {
    e.stamp + [SPACE] + e.stream + [SPACE]
  }

  /** One rendered line, and whether it was shortened. */
  function Line(e: LogEntry): (seq<Byte>, bool) {
    var (data, truncated) := Truncated(EntryData(e), MAX_ENTRY_BYTES - |Prefix(e)|);
    (Prefix(e) + data, truncated)
  }

  /** Every entry rendered on its own: its line and whether it was shortened. */
  function Rendered<E>(entries: seq<E>, line: E -> (seq<Byte>, bool)): (r: seq<(seq<Byte>, bool)>)
    ensures |r| == |entries|
  {
    seq(|entries|, i requires 0 <= i < |entries| => line(entries[i]))
  }

  /** strings.Join(lines, "\n") */
  function Join(lines: seq<seq<Byte>>): seq<Byte> {
    if lines == [] then [] else if |lines| == 1 then lines[0] else lines[0] + [NEWLINE] + Join(lines[1..])
  }

  /** The newline join of the last k lines. */
  function LastJoined(lines: seq<(seq<Byte>, bool)>, k: nat): seq<Byte>
    requires k <= |lines|
    decreases k
  {
    if k == 0 then []
    else if k == 1 then lines[|lines| - 1].0
    else lines[|lines| - k].0 + [NEWLINE] + LastJoined(lines, k - 1)
  }

  function Reversed<T>(s: seq<T>): (r: seq<T>)
    ensures |r| == |s|
  {
    seq(|s|, i requires 0 <= i < |s| => s[|s| - 1 - i])
  }

  /** The swapping loop at the end of renderLogs. */
  method ReverseLines(given: seq<seq<Byte>>) returns (lines: seq<seq<Byte>>)
    ensures lines == Reversed(given)
  {
    lines := given;
    var left, right := 0, |lines| - 1;
    while left < right
      invariant |lines| == |given| && 0 <= left && right == |lines| - 1 - left && left <= right + 1
      invariant forall i :: 0 <= i < left ==> lines[i] == given[|given| - 1 - i]
      invariant forall i :: right < i < |lines| ==> lines[i] == given[|given| - 1 - i]
      invariant forall i :: left <= i <= right ==> lines[i] == given[i]
    {
      lines := lines[left := lines[right]][right := lines[left]];
      left, right := left + 1, right - 1;
    }
  }

  lemma {:induction false} JoinIsLastJoined(all: seq<(seq<Byte>, bool)>, lines: seq<seq<Byte>>)
    requires |lines| <= |all|
    requires forall j :: 0 <= j < |lines| ==> lines[j] == all[|all| - |lines| + j].0
    ensures Join(lines) == LastJoined(all, |lines|)
  {
    if |lines| > 1 {
      JoinIsLastJoined(all, lines[1..]);
    }
  }

  lemma {:induction false} LongerIsLarger(lines: seq<(seq<Byte>, bool)>, k: nat)
    requires k <= |lines|
    ensures forall j :: k <= j <= |lines| ==> |LastJoined(lines, k)| <= |LastJoined(lines, j)|
    decreases |lines| - k
  {
    if k < |lines| {
      LongerIsLarger(lines, k + 1);
    }
  }

  /** The loops of renderLogs, for any rendering of one entry. */
  method FitNewest<E>(entries: seq<E>, render: E -> (seq<Byte>, bool), maxBytes: int)
    returns (text: seq<Byte>, returned: nat, omitted: nat, entryTruncated: bool)
    ensures returned + omitted == |entries| && text == LastJoined(Rendered(entries, render), returned)
    ensures maxBytes >= 0 ==> |text| <= maxBytes
    ensures forall k :: returned < k <= |entries| ==> |LastJoined(Rendered(entries, render), k)| > maxBytes
    ensures entryTruncated <==> exists i :: omitted <= i < |entries| && Rendered(entries, render)[i].1
  {
    ghost var all := Rendered(entries, render);
    var lines: seq<seq<Byte>> := [];
    var total := 0;
    entryTruncated := false;
    var i := |entries| - 1;
    while i >= 0
      invariant -1 <= i < |entries| && |lines| == |entries| - 1 - i
      invariant forall j :: 0 <= j < |lines| ==> lines[j] == all[|entries| - 1 - j].0
      invariant total == |LastJoined(all, |lines|)|
      invariant maxBytes >= 0 ==> total <= maxBytes
      invariant entryTruncated <==> exists j :: i < j < |entries| && all[j].1
    {
      var (line, truncated) := render(entries[i]);
      var lineBytes := |line|;
      if |lines| > 0 {
        lineBytes := lineBytes + 1;
      }
      if total + lineBytes > maxBytes {
        LongerIsLarger(all, |lines| + 1);
        break;
      }
      entryTruncated := entryTruncated || truncated;
      lines := lines + [line];
      total := total + lineBytes;
      i := i - 1;
    }
    returned := |lines|;
    omitted := |entries| - |lines|;
    lines := ReverseLines(lines);
    JoinIsLastJoined(all, lines);
    text := Join(lines);
  }

  /**
   The text is the join of the longest suffix of the rendered entries that fits the budget, in order;
   what is not returned is counted as omitted.
   */
  method RenderLogs(entries: seq<LogEntry>, maxBytes: int)
    returns (text: seq<Byte>, returned: nat, omitted: nat, entryTruncated: bool)
    ensures returned + omitted == |entries| && text == LastJoined(Rendered(entries, Line), returned)
    ensures maxBytes >= 0 ==> |text| <= maxBytes
    ensures forall k :: returned < k <= |entries| ==> |LastJoined(Rendered(entries, Line), k)| > maxBytes
    ensures entryTruncated <==> exists i :: omitted <= i < |entries| && Rendered(entries, Line)[i].1
  {
    text, returned, omitted, entryTruncated := FitNewest(entries, Line, maxBytes);
  }

  /** A line never exceeds the entry cap, unless its prefix alone does. */
  lemma LineIsCapped(e: LogEntry)
    ensures |Line(e).0| <= if |Prefix(e)| > MAX_ENTRY_BYTES then |Prefix(e)| else MAX_ENTRY_BYTES
  {
    var room := MAX_ENTRY_BYTES - |Prefix(e)|;
    if |EntryData(e)| > room && room >= 3 {
      assert CutAt(EntryData(e), room - 3) <= room - 3;
    }
  }
}
