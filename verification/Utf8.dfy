/**
 truncateUTF8Bytes of internal/mcpserver/logs.go, over bytes.  Valid strings are those of
 RFC 3629 (definition in section 3, byte ranges in section 4).
 */
module Utf8 {

  type Byte = b: int | 0 <= b < 256

  // ---------------------------------------------------------------------------------------
  // Valid UTF-8

  predicate Tail(s: seq<Byte>, from: nat, to: nat) {
    to <= |s| && forall i :: from <= i < to ==> 0x80 <= s[i] <= 0xBF
  }

  /** The first of the tail bytes is restricted after some lead bytes. */
  predicate SecondFits(lead: Byte, second: Byte) {
    && 0x80 <= second <= 0xBF
    && (lead == 0xE0 ==> second >= 0xA0) && (lead == 0xED ==> second <= 0x9F)
    && (lead == 0xF0 ==> second >= 0x90) && (lead == 0xF4 ==> second <= 0x8F)
  }

  /** How many bytes a character with this lead byte has; 0 for a byte that leads none. */
  function LeadLength(b: Byte): nat {
    if b <= 0x7F then 1
    else if 0xC2 <= b <= 0xDF then 2
    else if 0xE0 <= b <= 0xEF then 3
    else if 0xF0 <= b <= 0xF4 then 4
    else 0
  }

  /** A whole character is at the front of s. */
  predicate StartsWithChar(s: seq<Byte>) {
    && s != [] && LeadLength(s[0]) > 0 && LeadLength(s[0]) <= |s|
    && (LeadLength(s[0]) > 1 ==> SecondFits(s[0], s[1]) && Tail(s, 1, LeadLength(s[0])))
  }

  predicate Valid(s: seq<Byte>) {
    s == [] || (StartsWithChar(s) && Valid(s[LeadLength(s[0])..]))
  }

  /** The position k separates two whole characters, or is an end of the string. */
  predicate IsBoundary(s: seq<Byte>, k: nat) {
    k <= |s| && Valid(s[..k]) && Valid(s[k..])
  }

  // ---------------------------------------------------------------------------------------
  // The code

  const ELLIPSIS: seq<Byte> := [0xE2, 0x80, 0xA6]

  /** utf8.RuneStart */
  predicate RuneStart(b: Byte) {
    !(0x80 <= b <= 0xBF)
  }

  function Dots(n: nat): (r: seq<Byte>)
    ensures |r| == n
  {
    if n == 0 then [] else Dots(n - 1) + [0x2E]
  }

  /** The last position up to k that the loop may stop at. */
  function CutAt(s: seq<Byte>, k: nat): (c: nat)
    requires k < |s|
    ensures c <= k
  {
    if k == 0 || RuneStart(s[k]) then k else CutAt(s, k - 1)
  }

  /** The result and whether anything was dropped. */
  function Truncated(value: seq<Byte>, maxBytes: int): (seq<Byte>, bool) {
    if maxBytes <= 0 then ([], value != [])
    else if |value| <= maxBytes then (value, false)
    else if maxBytes < |ELLIPSIS| then (Dots(maxBytes), true)
    else (value[..CutAt(value, maxBytes - |ELLIPSIS|)] + ELLIPSIS, true)
  }

  method TruncateUTF8Bytes(value: seq<Byte>, maxBytes: int) returns (r: seq<Byte>, truncated: bool)
    ensures (r, truncated) == Truncated(value, maxBytes)
    ensures |r| <= if maxBytes <= 0 then 0 else maxBytes
    ensures !truncated ==> r == value
  {
    if maxBytes <= 0 {
      return [], value != [];
    }
    if |value| <= maxBytes {
      return value, false;
    }
    var suffix := ELLIPSIS;
    if maxBytes < |suffix| {
      return Dots(maxBytes), true;
    }
    var cut := maxBytes - |suffix|;
    while cut > 0 && !RuneStart(value[cut])
      invariant 0 <= cut <= maxBytes - |suffix|
      invariant CutAt(value, cut) == CutAt(value, maxBytes - |suffix|)
    {
      cut := cut - 1;
    }
    return value[..cut] + suffix, true;
  }

  // ---------------------------------------------------------------------------------------
  // Characters and boundaries

  lemma CharPrefix(s: seq<Byte>, j: nat)
    requires StartsWithChar(s) && j <= |s|
    ensures j >= LeadLength(s[0]) <==> j > 0 && StartsWithChar(s[..j])
  {
  }

  /** In a valid string the boundaries inside are exactly the bytes that start a character. */
  lemma {:induction false} BoundaryIffRuneStart(s: seq<Byte>, j: nat)
    requires Valid(s) && j < |s|
    ensures IsBoundary(s, j) <==> RuneStart(s[j])
    decreases |s|
  {
    var n := LeadLength(s[0]);
    CharPrefix(s, j);
    if j == 0 {
      assert s[..0] == [] && s[0..] == s;
    } else if j >= n {
      assert s[..j][n..] == s[n..][..j - n] && s[j..] == s[n..][j - n..];
      BoundaryIffRuneStart(s[n..], j - n);
    }
  }

  lemma CharAtFront(a: seq<Byte>, b: seq<Byte>)
    requires StartsWithChar(a)
    ensures StartsWithChar(a + b) && (a + b)[0] == a[0]
    ensures (a + b)[LeadLength(a[0])..] == a[LeadLength(a[0])..] + b
  {
  }

  lemma {:induction false} ValidConcat(a: seq<Byte>, b: seq<Byte>)
    requires Valid(a) && Valid(b)
    ensures Valid(a + b)
    decreases |a|
  {
    if a == [] {
      assert a + b == b;
    } else {
      CharAtFront(a, b);
      ValidConcat(a[LeadLength(a[0])..], b);
    }
  }

  lemma {:induction false} DotsValid(n: nat)
    ensures Valid(Dots(n))
  {
    if n > 0 {
      DotsValid(n - 1);
      assert [0x2E][1..] == [];
      ValidConcat(Dots(n - 1), [0x2E]);
    }
  }

  lemma EllipsisValid()
    ensures Valid(ELLIPSIS)
  {
    assert ELLIPSIS[3..] == [];
  }

  lemma {:induction false} CutProperties(s: seq<Byte>, k: nat)
    requires k < |s|
    ensures var c := CutAt(s, k); (c == 0 || RuneStart(s[c])) && forall j :: c < j <= k ==> !RuneStart(s[j])
  {
    if k > 0 && !RuneStart(s[k]) {
      CutProperties(s, k - 1);
    }
  }

  /** No character is longer than four bytes, so one of any four consecutive bytes starts one. */
  lemma {:induction false} StartIsNear(s: seq<Byte>, k: nat)
    requires Valid(s) && k < |s|
    ensures exists c :: 0 <= c <= k && k - c < 4 && RuneStart(s[c])
    decreases |s|
  {
    var n := LeadLength(s[0]);
    if k < n {
      assert RuneStart(s[0]);
    } else {
      StartIsNear(s[n..], k - n);
      var c :| 0 <= c <= k - n && k - n - c < 4 && RuneStart(s[n..][c]);
      assert RuneStart(s[n + c]);
    }
  }

  // ---------------------------------------------------------------------------------------
  // The result

  /** The loop's cut is the last boundary within the room. */
  lemma CutIsLastBoundary(value: seq<Byte>, room: nat)
    requires Valid(value) && room < |value|
    ensures var cut := CutAt(value, room);
            && IsBoundary(value, cut) && room - cut < 4
            && forall j :: cut < j <= room ==> !IsBoundary(value, j)
  {
    var cut := CutAt(value, room);
    CutProperties(value, room);
    StartIsNear(value, room);
    BoundaryIffRuneStart(value, cut);
    BoundaryIffRuneStart(value, 0);
    forall j | cut < j <= room ensures !IsBoundary(value, j) { BoundaryIffRuneStart(value, j); }
  }

  /** The longest prefix of whole characters that fits the room, fewer than 4 bytes short of it, and the ellipsis. */
  ghost predicate IsLongestCut(value: seq<Byte>, room: nat, r: seq<Byte>) {
    var cut := |r| - 3;
    && 0 <= cut <= room < |value| && r == value[..cut] + ELLIPSIS && IsBoundary(value, cut)
    && room - cut < 4 && forall j :: cut < j <= room ==> !IsBoundary(value, j)
  }

  /** What truncation to a positive limit promises: the input, dots, or the longest cut with the ellipsis. */
  ghost predicate TruncatesWell(value: seq<Byte>, maxBytes: nat, r: seq<Byte>, truncated: bool) {
    && Valid(r) && |r| <= maxBytes && (truncated <==> |value| > maxBytes)
    && (!truncated ==> r == value)
    && (truncated && maxBytes < 3 ==> r == Dots(maxBytes))
    && (truncated && maxBytes >= 3 ==> IsLongestCut(value, maxBytes - 3, r))
  }

  lemma CutLength(value: seq<Byte>, cut: nat)
    requires cut <= |value|
    ensures var r := value[..cut] + ELLIPSIS; |r| == cut + 3
  {
  }

  lemma LongCut(value: seq<Byte>, maxBytes: nat)
    requires Valid(value) && 3 <= maxBytes < |value|
    ensures TruncatesWell(value, maxBytes, value[..CutAt(value, maxBytes - 3)] + ELLIPSIS, true)
  {
    CutIsLastBoundary(value, maxBytes - 3);
    EllipsisValid();
    ValidConcat(value[..CutAt(value, maxBytes - 3)], ELLIPSIS);
    CutLength(value, CutAt(value, maxBytes - 3));
  }

  lemma ShortCut(value: seq<Byte>, maxBytes: nat)
    requires maxBytes < 3 && maxBytes < |value|
    ensures TruncatesWell(value, maxBytes, Dots(maxBytes), true)
  {
    DotsValid(maxBytes);
  }

  /**
   For every valid string and positive limit the result is valid UTF-8 within the limit.  If it is
   neither the input nor dots, it is the longest prefix of whole characters that leaves room for the
   ellipsis, and fewer than 4 bytes of that room stay unused.
   */
  lemma TruncationKeepsUtf8(value: seq<Byte>, maxBytes: nat)
    requires Valid(value) && maxBytes > 0
    ensures var (r, truncated) := Truncated(value, maxBytes); TruncatesWell(value, maxBytes, r, truncated)
  {
    if |value| <= maxBytes {
    } else if maxBytes < 3 {
      ShortCut(value, maxBytes);
    } else {
      LongCut(value, maxBytes);
    }
  }
}
