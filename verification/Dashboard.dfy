/** `read_revenue_windows`: what the dashboard shows of the window topic. */
module Dashboard {
  import opened Aggregates
  import opened Windows

  const SIX_HOURS_MS := 21_600_000

  function OtherWindow(start: int): WindowRow -> bool { (r: WindowRow) => r.start != start }

  /** `drop_duplicates(subset="window_start", keep="last")`. */
  function KeepLast(rows: seq<WindowRow>): seq<WindowRow> {
    if rows == [] then []
    else
      var n := |rows| - 1;
      Filter(KeepLast(rows[..n]), OtherWindow(rows[n].start)) + [rows[n]]
  }

  function InsertByStart(r: WindowRow, s: seq<WindowRow>): seq<WindowRow> {
    if s == [] || r.start <= s[0].start then [r] + s else [s[0]] + InsertByStart(r, s[1..])
  }

  /** `sort_values("window_start")`. */
  function SortByStart(s: seq<WindowRow>): seq<WindowRow> {
    if s == [] then [] else InsertByStart(s[0], SortByStart(s[1..]))
  }

  function Since(cutoff: int): WindowRow -> bool { (r: WindowRow) => r.start >= cutoff }

  /** `.tail(n)`. */
  function Tail(s: seq<WindowRow>, n: nat): seq<WindowRow> { if |s| <= n then s else s[|s| - n..] }

  /** The deduplicated, sorted frame before the cut-offs. */
  function Frame(topic: seq<WindowRow>): seq<WindowRow> { SortByStart(KeepLast(topic)) }

  /** The six-hour cut-off and the tail. */
  function Recent(frame: seq<WindowRow>, maxWindows: nat): seq<WindowRow> {
    if frame == [] then []
    else Tail(Filter(frame, Since(frame[|frame| - 1].start - SIX_HOURS_MS)), maxWindows)
  }

  function ReadRevenueWindows(topic: seq<WindowRow>, maxWindows: nat): seq<WindowRow> {
    Recent(Frame(topic), maxWindows)
  }

  // ---- keep-last ------------------------------------------------------------------------------

  /** The last row of its window on the topic. */
  ghost predicate IsLast(topic: seq<WindowRow>, r: WindowRow) {
    exists i :: 0 <= i < |topic| && topic[i] == r && forall j :: i < j < |topic| ==> topic[j].start != r.start
  }

  lemma IsLastSnoc(init: seq<WindowRow>, last: WindowRow, r: WindowRow)
    ensures IsLast(init + [last], r) <==> r == last || (IsLast(init, r) && r.start != last.start)
  {
    var topic, n := init + [last], |init|;
    if IsLast(init, r) && r.start != last.start {
      var i :| 0 <= i < n && init[i] == r && forall j :: i < j < n ==> init[j].start != r.start;
      assert topic[i] == r && forall j :: i < j < |topic| ==> topic[j].start != r.start;
    }
    if r == last { assert topic[n] == r; }
    if IsLast(topic, r) && r != last {
      var i :| 0 <= i < |topic| && topic[i] == r && forall j :: i < j < |topic| ==> topic[j].start != r.start;
      assert topic[n] == last && init[i] == r;
      assert forall j :: i < j < n ==> init[j] == topic[j];
    }
  }

  lemma {:induction false} KeepLastKeeps(topic: seq<WindowRow>, r: WindowRow)
    ensures r in KeepLast(topic) <==> IsLast(topic, r)
  {
    if topic != [] {
      var n := |topic| - 1;
      KeepLastKeeps(topic[..n], r);
      IsLastSnoc(topic[..n], topic[n], r);
      assert topic == topic[..n] + [topic[n]];
    }
  }

  lemma {:induction false} KeepLastDistinct(topic: seq<WindowRow>)
    ensures DistinctBy(KeepLast(topic), StartOf)
  {
    if topic != [] {
      var n := |topic| - 1;
      KeepLastDistinct(topic[..n]);
      FilterKeepsDistinct(KeepLast(topic[..n]), OtherWindow(topic[n].start), StartOf);
      var kept := Filter(KeepLast(topic[..n]), OtherWindow(topic[n].start));
      forall i | 0 <= i < |kept| ensures kept[i].start != topic[n].start { assert kept[i] in kept; }
    }
  }

  // ---- sorting -----------------------------------------------------------------------------------

  ghost predicate Ascending(s: seq<WindowRow>) { forall i, j :: 0 <= i < j < |s| ==> s[i].start < s[j].start }

  lemma {:induction false} InsertKeepsAscending(r: WindowRow, s: seq<WindowRow>)
    requires Ascending(s) && forall x :: x in s ==> x.start != r.start
    ensures Ascending(InsertByStart(r, s))
    ensures forall x :: x in InsertByStart(r, s) <==> x == r || x in s
  {
    if s == [] || r.start <= s[0].start {
      forall i | 0 <= i < |s| ensures r.start < s[i].start { assert s[i] in s && (i == 0 || s[0].start < s[i].start); }
    } else {
      InsertKeepsAscending(r, s[1..]);
      var rest := InsertByStart(r, s[1..]);
      assert s == [s[0]] + s[1..];
      forall j | 0 <= j < |rest| ensures s[0].start < rest[j].start {
        assert rest[j] in rest;
        if rest[j] != r {
          var k :| 0 <= k < |s[1..]| && s[1..][k] == rest[j];
          assert s[0].start < s[k + 1].start;
        }
      }
    }
  }

  lemma {:induction false} SortAscends(s: seq<WindowRow>)
    requires DistinctBy(s, StartOf)
    ensures Ascending(SortByStart(s))
    ensures forall x :: x in SortByStart(s) <==> x in s
  {
    if s != [] {
      var rest := s[1..];
      assert DistinctBy(rest, StartOf) by {
        forall i, j | 0 <= i < j < |rest| ensures StartOf(rest[i]) != StartOf(rest[j]) {
          assert StartOf(s[i + 1]) != StartOf(s[j + 1]);
        }
      }
      SortAscends(rest);
      forall x | x in SortByStart(rest) ensures x.start != s[0].start {
        var i :| 0 <= i < |rest| && rest[i] == x;
        assert StartOf(s[0]) != StartOf(s[i + 1]);
      }
      InsertKeepsAscending(s[0], SortByStart(rest));
      assert s == [s[0]] + rest;
    }
  }

  /** A strictly sorted list is determined by its rows. */
  lemma {:induction false} AscendingUnique(s: seq<WindowRow>, t: seq<WindowRow>)
    requires Ascending(s) && Ascending(t)
    requires forall x :: x in s <==> x in t
    ensures s == t
  {
    if |t| > 0 { assert t[0] in t && t[0] in s; }
    if s != [] {
      assert s[0] in s && s[0] in t;
      var i :| 0 <= i < |t| && t[i] == s[0];
      var j :| 0 <= j < |s| && s[j] == t[0];
      assert s[0] == t[0];
      forall x ensures x in s[1..] <==> x in t[1..] {
        TailMembers(s, x);
        TailMembers(t, x);
      }
      AscendingUnique(s[1..], t[1..]);
      assert s == [s[0]] + s[1..] && t == [t[0]] + t[1..];
    }
  }

  lemma TailMembers(s: seq<WindowRow>, x: WindowRow)
    requires s != [] && Ascending(s)
    ensures x in s[1..] <==> x in s && x != s[0]
  {
  }

  // ---- what is displayed ------------------------------------------------------------------------------

  lemma FrameIsSortedLast(topic: seq<WindowRow>)
    ensures Ascending(Frame(topic))
    ensures forall r :: r in Frame(topic) <==> IsLast(topic, r)
    ensures topic != [] ==> Frame(topic) != []
  {
    KeepLastDistinct(topic);
    SortAscends(KeepLast(topic));
    forall r ensures r in Frame(topic) <==> IsLast(topic, r) { KeepLastKeeps(topic, r); }
    if topic != [] {
      var r := topic[|topic| - 1];
      assert IsLast(topic, r);
      assert r in Frame(topic);
    }
  }

  /** Filtering a sorted list from a bound on keeps a suffix of it. */
  lemma {:induction false} FilterSuffix(s: seq<WindowRow>, cutoff: int) returns (k: nat)
    requires Ascending(s)
    ensures k <= |s| && Filter(s, Since(cutoff)) == s[k..]
    ensures k > 0 ==> s[k - 1].start < cutoff
  {
    if s == [] {
      k := 0;
    } else if s[0].start < cutoff {
      var j := FilterSuffix(s[1..], cutoff);
      assert s[1..][j..] == s[j + 1..];
      assert j > 0 ==> s[1..][j - 1] == s[j];
      k := j + 1;
    } else {
      k := 0;
      forall x | x in s ensures Since(cutoff)(x) {
        var i :| 0 <= i < |s| && s[i] == x;
        assert i == 0 || s[0].start < s[i].start;
      }
      FilterAll(s, Since(cutoff));
    }
  }

  lemma SinceCutoff(frame: seq<WindowRow>, cutoff: int, c: nat, k: nat)
    requires c <= k <= |frame| && Filter(frame, Since(cutoff)) == frame[c..]
    ensures forall r :: r in frame[k..] ==> r.start >= cutoff
  {
    assert frame[k..] == frame[c..][k - c..];
    forall r | r in frame[k..] ensures r.start >= cutoff {
      assert r in Filter(frame, Since(cutoff));
    }
  }

  lemma TailIsSuffix(s: seq<WindowRow>, c: nat, n: nat)
    requires c <= |s|
    ensures Tail(s[c..], n) == s[if |s| - c <= n then c else |s| - n..]
  {
  }

  lemma TailOfRecent(frame: seq<WindowRow>, cutoff: int, c: nat, n: nat) returns (k: nat)
    requires c <= |frame| && Filter(frame, Since(cutoff)) == frame[c..]
    requires c > 0 ==> frame[c - 1].start < cutoff
    ensures k <= |frame| && Tail(frame[c..], n) == frame[k..] && |frame| - k <= n
    ensures forall r :: r in frame[k..] ==> r.start >= cutoff
    ensures k > 0 ==> |frame| - k == n || frame[k - 1].start < cutoff
  {
    TailIsSuffix(frame, c, n);
    k := if |frame| - c <= n then c else |frame| - n;
    SinceCutoff(frame, cutoff, c, k);
  }

  lemma TailSince(frame: seq<WindowRow>, cutoff: int, n: nat) returns (k: nat)
    requires Ascending(frame)
    ensures k <= |frame| && Tail(Filter(frame, Since(cutoff)), n) == frame[k..] && |frame| - k <= n
    ensures forall r :: r in frame[k..] ==> r.start >= cutoff
    ensures k > 0 ==> |frame| - k == n || frame[k - 1].start < cutoff
  {
    var c := FilterSuffix(frame, cutoff);
    k := TailOfRecent(frame, cutoff, c, n);
  }

  lemma RecentIsSuffix(frame: seq<WindowRow>, maxWindows: nat) returns (k: nat)
    requires Ascending(frame) && frame != []
    ensures k <= |frame| && Recent(frame, maxWindows) == frame[k..] && |frame| - k <= maxWindows
    ensures forall r :: r in frame[k..] ==> r.start >= frame[|frame| - 1].start - SIX_HOURS_MS
    ensures k > 0 ==> |frame| - k == maxWindows || frame[k - 1].start < frame[|frame| - 1].start - SIX_HOURS_MS
  {
    k := TailSince(frame, frame[|frame| - 1].start - SIX_HOURS_MS, maxWindows);
  }

  lemma SuffixAscends(s: seq<WindowRow>, k: nat)
    requires Ascending(s) && k <= |s|
    ensures Ascending(s[k..]) && forall r :: r in s[k..] ==> r in s
  {
  }

  /** The displayed frame is the newest part of the deduplicated windows: strictly sorted,
      within six hours of its maximum, at most `maxWindows` long, and cut no shorter than
      those two limits demand. */
  lemma DisplayedFrame(topic: seq<WindowRow>, maxWindows: nat) returns (k: nat)
    requires topic != []
    ensures var shown, frame := ReadRevenueWindows(topic, maxWindows), Frame(topic);
      && frame != [] && k <= |frame| && shown == frame[k..]
      && Ascending(shown) && |shown| <= maxWindows
      && (forall r :: r in shown ==> IsLast(topic, r) && r.start >= frame[|frame| - 1].start - SIX_HOURS_MS)
      && (k > 0 ==> |shown| == maxWindows || frame[k - 1].start < frame[|frame| - 1].start - SIX_HOURS_MS)
  {
    FrameIsSortedLast(topic);
    k := RecentIsSuffix(Frame(topic), maxWindows);
    SuffixAscends(Frame(topic), k);
  }

  // ---- duplicates do not show ---------------------------------------------------------------------------

  /** Every window has one value on the topic, however often it was emitted. */
  ghost predicate OneValuePerWindow(topic: seq<WindowRow>) {
    forall a, b :: a in topic && b in topic && a.start == b.start ==> a == b
  }

  lemma OneValueIsLast(topic: seq<WindowRow>, r: WindowRow)
    requires OneValuePerWindow(topic)
    ensures IsLast(topic, r) <==> r in topic
    decreases |topic|
  {
    if r in topic { LastOccurrence(topic, r); }
  }

  lemma {:induction false} LastOccurrence(topic: seq<WindowRow>, r: WindowRow)
    requires OneValuePerWindow(topic) && r in topic
    ensures IsLast(topic, r)
  {
    var n := |topic| - 1;
    if topic[n].start == r.start {
      assert topic[n] in topic && topic[n] == r;
    } else {
      var init := topic[..n];
      assert topic == init + [topic[n]];
      LastOccurrence(init, r);
      var i :| 0 <= i < n && init[i] == r && forall j :: i < j < n ==> init[j].start != r.start;
      assert topic[i] == r;
      forall j | i < j < |topic| ensures topic[j].start != r.start { if j < n { assert topic[j] == init[j]; } }
    }
  }

  /** Two topics with the same rows, one value per window, show the same frame. */
  lemma SameRowsSameFrame(a: seq<WindowRow>, b: seq<WindowRow>, maxWindows: nat)
    requires OneValuePerWindow(a) && forall r :: r in a <==> r in b
    ensures ReadRevenueWindows(a, maxWindows) == ReadRevenueWindows(b, maxWindows)
  {
    FrameIsSortedLast(a);
    FrameIsSortedLast(b);
    forall r ensures r in Frame(a) <==> r in Frame(b) {
      OneValueIsLast(a, r);
      OneValueIsLast(b, r);
    }
    AscendingUnique(Frame(a), Frame(b));
  }
}
