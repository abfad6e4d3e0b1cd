/** When the screen built from live rows equals the screen rebuilt from storage: exactly when the row that each screen
    row shows live is the one the reload puts there, which the rows' times alone decide. */
module LiveHistory {
  import opened Common
  import opened Division
  import opened WaterfallRows
  import opened LiveWaterfall

  function Times(rows: seq<Row>): (r: seq<int>)
    ensures |r| == |rows| && forall i :: 0 <= i < |r| ==> r[i] == rows[i].utcMs
  {
    seq(|rows|, i requires 0 <= i < |rows| => rows[i].utcMs)
  }

  ghost predicate Increasing(times: seq<int>) { forall i, j :: 0 <= i < j < |times| ==> times[i] < times[j] }

  // ---- which row a screen row shows live -----------------------------------------------------------

  /** How far a live row pushes down the rows before it: a line per skipped period and its own, at most the screen. */
  function Shift(gap: int, p: int, height: nat): (s: nat)
    requires p >= 1 && height >= 1
    ensures 1 <= s <= height
  {
    Clamp(gap / p, 1, height)
  }

  function LastShift(times: seq<int>, p: int, height: nat): (s: nat)
    requires p >= 1 && height >= 1 && |times| >= 2
    ensures 1 <= s <= height
  {
    Shift(times[|times| - 1] - times[|times| - 2], p, height)
  }

  /** Where row j stands live: the shifts of all later rows added up. */
  function LivePosition(times: seq<int>, p: int, height: nat, j: nat): nat
    requires p >= 1 && height >= 1 && j < |times|
    decreases |times|
  {
    if j == |times| - 1 then 0 else LivePosition(times[..|times| - 1], p, height, j) + LastShift(times, p, height)
  }

  /** The row at screen row i, walking back from the newest. */
  function LivePick(times: seq<int>, p: int, height: nat, i: nat): (pick: Option<nat>)
    requires p >= 1 && height >= 1
    ensures pick.Some? ==> pick.value < |times|
    decreases |times|
  {
    if times == [] then None
    else if i == 0 then Some(|times| - 1)
    else if |times| == 1 || i < LastShift(times, p, height) then None
    else LivePick(times[..|times| - 1], p, height, i - LastShift(times, p, height))
  }

  /** The pick at screen row i is the row standing there, if any. */
  lemma {:induction false} LivePickStandsThere(times: seq<int>, p: int, height: nat, i: nat, j: nat)
    requires p >= 1 && height >= 1
    ensures LivePick(times, p, height, i) == Some(j) <==> j < |times| && LivePosition(times, p, height, j) == i
    decreases |times|
  {
    hide LastShift;
    if |times| >= 2 && i >= LastShift(times, p, height) {
      LivePickStandsThere(times[..|times| - 1], p, height, i - LastShift(times, p, height), j);
    }
  }

  function LineOf(rows: seq<Row>, n: nat, pick: Option<nat>): seq<Bin>
    requires pick.Some? ==> pick.value < |rows|
  {
    if pick.Some? then rows[pick.value].bins else Blank(n)
  }

  ghost predicate ShowsLive(lines: Lines, rows: seq<Row>, p: int, n: nat)
    requires p >= 1 && lines != []
  {
    forall i: nat :: i < |lines| ==>
      lines[i] == LineOf(rows, n, LivePick(Times(rows), p, |lines|, i))
  }

  lemma ShiftIsGap(last: int, utcMs: int, p: int, height: nat)
    requires p >= 1 && height >= 1 && last < utcMs
    ensures GapRows(Some(last), utcMs, p, height) + 1 == Shift(utcMs - last, p, height)
  {
  }

  /** One line after one more row. */
  lemma NextLiveLine(lines: Lines, front: seq<Row>, row: Row, p: int, n: nat, i: nat)
    requires p >= 1 && front != [] && i < |lines| && ShowsLive(lines, front, p, n)
    ensures var s := Shift(row.utcMs - front[|front| - 1].utcMs, p, |lines|);
            (if i == 0 then row.bins else if i < s then Blank(n) else lines[i - s])
            == LineOf(front + [row], n, LivePick(Times(front + [row]), p, |lines|, i))
  {
    hide Shift, Blank;
    var times := Times(front + [row]);
    assert times[..|times| - 1] == Times(front);
    assert LastShift(times, p, |lines|) == Shift(row.utcMs - front[|front| - 1].utcMs, p, |lines|);
  }

  /** The lines under the very first row are blank. */
  lemma FirstLiveLine(row: Row, p: int, height: nat, n: nat, i: nat)
    requires p >= 1 && i < height
    ensures LiveRun([], p, height, n) == Live(AllBlank(height, n), None)
    ensures (if i == 0 then row.bins else AllBlank(height, n)[i - 1]) == LineOf([row], n, LivePick(Times([row]), p, height, i))
  {
  }

  lemma LastAfterRow(live: Live, row: Row, p: int, n: nat)
    requires p >= 1 && live.lines != [] && (live.last.Some? ==> live.last.value < row.utcMs)
    ensures AfterRow(live, row, p, n).last == Some(row.utcMs)
  {
  }

  /** The live buffer shows at every screen row the row standing there, and blanks elsewhere. */
  lemma {:induction false} LiveShowsPicks(rows: seq<Row>, p: int, height: nat, n: nat)
    requires p >= 1 && height >= 1 && rows != [] && Increasing(Times(rows))
    ensures LiveRun(rows, p, height, n).last == Some(rows[|rows| - 1].utcMs)
    ensures ShowsLive(LiveRun(rows, p, height, n).lines, rows, p, n)
  {
    hide AfterRow, GapRows, Shift, Blank, AllBlank, LivePick, LineOf, Times, Increasing;
    var front, row := rows[..|rows| - 1], rows[|rows| - 1];
    assert rows == front + [row];
    TimesSnoc(front, row);
    var before := LiveRun(front, p, height, n);
    AfterRowLines(before, row, p, n);
    if front == [] {
      NoGap(row.utcMs, p, height);
      assert rows == [row];
      FirstLiveLine(row, p, height, n, 0);
      LastAfterRow(before, row, p, n);
      forall i: nat | i < height
        ensures LiveRun(rows, p, height, n).lines[i] == LineOf(rows, n, LivePick(Times(rows), p, height, i))
      {
        FirstLiveLine(row, p, height, n, i);
      }
    } else {
      LiveShowsPicks(front, p, height, n);
      ShiftIsGap(front[|front| - 1].utcMs, row.utcMs, p, height);
      LastAfterRow(before, row, p, n);
      forall i: nat | i < height
        ensures LiveRun(rows, p, height, n).lines[i] == LineOf(rows, n, LivePick(Times(rows), p, height, i))
      {
        NextLiveLine(before.lines, front, row, p, n, i);
      }
    }
  }

  lemma NoGap(utcMs: int, p: int, height: nat)
    requires p >= 1
    ensures GapRows(None, utcMs, p, height) == 0
  {
  }

  // ---- which row a screen row shows after a reload ---------------------------------------------------

  /** The reload at the newest row's time, with the screen's own view and width. */
  function ReloadRequest(top: int, p: int, height: nat, n: nat, minHz: real, maxHz: real): Request {
    Request(top, if top <= 0 then 0 else top - Max(0, height - 1) * p, p, height, n, minHz, maxHz)
  }

  /** The earliest time the reload asks storage for. */
  function LoadedSince(top: int, p: int, height: nat): int {
    var margin := Max(1, p / 2);
    Min((if top <= 0 then 0 else top - Max(0, height - 1) * p) - margin, top + margin)
  }

  function FirstSince(times: seq<int>, utcMs: int): (k: nat)
    ensures k <= |times|
  {
    if times == [] || times[|times| - 1] < utcMs then |times| else FirstSince(times[..|times| - 1], utcMs)
  }

  /** The first row the reload gets: in range, and among the newest two screens' worth. */
  function FirstLoaded(times: seq<int>, p: int, height: nat): (k: nat)
    requires times != []
    ensures k <= |times|
  {
    Max(FirstSince(times, LoadedSince(times[|times| - 1], p, height)), |times| - 2 * height)
  }

  predicate LandsOn(top: int, p: int, height: nat, utcMs: int, i: nat) { RowIndexForUtcMs(top, p, height, utcMs) == i }

  /** The newest loaded row that lands on screen row i. */
  function ReloadPick(times: seq<int>, top: int, p: int, height: nat, from: nat, i: nat): (pick: Option<nat>)
    ensures pick.Some? ==> pick.value < |times|
    decreases |times|
  {
    if |times| <= from then None
    else if LandsOn(top, p, height, times[|times| - 1], i) then Some(|times| - 1)
    else ReloadPick(times[..|times| - 1], top, p, height, from, i)
  }

  lemma {:induction false} ReloadPickIsNewest(times: seq<int>, top: int, p: int, height: nat, from: nat, i: nat, j: nat)
    ensures ReloadPick(times, top, p, height, from, i) == Some(j) <==>
              && from <= j < |times| && LandsOn(top, p, height, times[j], i)
              && forall k :: j < k < |times| ==> !LandsOn(top, p, height, times[k], i)
    decreases |times|
  {
    hide LandsOn;
    if |times| > from && !LandsOn(top, p, height, times[|times| - 1], i) {
      ReloadPickIsNewest(times[..|times| - 1], top, p, height, from, i, j);
    }
  }

  lemma InRangeSnoc(front: seq<Row>, last: Row, lo: int, hi: int)
    ensures InRange(front + [last], lo, hi) == if lo <= last.utcMs <= hi then InRange(front, lo, hi) + [last] else InRange(front, lo, hi)
  {
    assert (front + [last])[..|front|] == front;
  }

  lemma FirstSinceSnoc(times: seq<int>, last: int, utcMs: int)
    ensures FirstSince(times + [last], utcMs) == if last < utcMs then |times| + 1 else FirstSince(times, utcMs)
  {
    assert (times + [last])[..|times|] == times;
  }

  lemma TimesSnoc(front: seq<Row>, last: Row)
    requires Increasing(Times(front + [last]))
    ensures Times(front + [last]) == Times(front) + [last.utcMs] && Increasing(Times(front))
    ensures front != [] ==> Times(front)[|front| - 1] < last.utcMs
  {
    var times := Times(front + [last]);
    assert times[..|front|] == Times(front);
    assert times == Times(front) + [last.utcMs];
    if front != [] { assert times[|front| - 1] < times[|front|]; }
  }

  /** Rows in time order reaching up to hi: those in range are all from the first one on. */
  lemma {:induction false} InRangeIsSuffix(rows: seq<Row>, lo: int, hi: int)
    requires Increasing(Times(rows)) && forall i :: 0 <= i < |rows| ==> rows[i].utcMs <= hi
    ensures InRange(rows, lo, hi) == rows[FirstSince(Times(rows), lo)..]
  {
    if rows != [] {
      var front, last := rows[..|rows| - 1], rows[|rows| - 1];
      assert rows == front + [last];
      TimesSnoc(front, last);
      InRangeIsSuffix(front, lo, hi);
      InRangeSnoc(front, last, lo, hi);
      FirstSinceSnoc(Times(front), last.utcMs, lo);
      hide InRange, Increasing;
      if last.utcMs < lo { assert FirstSince(Times(front), lo) == |front|; }
      hide FirstSince, Times;
      SuffixSnoc(front, last, FirstSince(Times(front), lo));
    }
  }

  lemma SuffixSnoc(front: seq<Row>, last: Row, k: nat)
    requires k <= |front|
    ensures (front + [last])[k..] == front[k..] + [last] && (front + [last])[|front| + 1..] == []
  {
  }

  /** A row as the renderer stores it for this view and width. */
  predicate Fits(req: Request, row: Row) {
    && |row.bins| == req.renderBinCount && Rendered(row)
    && row.viewMinHz == req.viewMinHz && row.viewMaxHz == req.viewMaxHz && row.viewMaxHz > row.viewMinHz
  }

  /** What one row does to the slots. */
  lemma SlotAfterRow(req: Request, front: seq<Row>, row: Row, i: nat)
    requires i < req.visibleRowCount && Fits(req, row)
    ensures Slots(req, front + [row])[i]
            == if LandsOn(req.topUtcMs, req.rowPeriodMs, req.visibleRowCount, row.utcMs, i) then Some(row.bins) else Slots(req, front)[i]
  {
    assert (front + [row])[..|front|] == front;
    ResampleSameView(row, req.renderBinCount);
    hide Resample, Rendered, RowIndexForUtcMs;
  }

  lemma FullLine(req: Request, row: Row)
    requires Fits(req, row) && req.renderBinCount >= 1
    ensures SlotLine(req.renderBinCount, Some(row.bins)) == row.bins
  {
  }

  lemma {:induction false} SlotsShowPicks(req: Request, rows: seq<Row>, from: nat, i: nat)
    requires i < req.visibleRowCount && from <= |rows| && req.renderBinCount >= 1
    requires forall j :: 0 <= j < |rows| ==> Fits(req, rows[j])
    ensures SlotLine(req.renderBinCount, Slots(req, rows[from..])[i])
            == LineOf(rows, req.renderBinCount, ReloadPick(Times(rows), req.topUtcMs, req.rowPeriodMs, req.visibleRowCount, from, i))
    decreases |rows|
  {
    hide Fits, LandsOn, SlotLine;
    if |rows| == from {
      EmptySlot(req.renderBinCount, None);
    } else {
      var front, row := rows[..|rows| - 1], rows[|rows| - 1];
      assert rows[from..] == front[from..] + [row];
      assert Times(rows)[..|rows| - 1] == Times(front);
      SlotsShowPicks(req, front, from, i);
      SlotAfterRow(req, front[from..], row, i);
      FullLine(req, row);
      hide Slots;
    }
  }

  /** Rows of one live session: rendered for one view and width, at strictly increasing times. */
  ghost predicate LiveRows(rows: seq<Row>, n: nat, minHz: real, maxHz: real) {
    && n >= 1 && maxHz > minHz && Increasing(Times(rows))
    && forall i :: 0 <= i < |rows| ==>
         |rows[i].bins| == n && Rendered(rows[i]) && rows[i].viewMinHz == minHz && rows[i].viewMaxHz == maxHz
  }

  /** The screen rebuilt from storage at the newest row's time. */
  function Reloaded(rows: seq<Row>, p: int, height: nat, n: nat, minHz: real, maxHz: real): (r: Lines)
    requires rows != []
    ensures |r| == height
  {
    Replaced(height, n, HistorySlots(ReloadRequest(rows[|rows| - 1].utcMs, p, height, n, minHz, maxHz), rows))
  }

  /** The reloading screen's row i: the newest of the loaded rows that rounds to it. */
  function PickReloaded(times: seq<int>, p: int, height: nat, i: nat): (pick: Option<nat>)
    requires times != []
    ensures pick.Some? ==> pick.value < |times|
  {
    ReloadPick(times, times[|times| - 1], p, height, FirstLoaded(times, p, height), i)
  }

  lemma NewestOfRange(rows: seq<Row>, fromUtcMs: int, toUtcMs: int, maxRows: nat)
    requires Increasing(Times(rows)) && maxRows > 0
    requires forall i :: 0 <= i < |rows| ==> rows[i].utcMs <= toUtcMs
    ensures Loaded(rows, fromUtcMs, toUtcMs, maxRows)
            == rows[Max(FirstSince(Times(rows), Min(fromUtcMs, toUtcMs)), |rows| - maxRows)..]
  {
    hide InRange, FirstSince, Increasing, Times, Loaded;
    InRangeIsSuffix(rows, Min(fromUtcMs, toUtcMs), Max(fromUtcMs, toUtcMs));
    var k := FirstSince(Times(rows), Min(fromUtcMs, toUtcMs));
    LoadedOf(rows, fromUtcMs, toUtcMs, maxRows, rows[k..]);
    SuffixOfSuffix(rows, k, maxRows);
  }

  lemma LoadedOf(rows: seq<Row>, fromUtcMs: int, toUtcMs: int, maxRows: nat, found: seq<Row>)
    requires maxRows > 0 && InRange(rows, Min(fromUtcMs, toUtcMs), Max(fromUtcMs, toUtcMs)) == found
    ensures Loaded(rows, fromUtcMs, toUtcMs, maxRows) == if |found| > maxRows then found[|found| - maxRows..] else found
  {
    hide InRange;
  }

  /** The last maxRows of a suffix. */
  lemma SuffixOfSuffix(rows: seq<Row>, k: nat, maxRows: nat)
    requires k <= |rows|
    ensures (if |rows[k..]| > maxRows then rows[k..][|rows[k..]| - maxRows..] else rows[k..]) == rows[Max(k, |rows| - maxRows)..]
  {
  }

  lemma LoadedIsSuffix(rows: seq<Row>, p: int, height: nat, n: nat, minHz: real, maxHz: real)
    requires p >= 1 && height >= 1 && rows != [] && Increasing(Times(rows))
    ensures var req := ReloadRequest(rows[|rows| - 1].utcMs, p, height, n, minHz, maxHz);
            Loaded(rows, req.bottomUtcMs - Margin(req), req.topUtcMs + Margin(req), height * 2) == rows[FirstLoaded(Times(rows), p, height)..]
  {
    hide Loaded, FirstSince;
    var req := ReloadRequest(rows[|rows| - 1].utcMs, p, height, n, minHz, maxHz);
    assert forall i :: 0 <= i < |rows| ==> Times(rows)[i] <= Times(rows)[|rows| - 1];
    assert FirstLoaded(Times(rows), p, height) == Max(FirstSince(Times(rows), LoadedSince(req.topUtcMs, p, height)), |rows| - height * 2);
    hide FirstLoaded, Times;
    assert LoadedSince(req.topUtcMs, p, height) == Min(req.bottomUtcMs - Margin(req), req.topUtcMs + Margin(req));
    hide LoadedSince, ReloadRequest, Increasing;
    NewestOfRange(rows, req.bottomUtcMs - Margin(req), req.topUtcMs + Margin(req), height * 2);
  }

  lemma ReloadShowsPicks(rows: seq<Row>, p: int, height: nat, n: nat, minHz: real, maxHz: real, i: nat)
    requires p >= 1 && height >= 1 && rows != [] && LiveRows(rows, n, minHz, maxHz) && i < height
    ensures Reloaded(rows, p, height, n, minHz, maxHz)[i] == LineOf(rows, n, PickReloaded(Times(rows), p, height, i))
  {
    hide Loaded, FirstLoaded, SlotLine, Rendered, Slots, LandsOn;
    LoadedIsSuffix(rows, p, height, n, minHz, maxHz);
    var req := ReloadRequest(rows[|rows| - 1].utcMs, p, height, n, minHz, maxHz);
    SlotsShowPicks(req, rows, FirstLoaded(Times(rows), p, height), i);
  }

  // ---- the exact condition -----------------------------------------------------------------------------

  /** Every screen row shows the same row, or none, either way: a condition on times alone. */
  predicate SchedulesAgree(times: seq<int>, p: int, height: nat)
    requires p >= 1 && height >= 1 && times != []
  {
    forall i: nat :: i < height ==> LivePick(times, p, height, i) == PickReloaded(times, p, height, i)
  }

  /** Every row can be told from every other and from a blank line. */
  ghost predicate TellApart(rows: seq<Row>, n: nat) {
    && (forall i :: 0 <= i < |rows| ==> rows[i].bins != Blank(n))
    && (forall i, j :: 0 <= i < j < |rows| ==> rows[i].bins != rows[j].bins)
  }

  lemma PicksTellApart(rows: seq<Row>, n: nat, a: Option<nat>, b: Option<nat>)
    requires (a.Some? ==> a.value < |rows|) && (b.Some? ==> b.value < |rows|)
    ensures a == b ==> LineOf(rows, n, a) == LineOf(rows, n, b)
    ensures TellApart(rows, n) && LineOf(rows, n, a) == LineOf(rows, n, b) ==> a == b
  {
    hide Blank;
    if a.Some? && b.Some? && a.value != b.value && TellApart(rows, n) {
      assert rows[Min(a.value, b.value)].bins != rows[Max(a.value, b.value)].bins;
    }
  }

  lemma RowAgrees(rows: seq<Row>, p: int, height: nat, n: nat, minHz: real, maxHz: real, i: nat)
    requires p >= 1 && height >= 1 && rows != [] && LiveRows(rows, n, minHz, maxHz) && i < height
    ensures var live, reloaded := LivePick(Times(rows), p, height, i), PickReloaded(Times(rows), p, height, i);
            var same := LiveRun(rows, p, height, n).lines[i] == Reloaded(rows, p, height, n, minHz, maxHz)[i];
            (live == reloaded ==> same) && (TellApart(rows, n) && same ==> live == reloaded)
  {
    LiveShowsPicks(rows, p, height, n);
    ReloadShowsPicks(rows, p, height, n, minHz, maxHz, i);
    hide LiveRun, Reloaded, LiveRows, TellApart, LivePick, ReloadPick, FirstLoaded, LineOf;
    PicksTellApart(rows, n, LivePick(Times(rows), p, height, i), PickReloaded(Times(rows), p, height, i));
  }

  /** For rows at any strictly increasing times, live and reloaded screens agree when their schedules do; and when rows
      can be told apart, exactly then. */
  lemma ScreensAgreeExactly(rows: seq<Row>, p: int, height: nat, n: nat, minHz: real, maxHz: real)
    requires p >= 1 && height >= 1 && rows != [] && LiveRows(rows, n, minHz, maxHz)
    ensures SchedulesAgree(Times(rows), p, height) ==>
              LiveRun(rows, p, height, n).lines == Reloaded(rows, p, height, n, minHz, maxHz)
    ensures TellApart(rows, n) ==>
              (LiveRun(rows, p, height, n).lines == Reloaded(rows, p, height, n, minHz, maxHz)
               <==> SchedulesAgree(Times(rows), p, height))
  {
    hide LiveRun, Reloaded, LiveRows, TellApart, LivePick, PickReloaded;
    forall i: nat | i < height
      ensures var live, reloaded := LivePick(Times(rows), p, height, i), PickReloaded(Times(rows), p, height, i);
              var same := LiveRun(rows, p, height, n).lines[i] == Reloaded(rows, p, height, n, minHz, maxHz)[i];
              (live == reloaded ==> same) && (TellApart(rows, n) && same ==> live == reloaded)
    {
      RowAgrees(rows, p, height, n, minHz, maxHz, i);
    }
  }

  // ---- rows whole periods apart -----------------------------------------------------------------------

  predicate Later(a: int, b: int, p: int)
    requires p >= 1
  {
    a < b && (b - a) % p == 0
  }

  ghost predicate Spaced(times: seq<int>, p: int)
    requires p >= 1
  {
    forall i, j :: 0 <= i < j < |times| ==> Later(times[i], times[j], p)
  }

  function PickAt(times: seq<int>, utcMs: int): (pick: Option<nat>)
    ensures pick.Some? ==> pick.value < |times|
  {
    if times == [] then None
    else if times[|times| - 1] == utcMs then Some(|times| - 1)
    else PickAt(times[..|times| - 1], utcMs)
  }

  lemma {:induction false} NothingAt(times: seq<int>, utcMs: int)
    requires forall i :: 0 <= i < |times| ==> times[i] != utcMs
    ensures PickAt(times, utcMs) == None
  {
    if times != [] { NothingAt(times[..|times| - 1], utcMs); }
  }

  lemma NotTop(t: int, i: int, p: int)
    requires i > 0 && p >= 1
    ensures t - i * p < t
  {
    assert i * p >= 1;
  }

  lemma PeriodsBetween(a: int, b: int, p: int) returns (d: int)
    requires p >= 1 && Later(a, b, p)
    ensures d >= 1 && b - a == d * p && d == (b - a) / p
  {
    d := (b - a) / p;
    PositiveFactor(d, p);
  }

  lemma PositiveFactor(d: int, p: int)
    requires p >= 1
    ensures d * p > 0 ==> d >= 1
  {
    if d <= 0 { assert d * p <= 0; }
  }

  lemma SkippedIsEmpty(times: seq<int>, utcMs: int, d: int, i: int, p: int)
    requires p >= 1 && times != [] && utcMs - times[|times| - 1] == d * p && i < d
    requires forall j :: 0 <= j < |times| ==> times[j] <= times[|times| - 1]
    ensures PickAt(times, utcMs - i * p) == None
  {
    assert (d - i) * p == d * p - i * p;
    NotTop(utcMs, d - i, p);
    NothingAt(times, utcMs - i * p);
  }

  lemma SpacedFront(times: seq<int>, p: int)
    requires p >= 1 && Spaced(times, p) && |times| >= 2
    ensures Later(times[|times| - 2], times[|times| - 1], p) && Spaced(times[..|times| - 1], p)
    ensures forall j :: 0 <= j < |times| - 1 ==> times[j] <= times[|times| - 2]
  {
    assert forall j :: 0 <= j < |times| - 2 ==> Later(times[j], times[|times| - 2], p);
  }

  /** Walking back over a last gap of d periods. */
  lemma LivePickBeforeGap(times: seq<int>, p: int, height: nat, i: nat) returns (d: nat)
    requires p >= 1 && height >= 1 && |times| >= 2 && Later(times[|times| - 2], times[|times| - 1], p) && 1 <= i < height
    ensures d >= 1 && times[|times| - 1] - times[|times| - 2] == d * p
    ensures LivePick(times, p, height, i) == if i < d then None else LivePick(times[..|times| - 1], p, height, i - d)
  {
    d := PeriodsBetween(times[|times| - 2], times[|times| - 1], p);
  }

  /** Live, screen row i shows the row i periods before the newest. */
  lemma {:induction false} LivePickIsPickAt(times: seq<int>, p: int, height: nat, i: nat)
    requires p >= 1 && height >= 1 && times != [] && Spaced(times, p) && i < height
    ensures LivePick(times, p, height, i) == PickAt(times, times[|times| - 1] - i * p)
    decreases |times|
  {
    hide LastShift;
    var front, top := times[..|times| - 1], times[|times| - 1];
    if i == 0 {
      assert top - i * p == top;
    } else if front == [] {
      NotTop(top, i, p);
      assert PickAt(front, top - i * p) == None;
    } else {
      NotTop(top, i, p);
      var last := front[|front| - 1];
      SpacedFront(times, p);
      hide LivePick, Spaced, Later;
      var d := LivePickBeforeGap(times, p, height, i);
      if i < d {
        SkippedIsEmpty(front, top, d, i, p);
      } else {
        LivePickIsPickAt(front, p, height, i - d);
        assert top - i * p == last - (i - d) * p by { assert (i - d) * p == i * p - d * p; }
      }
    }
  }

  lemma FactorAtMost(a: int, b: int, p: int)
    requires p >= 1
    ensures a * p <= b * p ==> a <= b
  {
    if a * p <= b * p {
      assert (b + 1) * p == b * p + p;
      MulStrict(a, b + 1, p);
    }
  }

  lemma SameFactor(a: int, b: int, p: int)
    requires p >= 1 && a * p == b * p
    ensures a == b
  {
    FactorAtMost(a, b, p);
    FactorAtMost(b, a, p);
  }

  lemma AlignedLandsOn(top: int, p: int, height: nat, utcMs: int, i: nat)
    requires p >= 1 && (top - utcMs) % p == 0 && i < height
    ensures LandsOn(top, p, height, utcMs, i) <==> utcMs == top - i * p
  {
    var d := (top - utcMs) / p;
    assert utcMs == top - d * p;
    AlignedRowIndex(top, p, height, d);
    hide RowIndexForUtcMs;
    if d * p == i * p { SameFactor(d, i, p); }
  }

  /** After a reload too, when no earlier row is of that time. */
  lemma {:induction false} ReloadPickIsPickAt(times: seq<int>, top: int, p: int, height: nat, from: nat, i: nat)
    requires p >= 1 && i < height
    requires forall j :: 0 <= j < |times| ==> (top - times[j]) % p == 0
    requires forall j :: 0 <= j < |times| && j < from ==> times[j] != top - i * p
    ensures ReloadPick(times, top, p, height, from, i) == PickAt(times, top - i * p)
    decreases |times|
  {
    hide LandsOn;
    if |times| <= from {
      NothingAt(times, top - i * p);
    } else {
      AlignedLandsOn(top, p, height, times[|times| - 1], i);
      ReloadPickIsPickAt(times[..|times| - 1], top, p, height, from, i);
    }
  }

  /** Rows whole periods apart are at most one per period. */
  lemma {:induction false} SpacedCount(times: seq<int>, p: int, lo: int)
    requires p >= 1 && Spaced(times, p)
    ensures (|times| - FirstSince(times, lo)) * p <= if times == [] then 0 else Max(0, times[|times| - 1] - lo + p)
  {
    if times != [] && times[|times| - 1] >= lo {
      var front, last := times[..|times| - 1], times[|times| - 1];
      SpacedCount(front, p, lo);
      var k := |front| - FirstSince(front, lo);
      assert (k + 1) * p == k * p + p;
      if front != [] {
        assert Later(front[|front| - 1], last, p);
        var d := PeriodsBetween(front[|front| - 1], last, p);
        MulMonotone(1, d, p);
      }
    }
  }

  lemma ScreenCount(k: int, h: int, p: int, margin: int)
    requires h >= 1 && p >= 1 && margin <= p
    ensures k * p <= (h - 1) * p + margin + p ==> k <= h + 1
  {
    assert (h + 1) * p == (h - 1) * p + p + p;
    FactorAtMost(k, h + 1, p);
  }

  lemma Between(i: int, m: int, p: int)
    requires 0 <= i <= m && p >= 1
    ensures 0 <= i * p <= m * p
  {
    assert (m - i) * p >= 0;
  }

  /** The reload never has to drop rows: twice the screen is enough. */
  lemma NothingDropped(times: seq<int>, p: int, height: nat)
    requires p >= 1 && height >= 1 && times != [] && Spaced(times, p) && times[|times| - 1] > 0
    ensures FirstLoaded(times, p, height) == FirstSince(times, LoadedSince(times[|times| - 1], p, height))
  {
    hide FirstSince, Spaced;
    var top := times[|times| - 1];
    var lo := LoadedSince(top, p, height);
    Between(0, height - 1, p);
    SpacedCount(times, p, lo);
    ScreenCount(|times| - FirstSince(times, lo), height, p, Max(1, p / 2));
  }

  lemma {:induction false} BeforeFirst(times: seq<int>, utcMs: int)
    requires Increasing(times)
    ensures forall j :: 0 <= j < FirstSince(times, utcMs) ==> times[j] < utcMs
  {
    if times != [] && times[|times| - 1] >= utcMs { BeforeFirst(times[..|times| - 1], utcMs); }
  }

  lemma SpacedIncreases(times: seq<int>, p: int)
    requires p >= 1 && Spaced(times, p)
    ensures Increasing(times)
    ensures forall j :: 0 <= j < |times| ==> (times[|times| - 1] - times[j]) % p == 0
  {
    forall i, j | 0 <= i < j < |times| ensures times[i] < times[j] { assert Later(times[i], times[j], p); }
    forall j | 0 <= j < |times| ensures (times[|times| - 1] - times[j]) % p == 0 {
      if j < |times| - 1 { assert Later(times[j], times[|times| - 1], p); }
    }
  }

  /** After a reload, screen row i shows the row i periods before the newest. */
  lemma PickReloadedIsPickAt(times: seq<int>, p: int, height: nat, i: nat)
    requires p >= 1 && height >= 1 && times != [] && Spaced(times, p) && times[|times| - 1] > 0 && i < height
    ensures PickReloaded(times, p, height, i) == PickAt(times, times[|times| - 1] - i * p)
  {
    var top := times[|times| - 1];
    SpacedIncreases(times, p);
    NothingDropped(times, p, height);
    BeforeFirst(times, LoadedSince(top, p, height));
    Between(i, height - 1, p);
    hide FirstSince, Spaced, Increasing, FirstLoaded;
    ReloadPickIsPickAt(times, top, p, height, FirstLoaded(times, p, height), i);
  }

  /** Times whole periods apart always give agreeing schedules, long gaps included. */
  lemma SpacedSchedulesAgree(times: seq<int>, p: int, height: nat)
    requires p >= 1 && height >= 1 && times != [] && Spaced(times, p) && times[|times| - 1] > 0
    ensures SchedulesAgree(times, p, height)
  {
    hide LivePick, PickReloaded, Spaced;
    forall i: nat | i < height ensures LivePick(times, p, height, i) == PickReloaded(times, p, height, i) {
      LivePickIsPickAt(times, p, height, i);
      PickReloadedIsPickAt(times, p, height, i);
    }
  }

  /** The live buffer and the buffer rebuilt from storage agree, screen row by screen row, and both show at screen row i
      the row i periods before the newest, or a blank. */
  lemma LiveEqualsHistory(rows: seq<Row>, p: int, height: nat, n: nat, minHz: real, maxHz: real)
    requires p >= 1 && height >= 1 && rows != [] && LiveRows(rows, n, minHz, maxHz)
    requires Spaced(Times(rows), p) && rows[|rows| - 1].utcMs > 0
    ensures LiveRun(rows, p, height, n).lines == Reloaded(rows, p, height, n, minHz, maxHz)
    ensures forall i: nat :: i < height ==>
              LiveRun(rows, p, height, n).lines[i] == LineOf(rows, n, PickAt(Times(rows), rows[|rows| - 1].utcMs - i * p))
  {
    hide LiveRun, Reloaded, LiveRows, SchedulesAgree, LivePick, PickAt, Spaced, LineOf;
    SpacedSchedulesAgree(Times(rows), p, height);
    ScreensAgreeExactly(rows, p, height, n, minHz, maxHz);
    RowsIncrease(rows, n, minHz, maxHz);
    LiveShowsPicks(rows, p, height, n);
    forall i: nat | i < height
      ensures LiveRun(rows, p, height, n).lines[i] == LineOf(rows, n, PickAt(Times(rows), rows[|rows| - 1].utcMs - i * p))
    {
      LivePickIsPickAt(Times(rows), p, height, i);
    }
  }

  lemma RowsIncrease(rows: seq<Row>, n: nat, minHz: real, maxHz: real)
    requires LiveRows(rows, n, minHz, maxHz)
    ensures Increasing(Times(rows))
  {
  }

  // ---- rows that are not whole periods apart ------------------------------------------------------------

  const ROW_100 := Row(100, 0, 0.0, 1.0, [Bin(1, 1)])
  const ROW_112 := Row(112, 0, 0.0, 1.0, [Bin(2, 2)])
  const ROW_115 := Row(115, 0, 0.0, 1.0, [Bin(2, 2)])

  lemma TwoRows(a: Row, b: Row)
    requires a.utcMs < b.utcMs && a.bins == [Bin(1, 1)] && b.bins == [Bin(2, 2)]
    requires a.viewMinHz == b.viewMinHz == 0.0 && a.viewMaxHz == b.viewMaxHz == 1.0
    ensures LiveRows([a, b], 1, 0.0, 1.0) && TellApart([a, b], 1) && Times([a, b]) == [a.utcMs, b.utcMs]
  {
    assert Blank(1)[0] == Bin(0, 0);
  }

  lemma TwoPicksLive(a: int, b: int, p: int, height: nat, i: nat)
    requires p >= 1 && 1 <= i < height && a < b
    ensures LivePick([a, b], p, height, i) == if i == Shift(b - a, p, height) then Some(0) else None
  {
    assert [a, b][..1] == [a];
    assert LastShift([a, b], p, height) == Shift(b - a, p, height);
    hide Shift, LastShift;
  }

  /** Of two loaded rows the older shows where it lands. */
  lemma TwoPicksReloaded(a: int, b: int, p: int, height: nat, i: nat)
    requires p >= 1 && 1 <= i < height && LoadedSince(b, p, height) <= a < b
    ensures PickReloaded([a, b], p, height, i) == if LandsOn(b, p, height, a, i) then Some(0) else None
  {
    assert [a, b][..1] == [a] && [a][..0] == [];
    NewestLands(b, p, height, i);
    hide LandsOn, LoadedSince;
    var lo := LoadedSince(b, p, height);
    assert FirstSince([a], lo) == 0;
    assert FirstSince([a, b], lo) == 0;
    assert FirstLoaded([a, b], p, height) == 0;
    assert ReloadPick([a], b, p, height, 0, i) == if LandsOn(b, p, height, a, i) then Some(0) else None;
  }

  lemma NewestLands(top: int, p: int, height: nat, i: nat)
    requires p >= 1 && 1 <= i < height
    ensures !LandsOn(top, p, height, top, i)
  {
    AlignedLandsOn(top, p, height, top, i);
    NotTop(top, i, p);
  }

  lemma Numbers115()
    ensures Shift(15, 10, 3) == 1 && !LandsOn(115, 10, 3, 100, 1) && LoadedSince(115, 10, 3) == 90
  {
    assert RowIndexForUtcMs(115, 10, 3, 100) == 2;
  }

  lemma Numbers112()
    ensures Shift(12, 10, 3) == 1 && LoadedSince(112, 10, 3) == 87
    ensures LandsOn(112, 10, 3, 100, 1) && !LandsOn(112, 10, 3, 100, 2)
  {
    assert RowIndexForUtcMs(112, 10, 3, 100) == 1;
  }

  /** 15 ms after 10 ms periods leaves no gap row live, but rounds two rows down on reload: the screens differ. */
  lemma HalfPeriodsDisagree()
    ensures LiveRun([ROW_100, ROW_115], 10, 3, 1).lines != Reloaded([ROW_100, ROW_115], 10, 3, 1, 0.0, 1.0)
  {
    TwoRows(ROW_100, ROW_115);
    hide LiveRun, Reloaded, LiveRows, TellApart, LivePick, PickReloaded, Increasing, Times, Shift, LandsOn, LoadedSince;
    ScreensAgreeExactly([ROW_100, ROW_115], 10, 3, 1, 0.0, 1.0);
    Numbers115();
    TwoPicksLive(100, 115, 10, 3, 1);
    TwoPicksReloaded(100, 115, 10, 3, 1);
    assert LivePick([100, 115], 10, 3, 1) != PickReloaded([100, 115], 10, 3, 1);
  }

  /** 12 ms are no whole period either, but round to the row where the live row stands: the screens are the same. */
  lemma NearPeriodsAgree()
    ensures LiveRun([ROW_100, ROW_112], 10, 3, 1).lines == Reloaded([ROW_100, ROW_112], 10, 3, 1, 0.0, 1.0)
  {
    TwoRows(ROW_100, ROW_112);
    hide LiveRun, Reloaded, LiveRows, TellApart, LivePick, PickReloaded, Increasing, Times, Shift, LandsOn, LoadedSince;
    ScreensAgreeExactly([ROW_100, ROW_112], 10, 3, 1, 0.0, 1.0);
    Numbers112();
    forall i: nat | i < 3 ensures LivePick([100, 112], 10, 3, i) == PickReloaded([100, 112], 10, 3, i) {
      if i > 0 { TwoPicksLive(100, 112, 10, 3, i); TwoPicksReloaded(100, 112, 10, 3, i); } else { NewestOnTop([100, 112], 10, 3); }
    }
  }

  /** The newest row is on top either way. */
  lemma NewestOnTop(times: seq<int>, p: int, height: nat)
    requires p >= 1 && height >= 1 && times != [] && times[|times| - 1] > 0
    ensures LivePick(times, p, height, 0) == PickReloaded(times, p, height, 0) == Some(|times| - 1)
  {
    AlignedLandsOn(times[|times| - 1], p, height, times[|times| - 1], 0);
    hide LandsOn;
    Between(0, height - 1, p);
  }
}
