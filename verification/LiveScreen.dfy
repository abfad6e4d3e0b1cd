/** The controller's whole way: rows polled and shown live, a reload asked for, loaded and shown, and when that changes
    the screen. */
module LiveScreen {
  import opened Common
  import opened Division
  import opened WaterfallRows
  import opened LiveWaterfall
  import opened LiveHistory

  /** Every time that lands on the screen is in the time range that the reload asks storage for. */
  lemma NoVisibleTimeMissed(top: int, p: int, height: nat, n: nat, minHz: real, maxHz: real, utcMs: int, i: nat)
    requires p >= 1 && top > 0 && i < height && LandsOn(top, p, height, utcMs, i)
    ensures var req := ReloadRequest(top, p, height, n, minHz, maxHz);
            req.bottomUtcMs - Margin(req) <= utcMs <= req.topUtcMs + Margin(req)
  {
    RowIndexIsNearest(top, p, height, utcMs, i);
    Between(i, height - 1, p);
    assert 2 * i * p == 2 * (i * p);
    hide RowIndexForUtcMs;
  }

  /** The screen shows the session's rows as they came in, and the viewport stands at the newest. */
  ghost predicate Tracking(c: WaterfallController)
    reads c, c.ring, c.ring.data, c.storage
  {
    && c.Valid() && c.sessionActive && c.hasSession && c.liveMode && c.rowPeriodMs >= 1
    && c.visibleRowCount == c.ring.height >= 1
    && LiveRows(c.storage.rows, c.ring.nbins, c.viewMinHz, c.viewMaxHz)
    && Live(c.ring.data[..], c.lastLiveRowUtcMs) == LiveRun(c.storage.rows, c.rowPeriodMs, c.ring.height, c.ring.nbins)
    && (c.storage.rows != [] ==> c.topUtcMs == Max(0, c.storage.rows[|c.storage.rows| - 1].utcMs))
  }

  lemma LiveRunSnoc(rows: seq<Row>, row: Row, p: int, height: nat, n: nat)
    requires p >= 1 && height > 0
    ensures LiveRun(rows + [row], p, height, n) == AfterRow(LiveRun(rows, p, height, n), row, p, n)
  {
    assert (rows + [row])[..|rows|] == rows;
  }

  lemma FrontOfLiveRows(rows: seq<Row>, k: nat, n: nat, minHz: real, maxHz: real)
    requires k <= |rows| && LiveRows(rows, n, minHz, maxHz)
    ensures LiveRows(rows[..k], n, minHz, maxHz)
    ensures k < |rows| ==> |rows[k].bins| == n && forall r :: r in rows[..k] ==> RowEarlier(r, rows[k])
  {
    assert Times(rows[..k]) == Times(rows)[..k];
    if k < |rows| {
      forall r | r in rows[..k] ensures RowEarlier(r, rows[k]) {
        var j :| 0 <= j < k && rows[j] == r;
        assert Times(rows)[j] < Times(rows)[k];
      }
    }
  }

  /** A recording that starts with an empty session shows a blank screen once its first reload is served. */
  method BeginSession(c: WaterfallController, startUtcMs: int, sessionPeriodMs: int)
    requires c.Valid() && !c.sessionActive && c.storage.rows == [] && c.viewMaxHz > c.viewMinHz
    requires c.visibleRowCount == c.ring.height >= 1 && c.ring.nbins >= 1
    modifies c, c.ring, c.ring.data
    ensures Tracking(c) && c.ring.data[..] == AllBlank(c.ring.height, c.ring.nbins)
    ensures c.viewMinHz == old(c.viewMinHz) && c.viewMaxHz == old(c.viewMaxHz)
  {
    c.StartRecording(startUtcMs, sessionPeriodMs);
    ServeHistoryRequest(c);
    NothingStored(c.CurrentRequest(), c.ring.height, c.ring.nbins);
    assert LiveRun([], c.rowPeriodMs, c.ring.height, c.ring.nbins) == Live(AllBlank(c.ring.height, c.ring.nbins), None);
  }

  lemma NothingStored(req: Request, height: nat, n: nat)
    ensures Replaced(height, n, HistorySlots(req, [])) == AllBlank(height, n)
  {
    LateAnswerHidesRows(req, [], height, n);
  }

  /** An answer to a request from before live rows came in leaves none of them on the screen. */
  lemma LateAnswerHidesRows(req: Request, rows: seq<Row>, height: nat, n: nat)
    requires forall r :: r in rows ==> 2 * (r.utcMs - req.topUtcMs) >= Max(1, req.rowPeriodMs)
    ensures Replaced(height, n, HistorySlots(req, rows)) == AllBlank(height, n)
  {
    hide RowIndexForUtcMs, Resample, Loaded;
    var lo, hi, most := req.bottomUtcMs - Margin(req), req.topUtcMs + Margin(req), req.visibleRowCount * 2;
    LoadedComeFromStorage(rows, lo, hi, most);
    NoSlotFilled(req, Loaded(rows, lo, hi, most));
    assert forall i :: 0 <= i < |HistorySlots(req, rows)| ==> HistorySlots(req, rows)[i] == None;
  }

  lemma {:induction false} InRangeComesFromStorage(rows: seq<Row>, lo: int, hi: int)
    ensures forall r :: r in InRange(rows, lo, hi) ==> r in rows && lo <= r.utcMs <= hi
  {
    if rows != [] { InRangeComesFromStorage(rows[..|rows| - 1], lo, hi); }
  }

  lemma LoadedComeFromStorage(rows: seq<Row>, lo: int, hi: int, most: int)
    ensures forall r :: r in Loaded(rows, lo, hi, most) ==> r in rows
  {
    InRangeComesFromStorage(rows, Min(lo, hi), Max(lo, hi));
  }

  lemma {:induction false} NoSlotFilled(req: Request, rows: seq<Row>)
    requires forall r :: r in rows ==> 2 * (r.utcMs - req.topUtcMs) >= Max(1, req.rowPeriodMs)
    ensures forall i :: 0 <= i < req.visibleRowCount ==> Slots(req, rows)[i] == None
  {
    hide RowIndexForUtcMs, Resample;
    if rows != [] {
      var last := rows[|rows| - 1];
      NoSlotFilled(req, rows[..|rows| - 1]);
      AboveTheScreen(req, last.utcMs);
    }
  }

  lemma AboveTheScreen(req: Request, utcMs: int)
    requires 2 * (utcMs - req.topUtcMs) >= Max(1, req.rowPeriodMs)
    ensures var i := RowIndexForUtcMs(req.topUtcMs, req.rowPeriodMs, req.visibleRowCount, utcMs);
            !(0 <= i < req.visibleRowCount)
  {
    var p, i := Max(1, req.rowPeriodMs), RowIndexForUtcMs(req.topUtcMs, req.rowPeriodMs, req.visibleRowCount, utcMs);
    assert i == RowIndexForUtcMs(req.topUtcMs, p, req.visibleRowCount, utcMs);
    hide RowIndexForUtcMs;
    if 0 <= i < req.visibleRowCount {
      Between(0, i, p);
      assert 2 * i * p == 2 * (i * p);
      RowIndexIsNearest(req.topUtcMs, p, req.visibleRowCount, utcMs, i);
    }
  }

  lemma LastOfLiveRows(rows: seq<Row>, row: Row, n: nat, minHz: real, maxHz: real)
    requires LiveRows(rows + [row], n, minHz, maxHz)
    ensures n >= 1 && |row.bins| == n && forall r :: r in rows ==> RowEarlier(r, row)
  {
    hide RowEarlier;
    FrontOfLiveRows(rows + [row], |rows|, n, minHz, maxHz);
    assert (rows + [row])[..|rows|] == rows;
  }

  /** The next row of the session. */
  method ShowNextRow(c: WaterfallController, row: Row)
    requires Tracking(c) && LiveRows(c.storage.rows + [row], c.ring.nbins, c.viewMinHz, c.viewMaxHz)
    modifies c, c.ring, c.ring.data, c.storage
    ensures Tracking(c) && c.storage.rows == old(c.storage.rows) + [row]
    ensures c.rowPeriodMs == old(c.rowPeriodMs) && c.viewMinHz == old(c.viewMinHz) && c.viewMaxHz == old(c.viewMaxHz)
  {
    hide LiveRun, LiveRows, AfterRow, RowEarlier;
    LastOfLiveRows(c.storage.rows, row, c.ring.nbins, c.viewMinHz, c.viewMaxHz);
    LiveRunSnoc(c.storage.rows, row, c.rowPeriodMs, c.ring.height, c.ring.nbins);
    c.AppendRenderRow(row, true);
  }

  /** pollWaterfallRows: the drained rows are shown one after the other. */
  method PollWaterfallRows(c: WaterfallController, rows: seq<Row>)
    requires Tracking(c) && LiveRows(c.storage.rows + rows, c.ring.nbins, c.viewMinHz, c.viewMaxHz)
    modifies c, c.ring, c.ring.data, c.storage
    ensures Tracking(c) && c.storage.rows == old(c.storage.rows) + rows
    ensures c.rowPeriodMs == old(c.rowPeriodMs) && c.viewMinHz == old(c.viewMinHz) && c.viewMaxHz == old(c.viewMaxHz)
    ensures c.ring.data[..] == LiveRun(old(c.storage.rows) + rows, c.rowPeriodMs, c.ring.height, c.ring.nbins).lines
  {
    hide LiveRun, LiveRows, AfterRow;
    ghost var all := c.storage.rows + rows;
    ghost var stored := |c.storage.rows|;
    assert all[..stored] == c.storage.rows;
    for i := 0 to |rows|
      invariant Tracking(c) && c.storage.rows == all[..stored + i]
      invariant c.rowPeriodMs == old(c.rowPeriodMs) && c.viewMinHz == old(c.viewMinHz) && c.viewMaxHz == old(c.viewMaxHz)
    {
      FrontOfLiveRows(all, stored + i + 1, c.ring.nbins, c.viewMinHz, c.viewMaxHz);
      assert all[..stored + i + 1] == all[..stored + i] + [rows[i]];
      ShowNextRow(c, rows[i]);
    }
    assert all[..stored + |rows|] == all;
  }

  /** One turn of the history worker, up to the answer taking effect. */
  method ServeHistoryRequest(c: WaterfallController)
    requires c.Valid() && (c.pendingHistoryRequest.Some? ==> c.pendingHistoryRequest.value.request.rowPeriodMs >= 0)
    modifies c`pendingHistoryRequest, c`generationId, c`historyLoading, c.ring, c.ring.data
    ensures c.Valid() && c.pendingHistoryRequest == None
    ensures match old(c.pendingHistoryRequest)
            case None => c.ring.data[..] == old(c.ring.data[..]) && c.historyLoading == old(c.historyLoading)
            case Some(asked) =>
              && c.ring.data[..] == Replaced(c.ring.height, c.ring.nbins, HistorySlots(asked.request, c.storage.rows))
              && !c.historyLoading && c.ring.generationId == c.generationId == old(c.generationId) + 1
  {
    hide HistorySlots, Replaced;
    var taken := c.TakeHistoryRequest();
    if taken.Some? {
      var slots := LoadHistoryRows(taken.value.request, c.storage);
      c.ApplyHistory(taken.value.id, slots);
    }
  }

  /** commitViewport and the reload that it asks for. The screen then shows at every row the newest stored row that lands
      there, and it is the screen the live rows had built exactly when the rows' schedules agree. */
  method CommitViewport(c: WaterfallController)
    requires Tracking(c) && c.storage.rows != [] && c.topUtcMs > 0
    modifies c`lastLiveRowUtcMs, c`generationId, c`latestHistoryRequestId, c`pendingHistoryRequest, c`historyLoading,
             c.ring, c.ring.data
    ensures c.Valid() && !c.historyLoading && c.ring.generationId == c.generationId == old(c.generationId) + 2
    ensures forall i: nat :: i < c.ring.height ==>
              c.ring.data[i] == LineOf(c.storage.rows, c.ring.nbins,
                                       PickReloaded(Times(c.storage.rows), c.rowPeriodMs, c.ring.height, i))
    ensures SchedulesAgree(Times(c.storage.rows), c.rowPeriodMs, c.ring.height) ==> c.ring.data[..] == old(c.ring.data[..])
    ensures TellApart(c.storage.rows, c.ring.nbins) && c.ring.data[..] == old(c.ring.data[..]) ==>
              SchedulesAgree(Times(c.storage.rows), c.rowPeriodMs, c.ring.height)
  {
    hide HistorySlots, Replaced, LiveRun, LiveRows, SchedulesAgree, TellApart, LineOf, PickReloaded;
    ghost var rows, p, height, n := c.storage.rows, c.rowPeriodMs, c.ring.height, c.ring.nbins;
    c.generationId := c.generationId + 1;
    c.UpdateRenderBuffer();
    assert c.pendingHistoryRequest.value.request == ReloadRequest(rows[|rows| - 1].utcMs, p, height, n, c.viewMinHz, c.viewMaxHz);
    ServeHistoryRequest(c);
    assert c.ring.data[..] == Reloaded(rows, p, height, n, c.viewMinHz, c.viewMaxHz);
    hide Reloaded;
    ScreensAgreeExactly(rows, p, height, n, c.viewMinHz, c.viewMaxHz);
    forall i: nat | i < height ensures c.ring.data[i] == LineOf(rows, n, PickReloaded(Times(rows), p, height, i)) {
      ReloadShowsPicks(rows, p, height, n, c.viewMinHz, c.viewMaxHz, i);
      assert c.ring.data[i] == c.ring.data[..][i];
    }
  }
}
