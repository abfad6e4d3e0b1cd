/** The waterfall on screen: the ring buffer, rows pushed live with gap filling, and rows reloaded from storage. */
module LiveWaterfall {
  import opened Common
  import opened Division
  import opened WaterfallRows

  type Lines = seq<seq<Bin>>

  // ---- what the ring buffer operations do ----------------------------------------------------------

  function AllBlank(height: nat, n: nat): (r: Lines)
    ensures |r| == height
  {
    seq(height, _ => Blank(n))
  }

  function Pushed(lines: Lines, line: seq<Bin>): Lines
    requires lines != []
  {
    [line] + lines[..|lines| - 1]
  }

  /** A slot's line: its bins, cut or filled up with blanks to the buffer's width. */
  function SlotLine(n: nat, slot: Option<seq<Bin>>): (r: seq<Bin>)
    ensures |r| == n
  {
    if slot.None? || slot.value == [] then Blank(n)
    else if |slot.value| >= n then slot.value[..n]
    else slot.value + Blank(n - |slot.value|)
  }

  lemma EmptySlot(n: nat, slot: Option<seq<Bin>>)
    requires slot.None? || slot.value == []
    ensures SlotLine(n, slot) == Blank(n)
  {
  }

  lemma CopyIntoBlank(n: nat, bins: seq<Bin>)
    requires bins != []
    ensures var k := if n < |bins| then n else |bins|;
            bins[..k] + Blank(n)[k..] == SlotLine(n, Some(bins)) && |SlotLine(n, Some(bins))| == n
  {
  }

  function Replaced(height: nat, n: nat, slots: seq<Option<seq<Bin>>>): (r: Lines)
    ensures |r| == height
  {
    seq(height, i requires 0 <= i => if i < |slots| then SlotLine(n, slots[i]) else Blank(n))
  }

  function Occupied(slots: seq<Option<seq<Bin>>>): nat {
    if slots == [] then 0
    else
      var s := slots[|slots| - 1];
      Occupied(slots[..|slots| - 1]) + if s.Some? && s.value != [] then 1 else 0
  }

  /** The slots that hold bins. */
  ghost function OccupiedSlots(slots: seq<Option<seq<Bin>>>): set<int> {
    set i | 0 <= i < |slots| && slots[i].Some? && slots[i].value != []
  }

  /** The number of occupied rows is the number of slots that hold bins. */
  lemma {:induction false} OccupiedCounts(slots: seq<Option<seq<Bin>>>)
    ensures Occupied(slots) == |OccupiedSlots(slots)|
  {
    if slots != [] {
      var n := |slots| - 1;
      OccupiedCounts(slots[..n]);
      assert OccupiedSlots(slots) == OccupiedSlots(slots[..n]) + if slots[n].Some? && slots[n].value != [] then {n} else {};
    } else {
      assert OccupiedSlots(slots) == {};
    }
  }

  lemma NoneOccupied(slots: seq<Option<seq<Bin>>>)
    ensures Occupied(slots[..0]) == 0
  {
  }

  lemma OccupiedNext(slots: seq<Option<seq<Bin>>>, row: nat)
    requires row < |slots|
    ensures Occupied(slots[..row + 1]) == Occupied(slots[..row]) + if slots[row].Some? && slots[row].value != [] then 1 else 0
  {
    assert slots[..row + 1][..row] == slots[..row];
  }

  /** WaterfallRingBuffer: the newest line first. */
  class RingBuffer {
    const nbins: nat
    const height: nat
    const data: array<seq<Bin>>
    var populatedRows: nat
    var writeIndex: nat
    var generationId: nat

    ghost predicate Valid()
      reads this, data
    {
      data.Length == height && populatedRows <= height && forall i :: 0 <= i < height ==> |data[i]| == nbins
    }

    constructor (bins: nat, rows: nat)
      ensures Valid() && nbins == bins && height == rows && data[..] == AllBlank(rows, bins) && fresh(data)
      ensures populatedRows == writeIndex == generationId == 0
    {
      nbins, height := bins, rows;
      data := new seq<Bin>[rows](_ => Blank(bins));
      populatedRows, writeIndex, generationId := 0, 0, 0;
    }

    /** Shifts every line down one row in place; lines of another width are ignored. */
    method PushLine(line: seq<Bin>, generation: nat)
      requires Valid()
      modifies this, data
      ensures Valid()
      ensures if |line| != nbins || height == 0 then
                data[..] == old(data[..]) && unchanged(`populatedRows) && unchanged(`writeIndex)
              else
                data[..] == Pushed(old(data[..]), line) && populatedRows == Min(height, old(populatedRows) + 1)
                && writeIndex == old(writeIndex) + 1 && generationId == generation
    {
      if |line| != nbins || height == 0 {
        return;
      }
      if height > 1 {
        forall i | 1 <= i < height {
          data[i] := data[i - 1];
        }
      }
      data[0] := line;
      populatedRows := if populatedRows + 1 < height then populatedRows + 1 else height;
      generationId := generation;
      writeIndex := writeIndex + 1;
    }

    method ReplaceSlots(slots: seq<Option<seq<Bin>>>, generation: nat)
      requires Valid()
      modifies this, data
      ensures Valid()
      ensures data[..] == Replaced(height, nbins, slots)
      ensures populatedRows == Occupied(slots[..Min(height, |slots|)])
      ensures writeIndex == old(writeIndex) + 1 && generationId == generation
    {
      hide SlotLine, Blank, Occupied;
      forall i | 0 <= i < height {
        data[i] := Blank(nbins);
      }
      NoneOccupied(slots);
      forall i | 0 <= i < |slots| && (slots[i].None? || slots[i].value == []) ensures SlotLine(nbins, slots[i]) == Blank(nbins) {
        EmptySlot(nbins, slots[i]);
      }
      var slotCount := if height < |slots| then height else |slots|;
      var populated := 0;
      for row := 0 to slotCount
        invariant writeIndex == old(writeIndex)
        invariant populated == Occupied(slots[..row]) <= row
        invariant forall i :: 0 <= i < height ==> data[i] == if i < row then SlotLine(nbins, slots[i]) else Blank(nbins)
      {
        OccupiedNext(slots, row);
        var slot := slots[row];
        if slot.None? || |slot.value| == 0 {
          continue;
        }
        CopyIntoBlank(nbins, slot.value);
        var binsToCopy := if nbins < |slot.value| then nbins else |slot.value|;
        data[row] := slot.value[..binsToCopy] + data[row][binsToCopy..];
        populated := populated + 1;
      }
      populatedRows := populated;
      generationId := generation;
      writeIndex := writeIndex + 1;
    }

    method CopyLine(row: int, width: int) returns (line: Option<seq<Bin>>)
      requires Valid()
      ensures line == if width != nbins || row < 0 || row >= height || nbins == 0 then None else Some(data[row])
    {
      if width != nbins || row < 0 || row >= height || nbins == 0 {
        return None;
      }
      return Some(data[row]);
    }
  }

  // ---- live rows ----------------------------------------------------------------------------------

  datatype Live = Live(lines: Lines, last: Option<int>)

  /** Blank rows pushed before a live row: the periods skipped since the last one, at most all but one screen row. */
  function GapRows(last: Option<int>, utcMs: int, p: int, height: nat): nat
    requires p >= 1
  {
    if last.Some? && utcMs > last.value then Clamp((utcMs - last.value) / p - 1, 0, Max(0, height - 1)) else 0
  }

  function PushedTimes(lines: Lines, line: seq<Bin>, k: nat): (r: Lines)
    requires lines != []
    ensures |r| == |lines|
  {
    if k == 0 then lines else Pushed(PushedTimes(lines, line, k - 1), line)
  }

  /** appendRenderRow in live mode with a row of the buffer's width. */
  function AfterRow(live: Live, row: Row, p: int, n: nat): Live
    requires p >= 1 && live.lines != []
  {
    var gap := GapRows(live.last, row.utcMs, p, |live.lines|);
    Live(Pushed(PushedTimes(live.lines, Blank(n), gap), row.bins),
         if live.last.None? || row.utcMs > live.last.value then Some(row.utcMs) else live.last)
  }

  function LiveRun(rows: seq<Row>, p: int, height: nat, n: nat): (r: Live)
    requires p >= 1 && height > 0
    ensures |r.lines| == height
  {
    if rows == [] then Live(AllBlank(height, n), None)
    else AfterRow(LiveRun(rows[..|rows| - 1], p, height, n), rows[|rows| - 1], p, n)
  }

  // ---- rows reloaded from storage -----------------------------------------------------------------

  datatype Request = Request(topUtcMs: int, bottomUtcMs: int, rowPeriodMs: int, visibleRowCount: nat,
                             renderBinCount: nat, viewMinHz: real, viewMaxHz: real)

  /** The slots that the loaded rows fill, later rows over earlier ones. */
  function Slots(req: Request, rows: seq<Row>): (r: seq<Option<seq<Bin>>>)
    ensures |r| == req.visibleRowCount
  {
    if rows == [] then seq(req.visibleRowCount, _ => None)
    else
      var front, row := Slots(req, rows[..|rows| - 1]), rows[|rows| - 1];
      var index := RowIndexForUtcMs(req.topUtcMs, req.rowPeriodMs, req.visibleRowCount, row.utcMs);
      if 0 <= index < req.visibleRowCount
      then front[index := Some(Resample(row, req.viewMinHz, req.viewMaxHz, req.renderBinCount))]
      else front
  }

  function Margin(req: Request): int { Max(1, req.rowPeriodMs / 2) }

  function HistorySlots(req: Request, stored: seq<Row>): seq<Option<seq<Bin>>> {
    if req.visibleRowCount == 0 then []
    else Slots(req, Loaded(stored, req.bottomUtcMs - Margin(req), req.topUtcMs + Margin(req), req.visibleRowCount * 2))
  }

  /** loadHistoryRows of a valid session. */
  method LoadHistoryRows(req: Request, storage: SessionRows) returns (slots: seq<Option<seq<Bin>>>)
    requires storage.Valid() && req.rowPeriodMs >= 0
    ensures slots == HistorySlots(req, storage.rows)
  {
    hide Resample, RowIndexForUtcMs, Loaded;
    slots := seq(req.visibleRowCount, _ => None);
    if req.visibleRowCount == 0 {
      return;
    }
    var margin := if 1 < req.rowPeriodMs / 2 then req.rowPeriodMs / 2 else 1;
    var rows := storage.LoadRows(req.bottomUtcMs - margin, req.topUtcMs + margin, req.visibleRowCount * 2);
    for i := 0 to |rows|
      invariant slots == Slots(req, rows[..i])
    {
      assert rows[..i + 1][..i] == rows[..i];
      var index := RowIndexForUtcMs(req.topUtcMs, req.rowPeriodMs, req.visibleRowCount, rows[i].utcMs);
      if index < 0 || index >= |slots| {
        continue;
      }
      slots := slots[index := Some(Resample(rows[i], req.viewMinHz, req.viewMaxHz, req.renderBinCount))];
    }
    assert rows[..|rows|] == rows;
  }

  // ---- lines after a live row ----------------------------------------------------------------------

  lemma {:induction false} PushedTimesLines(lines: Lines, line: seq<Bin>, k: nat)
    requires lines != [] && k <= |lines|
    ensures forall i :: 0 <= i < |lines| ==> PushedTimes(lines, line, k)[i] == if i < k then line else lines[i - k]
  {
    if k > 0 { PushedTimesLines(lines, line, k - 1); }
  }

  /** A live row's line is on top, the skipped periods are blank and the older lines moved down. */
  lemma AfterRowLines(live: Live, row: Row, p: int, n: nat)
    requires p >= 1 && live.lines != []
    ensures var gap := GapRows(live.last, row.utcMs, p, |live.lines|);
            forall i :: 0 <= i < |live.lines| ==>
              AfterRow(live, row, p, n).lines[i]
              == if i == 0 then row.bins else if i <= gap then Blank(n) else live.lines[i - gap - 1]
  {
    var gap := GapRows(live.last, row.utcMs, p, |live.lines|);
    assert gap < |live.lines|;
    var moved := PushedTimes(live.lines, Blank(n), gap);
    assert AfterRow(live, row, p, n).lines == Pushed(moved, row.bins);
    hide GapRows, PushedTimes, Blank, AfterRow;
    PushedTimesLines(live.lines, Blank(n), gap);
    PushedLines(moved, row.bins);
  }

  lemma PushedLines(lines: Lines, line: seq<Bin>)
    requires lines != []
    ensures forall i :: 0 <= i < |lines| ==> Pushed(lines, line)[i] == if i == 0 then line else lines[i - 1]
  {
  }

  // ---- the controller's part ---------------------------------------------------------------------

  datatype HistoryRequest = HistoryRequest(id: nat, request: Request)

  class WaterfallController {
    const ring: RingBuffer
    const storage: SessionRows
    const visibleRowCount: nat
    var sessionActive: bool
    /** The viewport: whether it has a session, its mode, its top and its row period. */
    var hasSession: bool
    var liveMode: bool
    var topUtcMs: int
    var rowPeriodMs: int
    var viewMinHz: real
    var viewMaxHz: real
    var lastLiveRowUtcMs: Option<int>
    var generationId: nat
    var latestHistoryRequestId: nat
    var pendingHistoryRequest: Option<HistoryRequest>
    var historyLoading: bool

    /** Only the latest request can still be waiting for the history worker. */
    ghost predicate Valid()
      reads this, ring, ring.data, storage
    {
      && ring.Valid() && storage.Valid()
      && (pendingHistoryRequest.Some? ==> pendingHistoryRequest.value.id == latestHistoryRequestId)
    }

    constructor (ring: RingBuffer, storage: SessionRows, rowPeriodMs: int, visibleRowCount: nat, minHz: real, maxHz: real)
      requires ring.Valid() && storage.Valid()
      ensures Valid() && this.ring == ring && this.storage == storage && this.rowPeriodMs == rowPeriodMs
      ensures !sessionActive && !hasSession && !liveMode && lastLiveRowUtcMs == None && !historyLoading
      ensures topUtcMs == generationId == latestHistoryRequestId == 0 && pendingHistoryRequest == None
      ensures this.visibleRowCount == visibleRowCount && viewMinHz == minHz && viewMaxHz == maxHz
    {
      this.ring, this.storage, this.rowPeriodMs, this.visibleRowCount := ring, storage, rowPeriodMs, visibleRowCount;
      viewMinHz, viewMaxHz := minHz, maxHz;
      sessionActive, hasSession, liveMode, topUtcMs, lastLiveRowUtcMs, generationId := false, false, false, 0, None, 0;
      latestHistoryRequestId, pendingHistoryRequest, historyLoading := 0, None, false;
    }

    /** The viewport and view as they are now. */
    function CurrentRequest(): Request
      reads this, ring
    {
      Request(topUtcMs, if topUtcMs <= 0 then 0 else topUtcMs - Max(0, visibleRowCount - 1) * rowPeriodMs, rowPeriodMs,
              visibleRowCount, ring.nbins, viewMinHz, viewMaxHz)
    }

    /** startRecording with the storage's new session: live at the session's start, and a reload asked for. */
    method StartRecording(startUtcMs: int, sessionPeriodMs: int)
      requires Valid()
      modifies this, ring, ring.data
      ensures Valid() && sessionActive && viewMinHz == old(viewMinHz) && viewMaxHz == old(viewMaxHz)
      ensures old(sessionActive) ==>
                unchanged(this) && ring.data[..] == old(ring.data[..])
      ensures !old(sessionActive) ==>
                && hasSession && liveMode && lastLiveRowUtcMs == None && historyLoading
                && topUtcMs >= 0 && topUtcMs >= startUtcMs && topUtcMs in {0, startUtcMs}
                && rowPeriodMs >= 1 && rowPeriodMs >= sessionPeriodMs && rowPeriodMs in {1, sessionPeriodMs}
                && pendingHistoryRequest == Some(HistoryRequest(latestHistoryRequestId, CurrentRequest()))
                && ring.data[..] == old(ring.data[..])
    {
      if sessionActive {
        return;
      }
      lastLiveRowUtcMs := None;
      sessionActive := true;
      hasSession, liveMode := true, true;
      topUtcMs, rowPeriodMs := Max(0, startUtcMs), Max(1, sessionPeriodMs);
      UpdateRenderBuffer();
    }

    /** Asks for a reload under a new id, replacing a request still waiting; without a session the screen goes blank. */
    method UpdateRenderBuffer()
      requires Valid()
      modifies this`lastLiveRowUtcMs, this`generationId, this`latestHistoryRequestId, this`pendingHistoryRequest,
               this`historyLoading, ring, ring.data
      ensures Valid() && lastLiveRowUtcMs == None
      ensures hasSession ==>
                && pendingHistoryRequest == Some(HistoryRequest(latestHistoryRequestId, CurrentRequest()))
                && var asked := pendingHistoryRequest.value.request;
                && asked.topUtcMs == topUtcMs && asked.rowPeriodMs == rowPeriodMs && asked.visibleRowCount == visibleRowCount
                && asked.renderBinCount == ring.nbins && asked.viewMinHz == viewMinHz && asked.viewMaxHz == viewMaxHz
                && (topUtcMs <= 0 ==> asked.bottomUtcMs == 0)
                && (topUtcMs > 0 && visibleRowCount > 0 ==> topUtcMs - asked.bottomUtcMs == (visibleRowCount - 1) * rowPeriodMs)
                && (topUtcMs > 0 && visibleRowCount == 0 ==> asked.bottomUtcMs == topUtcMs)
      ensures if hasSession then
                && latestHistoryRequestId == old(latestHistoryRequestId) + 1 && historyLoading
                && ring.data[..] == old(ring.data[..]) && generationId == old(generationId)
              else
                && ring.generationId == generationId == old(generationId) + 1
                && latestHistoryRequestId == old(latestHistoryRequestId) && pendingHistoryRequest == old(pendingHistoryRequest)
                && !historyLoading && ring.data[..] == Replaced(ring.height, ring.nbins, seq(visibleRowCount, _ => None))
    {
      lastLiveRowUtcMs := None;
      if !hasSession {
        generationId := generationId + 1;
        ring.ReplaceSlots(seq(visibleRowCount, _ => None), generationId);
        historyLoading := false;
        return;
      }
      latestHistoryRequestId := latestHistoryRequestId + 1;
      pendingHistoryRequest := Some(HistoryRequest(latestHistoryRequestId, CurrentRequest()));
      historyLoading := true;
    }

    /** The history worker picks up the waiting request. */
    method TakeHistoryRequest() returns (taken: Option<HistoryRequest>)
      requires Valid()
      modifies this`pendingHistoryRequest
      ensures Valid() && taken == old(pendingHistoryRequest) && pendingHistoryRequest == None
      ensures taken.Some? ==> taken.value.id == latestHistoryRequestId
    {
      taken := pendingHistoryRequest;
      pendingHistoryRequest := None;
    }

    method PushLiveRow(bins: seq<Bin>) returns (ok: bool)
      requires Valid()
      modifies this`generationId, ring, ring.data
      ensures Valid()
      ensures ok == (ring.height > 0 && bins != [] && |bins| == ring.nbins)
      ensures ring.data[..] == if ok then Pushed(old(ring.data[..]), bins) else old(ring.data[..])
      ensures if ok then ring.generationId == generationId == old(generationId) + 1 else generationId == old(generationId)
    {
      if ring.height == 0 || |bins| == 0 {
        return false;
      }
      if |bins| != ring.nbins {
        return false;
      }
      generationId := generationId + 1;
      ring.PushLine(bins, generationId);
      return true;
    }

    /** The blank rows of skipped periods; stops at the first that cannot be pushed. */
    method PushGap(missing: nat) returns (pushed: bool)
      requires Valid()
      modifies this`generationId, ring, ring.data
      ensures Valid()
      ensures pushed == (missing == 0 || (ring.height > 0 && ring.nbins > 0))
      ensures ring.data[..] == if pushed && ring.height > 0 then PushedTimes(old(ring.data[..]), Blank(ring.nbins), missing)
                               else old(ring.data[..])
    {
      hide Pushed;
      pushed := true;
      var i := missing;
      if ring.height > 0 { NoPush(ring.data[..], Blank(ring.nbins)); }
      while i > 0
        invariant 0 <= i <= missing && Valid() && pushed == (i == missing || (ring.height > 0 && ring.nbins > 0))
        invariant ring.data[..] == if ring.height > 0 then PushedTimes(old(ring.data[..]), Blank(ring.nbins), missing - i)
                                   else old(ring.data[..])
      {
        var ok := PushLiveRow(Blank(ring.nbins));
        if !ok {
          return false;
        }
        i := i - 1;
      }
    }

    /** appendRenderRow: store the row; in live mode show it below its gap, or ask for a reload when its width is wrong. */
    method AppendRenderRow(row: Row, hasVisibleCells: bool)
      requires Valid()
      modifies this, ring, ring.data, storage
      ensures Valid() && sessionActive == old(sessionActive) && liveMode == old(liveMode) && rowPeriodMs == old(rowPeriodMs)
      ensures hasSession == old(hasSession) && viewMinHz == old(viewMinHz) && viewMaxHz == old(viewMaxHz)
      ensures !(old(sessionActive) && hasVisibleCells && liveMode) ==> topUtcMs == old(topUtcMs)
      ensures !(old(sessionActive) && hasVisibleCells) ==>
                storage.rows == old(storage.rows) && ring.data[..] == old(ring.data[..])
                && lastLiveRowUtcMs == old(lastLiveRowUtcMs) && latestHistoryRequestId == old(latestHistoryRequestId)
      ensures old(sessionActive) && hasVisibleCells ==>
                multiset(storage.rows) == multiset(old(storage.rows)) + multiset{row}
                && ((forall r :: r in old(storage.rows) ==> RowEarlier(r, row)) ==> storage.rows == old(storage.rows) + [row])
      ensures old(sessionActive) && hasVisibleCells && !liveMode ==>
                ring.data[..] == old(ring.data[..]) && lastLiveRowUtcMs == old(lastLiveRowUtcMs)
                && latestHistoryRequestId == old(latestHistoryRequestId)
      ensures old(sessionActive) && hasVisibleCells && liveMode && ring.height > 0 && ring.nbins > 0 ==>
                var shown := Live(old(ring.data[..]), old(lastLiveRowUtcMs));
                && topUtcMs == Max(0, row.utcMs)
                && if |row.bins| == ring.nbins then
                     && Live(ring.data[..], lastLiveRowUtcMs) == AfterRow(shown, row, Max(1, rowPeriodMs), ring.nbins)
                     && latestHistoryRequestId == old(latestHistoryRequestId)
                   else
                     && lastLiveRowUtcMs == None
                     && (hasSession ==> pendingHistoryRequest == Some(HistoryRequest(old(latestHistoryRequestId) + 1, CurrentRequest())))
    {
      hide RowEarlier, AfterRow, Replaced;
      if !sessionActive {
        return;
      }
      if !hasVisibleCells {
        return;
      }
      storage.AppendRow(row);
      if !liveMode {
        return;
      }
      topUtcMs := if row.utcMs > 0 then row.utcMs else 0;
      var shown := ShowLiveRow(row);
      if !shown {
        UpdateRenderBuffer();
      }
    }

    /** The live row and the blank rows of its gap; a row of another width is turned away, perhaps after its gap. */
    method ShowLiveRow(row: Row) returns (shown: bool)
      requires Valid()
      modifies this`lastLiveRowUtcMs, this`generationId, ring, ring.data
      ensures Valid() && (shown ==> ring.height > 0)
      ensures ring.height > 0 && ring.nbins > 0 ==>
                && shown == (|row.bins| == ring.nbins)
                && (shown ==> Live(ring.data[..], lastLiveRowUtcMs)
                              == AfterRow(Live(old(ring.data[..]), old(lastLiveRowUtcMs)), row, Max(1, rowPeriodMs), ring.nbins))
    {
      hide Pushed, PushedTimes, Blank;
      var p := if 1 < rowPeriodMs then rowPeriodMs else 1;
      var pushed := true;
      if ring.height > 0 { NoPush(ring.data[..], Blank(ring.nbins)); }
      if lastLiveRowUtcMs.Some? && row.utcMs > lastLiveRowUtcMs.value {
        var missing := (row.utcMs - lastLiveRowUtcMs.value) / p - 1;
        var maxGapRows := if ring.height > 0 then ring.height - 1 else 0;
        missing := Clamp(missing, 0, maxGapRows);
        pushed := PushGap(missing);
      }
      if !pushed {
        return false;
      }
      shown := PushLiveRow(row.bins);
      if shown {
        if lastLiveRowUtcMs.None? || row.utcMs > lastLiveRowUtcMs.value {
          lastLiveRowUtcMs := Some(row.utcMs);
        }
      }
    }

    /** The history worker's answer: ignored unless it answers the latest request. */
    method ApplyHistory(requestId: nat, slots: seq<Option<seq<Bin>>>)
      requires Valid()
      modifies this`generationId, this`historyLoading, ring, ring.data
      ensures Valid()
      ensures if requestId != latestHistoryRequestId
              then ring.data[..] == old(ring.data[..]) && historyLoading == old(historyLoading) && generationId == old(generationId)
              else ring.data[..] == Replaced(ring.height, ring.nbins, slots) && !historyLoading
                   && ring.generationId == generationId == old(generationId) + 1
    {
      if requestId != latestHistoryRequestId {
        return;
      }
      generationId := generationId + 1;
      ring.ReplaceSlots(slots, generationId);
      historyLoading := false;
    }
  }

  lemma NoPush(lines: Lines, line: seq<Bin>)
    requires lines != []
    ensures PushedTimes(lines, line, 0) == lines
  {
  }
}
