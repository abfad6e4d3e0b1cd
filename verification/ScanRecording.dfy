/** What a scan writes to: the acquisition recorder and the adapter that starts and stops waterfall recording. */
module ScanRecording {
  import opened Common

  /** A bearing frame observation; what is in it does not matter here. */
  type Frame = int

  datatype Session = Session(id: nat, observations: seq<Frame>)

  datatype Recorder = Recorder(active: Option<Session>, closed: seq<Session>) {
    predicate Exists(id: nat) { (active.Some? && active.value.id == id) || exists i :: 0 <= i < |closed| && closed[i].id == id }

    predicate CanBegin(id: nat) { active.None? && id != 0 && !Exists(id) }

    function Begin(id: nat): Recorder { if CanBegin(id) then this.(active := Some(Session(id, []))) else this }

    function Append(frame: Frame): Recorder {
      if active.None? then this else this.(active := Some(active.value.(observations := active.value.observations + [frame])))
    }

    function AppendAll(frames: seq<Frame>): Recorder {
      if frames == [] then this else AppendAll(frames[..|frames| - 1]).Append(frames[|frames| - 1])
    }

    predicate CanClose(id: nat) { active.Some? && active.value.id == id }

    function Close(id: nat): Recorder { if CanClose(id) then Recorder(None, closed + [active.value]) else this }

    function Observations(id: nat): seq<Frame> {
      if active.Some? && active.value.id == id then active.value.observations else FirstWith(closed, id)
    }

    ghost predicate UniqueIds() {
      && (forall i, j :: 0 <= i < j < |closed| ==> closed[i].id != closed[j].id)
      && (active.Some? ==> active.value.id != 0 && forall i :: 0 <= i < |closed| ==> closed[i].id != active.value.id)
    }
  }

  function FirstWith(sessions: seq<Session>, id: nat): seq<Frame> {
    if sessions == [] then []
    else if sessions[0].id == id then sessions[0].observations
    else FirstWith(sessions[1..], id)
  }

  lemma {:induction false} FirstWithAt(sessions: seq<Session>, i: nat)
    requires i < |sessions| && forall j :: 0 <= j < i ==> sessions[j].id != sessions[i].id
    ensures FirstWith(sessions, sessions[i].id) == sessions[i].observations
  {
    if i > 0 { FirstWithAt(sessions[1..], i - 1); }
  }

  lemma {:induction false} AppendAllFrames(r: Recorder, frames: seq<Frame>)
    requires r.active.Some?
    ensures r.AppendAll(frames)
            == r.(active := Some(r.active.value.(observations := r.active.value.observations + frames)))
  {
    if frames == [] {
      assert r.active.value.observations + [] == r.active.value.observations;
    } else {
      var front := frames[..|frames| - 1];
      AppendAllFrames(r, front);
      assert frames == front + [frames[|frames| - 1]];
      assert r.active.value.observations + frames == (r.active.value.observations + front) + [frames[|frames| - 1]];
    }
  }

  /** What was recorded between begin and close is what the closed session returns. */
  lemma CloseKeepsObservations(r: Recorder, id: nat, frames: seq<Frame>)
    requires r.UniqueIds() && r.CanBegin(id)
    ensures r.Begin(id).AppendAll(frames).Close(id).Observations(id) == frames
    ensures r.Begin(id).AppendAll(frames).Close(id).UniqueIds()
  {
    AppendAllFrames(r.Begin(id), frames);
    var done := r.Begin(id).AppendAll(frames).Close(id);
    assert [] + frames == frames;
    assert done.closed == r.closed + [Session(id, frames)];
    FirstWithAt(done.closed, |r.closed|);
  }

  /** Each session's observations are found under its id, whether active or closed, and none under any other id. */
  lemma ObservationsFind(r: Recorder, id: nat)
    requires r.UniqueIds()
    ensures r.active.Some? && r.active.value.id == id ==> r.Observations(id) == r.active.value.observations
    ensures forall i :: 0 <= i < |r.closed| && r.closed[i].id == id ==> r.Observations(id) == r.closed[i].observations
    ensures !r.Exists(id) ==> r.Observations(id) == []
    ensures r.Exists(id) <==> (r.active.Some? && r.active.value.id == id) || exists s :: s in r.closed && s.id == id
  {
    forall i | 0 <= i < |r.closed| && r.closed[i].id == id ensures FirstWith(r.closed, id) == r.closed[i].observations {
      FirstWithAt(r.closed, i);
    }
    if !r.Exists(id) { NoneWith(r.closed, id); }
    if s :| s in r.closed && s.id == id {
      var i :| 0 <= i < |r.closed| && r.closed[i] == s;
      assert r.closed[i].id == id;
    }
  }

  lemma {:induction false} NoneWith(sessions: seq<Session>, id: nat)
    requires forall i :: 0 <= i < |sessions| ==> sessions[i].id != id
    ensures FirstWith(sessions, id) == []
  {
    if sessions != [] { NoneWith(sessions[1..], id); }
  }

  class InMemoryScanAcquisitionRecorder {
    var activeSession: Option<Session>
    var closedSessions: seq<Session>

    ghost function View(): Recorder
      reads this
    {
      Recorder(activeSession, closedSessions)
    }

    constructor ()
      ensures View() == Recorder(None, [])
    {
      activeSession, closedSessions := None, [];
    }

    method SessionExists(id: nat) returns (found: bool)
      ensures found == View().Exists(id)
    {
      if activeSession.Some? && activeSession.value.id == id {
        return true;
      }
      for i := 0 to |closedSessions|
        invariant forall j :: 0 <= j < i ==> closedSessions[j].id != id
      {
        if closedSessions[i].id == id {
          return true;
        }
      }
      return false;
    }

    method Begin(id: nat) returns (ok: bool)
      modifies this
      ensures ok == old(View()).CanBegin(id) && View() == old(View()).Begin(id)
    {
      if activeSession.Some? || id == 0 {
        return false;
      }
      var known := SessionExists(id);
      if known {
        return false;
      }
      activeSession := Some(Session(id, []));
      return true;
    }

    method Append(frame: Frame) returns (ok: bool)
      modifies this
      ensures ok == old(activeSession).Some? && View() == old(View()).Append(frame)
    {
      if activeSession.None? {
        return false;
      }
      activeSession := Some(activeSession.value.(observations := activeSession.value.observations + [frame]));
      return true;
    }

    method Close(id: nat) returns (ok: bool)
      modifies this
      ensures ok == old(View()).CanClose(id) && View() == old(View()).Close(id)
    {
      if activeSession.None? || activeSession.value.id != id {
        return false;
      }
      closedSessions := closedSessions + [activeSession.value];
      activeSession := None;
      return true;
    }

    method Observations(id: nat) returns (observations: seq<Frame>)
      ensures observations == View().Observations(id)
    {
      if activeSession.Some? && activeSession.value.id == id {
        return activeSession.value.observations;
      }
      var rest := closedSessions;
      while rest != []
        invariant FirstWith(rest, id) == FirstWith(closedSessions, id)
        decreases |rest|
      {
        if rest[0].id == id {
          return rest[0].observations;
        }
        rest := rest[1..];
      }
      return [];
    }
  }

  // ---- the adapter -------------------------------------------------------------------------------

  /** The scan that started the recording, if any. */
  type Adapter = Option<nat>

  predicate BeginsRecording(a: Adapter, id: nat, starts: bool) { id != 0 && (a.Some? || starts) }

  function AfterBegin(a: Adapter, id: nat, starts: bool): Adapter { if id != 0 && a.None? && starts then Some(id) else a }

  /** Ending with id 0 ends any recording; ending another scan's recording does nothing. */
  function AfterEnd(a: Adapter, id: nat): Adapter { if a.Some? && (id == 0 || a.value == id) then None else a }

  /** A recording ends under its own id or under 0, stays under any other, and starts only when none runs. */
  lemma RecordingBelongsToItsScan(a: Adapter, id: nat, starts: bool)
    ensures a.Some? ==> (AfterEnd(a, id) == None <==> id == 0 || a == Some(id)) && (AfterEnd(a, id).Some? ==> AfterEnd(a, id) == a)
    ensures a.None? ==> AfterEnd(a, id) == None
    ensures AfterBegin(a, id, starts) == (if a.Some? then a else if id > 0 && starts then Some(id) else None)
    ensures BeginsRecording(a, id, starts) <==> id > 0 && AfterBegin(a, id, starts).Some?
  {
  }

  class WaterfallScanRecordingAdapter {
    var activeScanSessionId: Option<nat>
    /** Recordings started and stopped through this adapter. */
    ghost var started: nat
    ghost var stopped: nat

    /** Starts and stops alternate: a recording is open exactly while a scan holds it. */
    ghost predicate Valid()
      reads this
    {
      started == stopped + if activeScanSessionId.Some? then 1 else 0
    }

    constructor ()
      ensures Valid() && activeScanSessionId == None
    {
      activeScanSessionId, started, stopped := None, 0, 0;
    }

    /** `starts` says whether the recording controller ends up recording when asked. */
    method BeginScanRecording(id: nat, starts: bool) returns (ok: bool)
      requires Valid()
      modifies this
      ensures Valid() && ok == BeginsRecording(old(activeScanSessionId), id, starts)
      ensures activeScanSessionId == AfterBegin(old(activeScanSessionId), id, starts)
    {
      if id == 0 {
        return false;
      }
      if activeScanSessionId.Some? {
        return true;
      }
      if !starts {
        return false;
      }
      started := started + 1;
      activeScanSessionId := Some(id);
      return true;
    }

    method EndScanRecording(id: nat)
      requires Valid()
      modifies this
      ensures Valid() && activeScanSessionId == AfterEnd(old(activeScanSessionId), id)
    {
      if activeScanSessionId.None? {
        return;
      }
      if id != 0 && activeScanSessionId.value != id {
        return;
      }
      stopped := stopped + 1;
      activeScanSessionId := None;
    }
  }
}
