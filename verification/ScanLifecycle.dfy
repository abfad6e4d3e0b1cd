/** The scan controller as a state machine over its events, in any order: user commands, azimuth samples, bearing frames
    and the asynchronous answer that finalizes a completed scan. */
module ScanLifecycle {
  import opened Common
  import opened AntennaGeometry
  import opened ScanRecording

  const MIN_SPEED: real := 1.0
  const MAX_SPEED: real := 60.0
  const MIN_SECTOR: real := 5.0
  const ANGLE_TOLERANCE: real := 0.2

  datatype ScanState = Idle | SectorSelected | MovingToStart | Scanning | Completing | Completed | Cancelled | Failed

  type Path = p: PlannedPath | p.spanDeg > 0.0
    witness PlannedPath(ScanSector(0.0, 10.0), 0.0, 10.0, 170.0, 180.0, 10.0, IncreasingSafeCoord, false)

  /** frames remembers what was accepted for the session; metadataId is set when the acquisition opens. */
  datatype ScanSession = ScanSession(id: nat, path: Path, speedDegPerSec: real, lastAzimuthDeg: real, metadataId: nat, frames: seq<Frame>)

  /** The signals that end a scan. */
  datatype Outcome = CompletedScan(id: nat, frameCount: nat) | CancelledScan(id: nat) | FailedScan(id: nat)

  /** Which collaborators are configured. */
  datatype Config = Config(antenna: bool, recorder: bool, recording: bool)

  /** Answers of the collaborators to the calls an event makes. */
  datatype Answers = Answers(recordingAvailable: bool, moveOk: bool, sectorScanOk: bool, recordingStarts: bool)

  datatype Controller = Controller(cfg: Config, state: ScanState, session: Option<ScanSession>, nextId: nat,
                                   sector: Option<ScanSector>, azimuthDeg: real, antennaSpeed: real,
                                   recorder: Recorder, adapter: Adapter,
                                   pending: multiset<nat>, outcomes: seq<Outcome>)
  {
    predicate Active() { state == MovingToStart || state == Scanning || state == Completing }

    function SessionId(): nat { if session.Some? then session.value.id else 0 }
  }

  function Init(cfg: Config): Controller {
    Controller(cfg, Idle, None, 1, None, 0.0, 10.0, Recorder(None, []), None, multiset{}, [])
  }

  function AngularDistance(a: real, b: real): real {
    var diff := AbsReal(Normalize(b) - Normalize(a));
    MinReal(diff, MAX_AZIMUTH - diff)
  }

  predicate ValidSpeed(speed: real) { MIN_SPEED <= speed <= MAX_SPEED }

  function OptionsFor(speed: real): Options { Options(speed, MIN_SECTOR, ANGLE_TOLERANCE) }

  // ---- the handlers ------------------------------------------------------------------------------

  function EndRecording(c: Controller, id: nat): Controller {
    if c.cfg.recording then c.(adapter := AfterEnd(c.adapter, id)) else c
  }

  function CloseAcquisition(c: Controller): Controller {
    if c.session.None? || !c.cfg.recorder || c.recorder.active.None? then c
    else c.(recorder := c.recorder.Close(c.session.value.metadataId))
  }

  /** What cancelling and failing share: stop writing, forget the session, report. */
  function EndScan(c: Controller, state: ScanState, outcome: Outcome): Controller {
    EndRecording(CloseAcquisition(c), c.SessionId())
      .(session := None, state := state, outcomes := c.outcomes + [outcome])
  }

  function FailScan(c: Controller): Controller { EndScan(c, Failed, FailedScan(c.SessionId())) }

  function StopScan(c: Controller): Controller { if !c.Active() then c else EndScan(c, Cancelled, CancelledScan(c.SessionId())) }

  function BeginSectorScan(c: Controller, answers: Answers): Controller {
    if c.session.None? || c.state != MovingToStart || !c.cfg.antenna then c
    else if !answers.sectorScanOk then FailScan(c)
    else
      var id := c.session.value.id;
      if c.cfg.recording && !BeginsRecording(c.adapter, id, answers.recordingStarts) then FailScan(c)
      else
        var recording := if c.cfg.recording then c.(adapter := AfterBegin(c.adapter, id, answers.recordingStarts)) else c;
        if !c.recorder.CanBegin(id) then FailScan(recording)
        else recording.(recorder := c.recorder.Begin(id), session := Some(c.session.value.(metadataId := id)), state := Scanning)
  }

  /** A new session under the next id, moving to the path's start. */
  function OpenScan(c: Controller, path: Path, speed: real): Controller {
    c.(sector := Some(path.requestedSector), nextId := c.nextId + 1, state := MovingToStart,
       session := Some(ScanSession(c.nextId, path, speed, c.azimuthDeg, 0, [])))
  }

  function StartScan(c: Controller, left: real, right: real, speed: real, answers: Answers): Controller {
    if c.Active() then c
    else if c.cfg.recording && !answers.recordingAvailable then c
    else if !ValidSpeed(speed) then c
    else
      var ready := if AbsReal(c.antennaSpeed - speed) > 0.001 then c.(antennaSpeed := speed) else c;
      var plan := PlanFromCurrentAzimuth(left, right, c.azimuthDeg, OptionsFor(speed));
      if !plan.Planned? then ready
      else if !c.cfg.antenna then FailScan(ready)
      else if !c.cfg.recorder then FailScan(ready)
      else
        PlannedExactlyWhenUsable(left, right, c.azimuthDeg, OptionsFor(speed));
        var moving := OpenScan(ready, plan.path, speed);
        if !answers.moveOk then FailScan(moving)
        else if AngularDistance(c.azimuthDeg, plan.path.startAzimuthDeg) <= ANGLE_TOLERANCE then BeginSectorScan(moving, answers)
        else moving
  }

  /** Progress along the planned path, before clamping. */
  function Progress(path: Path, azimuth: real): real {
    var c := ToSafeCoord(azimuth);
    (if path.direction == IncreasingSafeCoord then c - path.safeStartCoordDeg else path.safeStartCoordDeg - c) / path.spanDeg
  }

  predicate AtEnd(path: Path, azimuth: real) {
    ClampReal(Progress(path, azimuth), 0.0, 1.0) >= 1.0 || AngularDistance(azimuth, path.endAzimuthDeg) <= ANGLE_TOLERANCE
  }

  function UpdateAzimuth(c: Controller, degrees: real, answers: Answers): Controller {
    var az := Normalize(degrees);
    var moved := c.(azimuthDeg := az);
    if c.session.None? then moved
    else
      var session := c.session.value.(lastAzimuthDeg := az);
      var seen := moved.(session := Some(session));
      if c.state == MovingToStart && AngularDistance(az, session.path.startAzimuthDeg) <= ANGLE_TOLERANCE
      then BeginSectorScan(seen, answers)
      else if c.state == Scanning && AtEnd(session.path, az)
      then seen.(state := Completing, pending := c.pending + multiset{session.id})
      else seen
  }

  predicate AcceptsFrames(c: Controller) {
    c.session.Some? && (c.state == Scanning || c.state == Completing) && c.cfg.recorder && c.recorder.active.Some?
  }

  function TakeFrames(c: Controller, frames: seq<Frame>): Controller {
    if !AcceptsFrames(c) then c
    else c.(recorder := c.recorder.AppendAll(frames), session := Some(c.session.value.(frames := c.session.value.frames + frames)))
  }

  /** Closing, counting and reporting the active session. */
  function FinishScan(c: Controller): Controller
    requires c.session.Some?
  {
    var id := c.session.value.id;
    var recorder := if c.cfg.recorder && c.recorder.active.Some? then c.recorder.Close(c.session.value.metadataId) else c.recorder;
    var frameCount := if c.cfg.recorder then |recorder.Observations(id)| else 0;
    EndRecording(c, id).(recorder := recorder, session := None, state := Completed, outcomes := c.outcomes + [CompletedScan(id, frameCount)])
  }

  /** The queued answer to completing a scan; it looks only at the session id. */
  function FinalizeScan(c: Controller, id: nat): Controller {
    var answered := c.(pending := c.pending - multiset{id});
    if c.session.None? || c.session.value.id != id then answered else FinishScan(answered)
  }

  function SelectSector(c: Controller, left: real, right: real): Controller {
    var plan := PlanSectorScan(left, right, OptionsFor(c.antennaSpeed));
    if c.Active() || !plan.Planned? then c
    else c.(sector := Some(plan.path.requestedSector), state := SectorSelected)
  }

  function ClearSector(c: Controller): Controller {
    if c.Active() || c.sector.None? then c else c.(sector := None, state := Idle)
  }

  function SetSpeed(c: Controller, speed: real): Controller {
    if c.Active() || !ValidSpeed(speed) || AbsReal(c.antennaSpeed - speed) <= 0.001 then c else c.(antennaSpeed := speed)
  }

  datatype Event =
    | Select(left: real, right: real) | Clear | Speed(speed: real)
    | Start(left: real, right: real, speed: real, answers: Answers)
    | StartSelected(speed: real, answers: Answers)
    | Stop
    | Azimuth(degrees: real, answers: Answers)
    | Frames(frames: seq<Frame>)
    | Finalize(id: nat)

  /** Only answers that were queued are delivered. */
  predicate Happens(c: Controller, e: Event) { e.Finalize? ==> e.id in c.pending }

  function Step(c: Controller, e: Event): Controller {
    match e
    case Select(left, right) => SelectSector(c, left, right)
    case Clear => ClearSector(c)
    case Speed(speed) => SetSpeed(c, speed)
    case Start(left, right, speed, answers) => StartScan(c, left, right, speed, answers)
    case StartSelected(speed, answers) =>
      if c.sector.None? then c else StartScan(c, c.sector.value.startAzimuthDeg, c.sector.value.endAzimuthDeg, speed, answers)
    case Stop => StopScan(c)
    case Azimuth(degrees, answers) => UpdateAzimuth(c, degrees, answers)
    case Frames(frames) => TakeFrames(c, frames)
    case Finalize(id) => FinalizeScan(c, id)
  }

  // ---- what every state satisfies ----------------------------------------------------------------

  predicate Open(c: Controller) { c.state == Scanning || c.state == Completing }

  /** State, session, recorder and recording adapter tell the same story. */
  predicate StoryOk(c: Controller) {
    && (c.session.Some? <==> c.Active())
    && (c.session.Some? ==> 1 <= c.session.value.id < c.nextId && c.cfg.antenna && c.cfg.recorder)
    && (Open(c) ==> c.recorder.active == Some(Session(c.session.value.id, c.session.value.frames)) && c.session.value.metadataId == c.session.value.id)
    && (!Open(c) ==> c.recorder.active == None)
    && c.adapter == (if Open(c) && c.cfg.recording then Some(c.session.value.id) else None)
    && (c.session.Some? && !Open(c) ==> c.session.value.frames == [])
  }

  ghost predicate IdsOk(c: Controller) {
    && c.nextId >= 1
    && c.recorder.UniqueIds()
    && (forall i :: 0 <= i < |c.recorder.closed| ==> 1 <= c.recorder.closed[i].id < c.nextId && c.recorder.closed[i].id != c.SessionId())
    && (forall i :: 0 <= i < |c.outcomes| ==> c.outcomes[i].id < c.nextId && (c.outcomes[i].id > 0 ==> c.outcomes[i].id != c.SessionId()))
    && (forall i, j :: 0 <= i < j < |c.outcomes| && c.outcomes[i].id > 0 ==> c.outcomes[i].id != c.outcomes[j].id)
    && (forall id: nat :: 1 <= id < c.nextId && id != c.SessionId() ==> Reported(c.outcomes, id))
  }

  predicate Reported(outcomes: seq<Outcome>, id: nat) { exists i :: 0 <= i < |outcomes| && outcomes[i].id == id }

  /** A queued answer that would be acted on belongs to a completing scan. */
  predicate PendingOk(c: Controller) {
    forall id :: id in c.pending ==> 1 <= id < c.nextId && (c.session.Some? && c.session.value.id == id ==> c.state == Completing)
  }

  ghost predicate Inv(c: Controller) { StoryOk(c) && IdsOk(c) && PendingOk(c) }

  lemma InitOk(cfg: Config)
    ensures Inv(Init(cfg))
  {
  }

  lemma EndScanKeeps(c: Controller, state: ScanState, outcome: Outcome)
    requires Inv(c) && outcome.id == c.SessionId() && !(state == MovingToStart || state == Scanning || state == Completing)
    ensures Inv(EndScan(c, state, outcome))
    ensures EndScan(c, state, outcome).outcomes == c.outcomes + [outcome] && EndScan(c, state, outcome).state == state
  {
    ReportedAfter(c.outcomes, outcome);
    hide Reported;
  }

  lemma ReportedAfter(outcomes: seq<Outcome>, outcome: Outcome)
    ensures forall id: nat :: Reported(outcomes + [outcome], id) <==> Reported(outcomes, id) || id == outcome.id
  {
    var after := outcomes + [outcome];
    forall id: nat | Reported(outcomes, id) ensures Reported(after, id) {
      var i :| 0 <= i < |outcomes| && outcomes[i].id == id;
      assert after[i].id == id;
    }
    assert after[|outcomes|].id == outcome.id;
  }

  /** With this recorder and adapter the acquisition always opens. */
  lemma BeginNeverFails(c: Controller)
    requires Inv(c) && c.state == MovingToStart
    ensures c.recorder.CanBegin(c.session.value.id) && c.adapter == None
  {
  }

  lemma BeginKeeps(c: Controller, answers: Answers)
    requires Inv(c)
    ensures Inv(BeginSectorScan(c, answers))
  {
    if c.session.Some? && c.state == MovingToStart && c.cfg.antenna {
      BeginNeverFails(c);
      EndScanKeeps(c, Failed, FailedScan(c.SessionId()));
    }
    hide EndScan, Reported;
  }

  lemma OpenedKeeps(c: Controller, path: Path, speed: real)
    requires Inv(c) && !c.Active() && c.cfg.antenna && c.cfg.recorder
    ensures Inv(OpenScan(c, path, speed))
  {
    hide Reported;
  }

  lemma SpeedKeeps(c: Controller, speed: real)
    requires Inv(c)
    ensures Inv(c.(antennaSpeed := speed))
  {
    hide Reported;
  }

  lemma StartKeeps(c: Controller, left: real, right: real, speed: real, answers: Answers)
    requires Inv(c)
    ensures Inv(StartScan(c, left, right, speed, answers))
  {
    hide Inv, EndScan, BeginSectorScan, PlanFromCurrentAzimuth, AngularDistance, OpenScan;
    SpeedKeeps(c, speed);
    var ready := if AbsReal(c.antennaSpeed - speed) > 0.001 then c.(antennaSpeed := speed) else c;
    var plan := PlanFromCurrentAzimuth(left, right, c.azimuthDeg, OptionsFor(speed));
    if !c.Active() && plan.Planned? {
      EndScanKeeps(ready, Failed, FailedScan(ready.SessionId()));
      PlannedExactlyWhenUsable(left, right, c.azimuthDeg, OptionsFor(speed));
      if c.cfg.antenna && c.cfg.recorder {
        OpenedKeeps(ready, plan.path, speed);
        var moving := OpenScan(ready, plan.path, speed);
        EndScanKeeps(moving, Failed, FailedScan(moving.SessionId()));
        BeginKeeps(moving, answers);
      }
    }
  }

  /** Moving the antenna changes nothing but where it is. */
  lemma SeenKeeps(c: Controller, az: real)
    requires Inv(c)
    ensures Inv(c.(azimuthDeg := az))
    ensures c.session.Some? ==> Inv(c.(azimuthDeg := az, session := Some(c.session.value.(lastAzimuthDeg := az))))
  {
    hide Reported;
    if c.session.Some? {
      var seen := c.(azimuthDeg := az, session := Some(c.session.value.(lastAzimuthDeg := az)));
      hide Reported;
    }
  }

  lemma CompletingKeeps(c: Controller)
    requires Inv(c) && c.state == Scanning
    ensures Inv(c.(state := Completing, pending := c.pending + multiset{c.session.value.id}))
  {
    var after := c.(state := Completing, pending := c.pending + multiset{c.session.value.id});
    hide Reported;
  }

  lemma AzimuthKeeps(c: Controller, degrees: real, answers: Answers)
    requires Inv(c)
    ensures Inv(UpdateAzimuth(c, degrees, answers))
  {
    hide Inv, BeginSectorScan, AtEnd, AngularDistance, Normalize;
    var az := Normalize(degrees);
    SeenKeeps(c, az);
    if c.session.Some? {
      var seen := c.(azimuthDeg := az, session := Some(c.session.value.(lastAzimuthDeg := az)));
      BeginKeeps(seen, answers);
      if c.state == Scanning { CompletingKeeps(seen); }
    }
  }

  lemma FramesKeep(c: Controller, frames: seq<Frame>)
    requires Inv(c)
    ensures Inv(TakeFrames(c, frames))
  {
    if AcceptsFrames(c) {
      AppendAllFrames(c.recorder, frames);
      var after := TakeFrames(c, frames);
      hide Reported;
    }
  }

  /** Finalizing the active scan closes its acquisition and reports the frames accepted for it; any other answer does nothing. */
  lemma FinalizeKeeps(c: Controller, id: nat)
    requires Inv(c) && id in c.pending
    ensures var after := FinalizeScan(c, id);
            && Inv(after)
            && (c.SessionId() != id ==> after == c.(pending := c.pending - multiset{id}))
            && (c.SessionId() == id ==>
                  && after.outcomes == c.outcomes + [CompletedScan(id, |c.session.value.frames|)]
                  && after.recorder.closed == c.recorder.closed + [Session(id, c.session.value.frames)]
                  && after.state == Completed)
  {
    var after := FinalizeScan(c, id);
    if c.SessionId() == id {
      assert c.state == Completing;
      var closed := c.recorder.Close(id).closed;
      assert closed == c.recorder.closed + [Session(id, c.session.value.frames)];
      FirstWithAt(closed, |c.recorder.closed|);
      ReportedAfter(c.outcomes, CompletedScan(id, |c.session.value.frames|));
      hide Reported;
    } else {
      hide Reported;
    }
  }

  lemma SelectionKeeps(c: Controller, sector: Option<ScanSector>, state: ScanState)
    requires Inv(c) && !c.Active() && (state == SectorSelected || state == Idle)
    ensures Inv(c.(sector := sector, state := state))
  {
    var after := c.(sector := sector, state := state);
    hide Reported;
  }

  lemma StepKeepsInv(c: Controller, e: Event)
    requires Inv(c) && Happens(c, e)
    ensures Inv(Step(c, e))
  {
    hide Inv, StartScan, UpdateAzimuth, TakeFrames, FinalizeScan, EndScan, PlanSectorScan;
    match e
    case Select(left, right) =>
      var plan := PlanSectorScan(left, right, OptionsFor(c.antennaSpeed));
      if !c.Active() && plan.Planned? { SelectionKeeps(c, Some(plan.path.requestedSector), SectorSelected); }
    case Clear => if !c.Active() { SelectionKeeps(c, None, Idle); }
    case Speed(speed) => SpeedKeeps(c, speed);
    case Start(left, right, speed, answers) => StartKeeps(c, left, right, speed, answers);
    case StartSelected(speed, answers) =>
      if c.sector.Some? { StartKeeps(c, c.sector.value.startAzimuthDeg, c.sector.value.endAzimuthDeg, speed, answers); }
    case Stop => if c.Active() { EndScanKeeps(c, Cancelled, CancelledScan(c.SessionId())); }
    case Azimuth(degrees, answers) => AzimuthKeeps(c, degrees, answers);
    case Frames(frames) => FramesKeep(c, frames);
    case Finalize(id) => FinalizeKeeps(c, id);
  }

  // ---- every run ---------------------------------------------------------------------------------

  ghost function RunTo(c: Controller, events: seq<Event>): Option<Controller> {
    if events == [] then Some(c)
    else
      var before := RunTo(c, events[..|events| - 1]);
      var e := events[|events| - 1];
      if before.Some? && Happens(before.value, e) then Some(Step(before.value, e)) else None
  }

  /** Some events, in this order, lead from a new controller to c. */
  ghost predicate Run(cfg: Config, events: seq<Event>, c: Controller) { RunTo(Init(cfg), events) == Some(c) }

  lemma {:induction false} RunsKeepInv(cfg: Config, events: seq<Event>, c: Controller)
    requires Run(cfg, events, c)
    ensures Inv(c) && c.cfg == cfg
  {
    hide Inv, Step;
    if events == [] {
      InitOk(cfg);
    } else {
      var e := events[|events| - 1];
      var before := RunTo(Init(cfg), events[..|events| - 1]);
      RunsKeepInv(cfg, events[..|events| - 1], before.value);
      StepKeepsInv(before.value, e);
      ReportsStay(before.value, e);
    }
  }

  /** What no handler changes: the configuration, and the reports made so far. */
  ghost predicate Goes(c: Controller, after: Controller) { after.cfg == c.cfg && c.outcomes <= after.outcomes }

  lemma EndScanGoes(c: Controller, state: ScanState, outcome: Outcome)
    ensures Goes(c, EndScan(c, state, outcome))
  {
  }

  lemma BeginGoes(c: Controller, answers: Answers)
    ensures Goes(c, BeginSectorScan(c, answers))
  {
    hide EndScan;
    EndScanGoes(c, Failed, FailedScan(c.SessionId()));
    if c.session.Some? {
      var recording := c.(adapter := AfterBegin(c.adapter, c.session.value.id, answers.recordingStarts));
      EndScanGoes(recording, Failed, FailedScan(recording.SessionId()));
    }
  }

  lemma StartGoes(c: Controller, left: real, right: real, speed: real, answers: Answers)
    ensures Goes(c, StartScan(c, left, right, speed, answers))
  {
    hide EndScan, BeginSectorScan, PlanFromCurrentAzimuth, AngularDistance, ValidSpeed;
    var ready := if AbsReal(c.antennaSpeed - speed) > 0.001 then c.(antennaSpeed := speed) else c;
    EndScanGoes(ready, Failed, FailedScan(ready.SessionId()));
    var plan := PlanFromCurrentAzimuth(left, right, c.azimuthDeg, OptionsFor(speed));
    if plan.Planned? && plan.path.spanDeg > 0.0 {
      var moving := OpenScan(ready, plan.path, speed);
      EndScanGoes(moving, Failed, FailedScan(moving.SessionId()));
      BeginGoes(moving, answers);
    }
    PlannedExactlyWhenUsable(left, right, c.azimuthDeg, OptionsFor(speed));
  }

  lemma AzimuthGoes(c: Controller, degrees: real, answers: Answers)
    ensures Goes(c, UpdateAzimuth(c, degrees, answers))
  {
    hide BeginSectorScan, AtEnd, AngularDistance, Normalize;
    var az := Normalize(degrees);
    if c.session.Some? { BeginGoes(c.(azimuthDeg := az, session := Some(c.session.value.(lastAzimuthDeg := az))), answers); }
  }

  /** Reports are only ever added, so an answer that became stale stays so; and the configuration stays. */
  lemma ReportsStay(c: Controller, e: Event)
    ensures c.outcomes <= Step(c, e).outcomes && Step(c, e).cfg == c.cfg
  {
    hide StartScan, UpdateAzimuth, EndScan, PlanSectorScan;
    match e
    case Start(left, right, speed, answers) => StartGoes(c, left, right, speed, answers);
    case StartSelected(speed, answers) =>
      if c.sector.Some? { StartGoes(c, c.sector.value.startAzimuthDeg, c.sector.value.endAzimuthDeg, speed, answers); }
    case Stop => EndScanGoes(c, Cancelled, CancelledScan(c.SessionId()));
    case Azimuth(degrees, answers) => AzimuthGoes(c, degrees, answers);
    case _ =>
  }

  /** Over all event orders: there is a session exactly while a scan is active; the recorder holds that session's frames
      and the adapter its id exactly while it is scanning or completing; and opening and closing cannot fail. */
  lemma StateSessionRecorderAgree(cfg: Config, events: seq<Event>, c: Controller)
    requires Run(cfg, events, c)
    ensures c.session.Some? <==> c.state in {MovingToStart, Scanning, Completing}
    ensures if c.state in {Scanning, Completing}
            then c.recorder.active == Some(Session(c.session.value.id, c.session.value.frames)) && c.recorder.CanClose(c.session.value.metadataId)
            else c.recorder.active == None
    ensures cfg.recording ==> c.adapter == if c.state in {Scanning, Completing} then Some(c.session.value.id) else None
    ensures c.state == MovingToStart ==> c.recorder.CanBegin(c.session.value.id)
  {
    RunsKeepInv(cfg, events, c);
    if c.state == MovingToStart { BeginNeverFails(c); }
  }

  /** Every session id is active or was reported, once: completed, cancelled or failed. */
  lemma OneOutcomePerSession(cfg: Config, events: seq<Event>, c: Controller, id: nat)
    requires Run(cfg, events, c) && 1 <= id < c.nextId
    ensures id == c.SessionId() <==> !Reported(c.outcomes, id)
    ensures forall i, j :: 0 <= i < j < |c.outcomes| ==> !(c.outcomes[i].id == id && c.outcomes[j].id == id)
  {
    RunsKeepInv(cfg, events, c);
  }

  /** A queued answer is without effect exactly when its scan was reported already: cancelled, failed or completed, and
      perhaps replaced since. */
  lemma StaleAnswerIgnored(cfg: Config, events: seq<Event>, c: Controller, id: nat)
    requires Run(cfg, events, c) && id in c.pending
    ensures FinalizeScan(c, id) == c.(pending := c.pending - multiset{id}) <==> Reported(c.outcomes, id)
  {
    RunsKeepInv(cfg, events, c);
    FinalizeKeeps(c, id);
    OneOutcomePerSession(cfg, events, c, id);
    hide FinalizeScan, Reported, StoryOk, IdsOk;
    assert 1 <= id < c.nextId;
  }

  /** A completed scan reports exactly the frames accepted while it was scanning or completing. */
  lemma CompletionReportsItsFrames(cfg: Config, events: seq<Event>, c: Controller)
    requires Run(cfg, events, c) && c.session.Some? && c.SessionId() in c.pending
    ensures var id := c.SessionId();
            && FinalizeScan(c, id).outcomes == c.outcomes + [CompletedScan(id, |c.session.value.frames|)]
            && FinalizeScan(c, id).recorder.Observations(id) == c.session.value.frames
  {
    RunsKeepInv(cfg, events, c);
    var id := c.SessionId();
    FinalizeKeeps(c, id);
    var after := FinalizeScan(c, id);
    assert after.recorder.closed[|c.recorder.closed|].id == id;
    FirstWithAt(after.recorder.closed, |c.recorder.closed|);
    assert after.recorder.active == None;
  }

  /** A sweep completes exactly when the antenna has passed the end of its path on the line, or is within tolerance of it. */
  lemma CompletesAtTheEnd(path: Path, azimuth: real)
    ensures AtEnd(path, azimuth) <==>
              || (path.direction == IncreasingSafeCoord && ToSafeCoord(azimuth) >= path.safeStartCoordDeg + path.spanDeg)
              || (path.direction == DecreasingSafeCoord && ToSafeCoord(azimuth) <= path.safeStartCoordDeg - path.spanDeg)
              || AngularDistance(azimuth, path.endAzimuthDeg) <= ANGLE_TOLERANCE
  {
    var travelled := if path.direction == IncreasingSafeCoord then ToSafeCoord(azimuth) - path.safeStartCoordDeg
                     else path.safeStartCoordDeg - ToSafeCoord(azimuth);
    RatioAtLeastOne(travelled, path.spanDeg);
    hide ToSafeCoord, AngularDistance;
  }

  lemma RatioAtLeastOne(a: real, b: real)
    requires b > 0.0
    ensures a / b >= 1.0 <==> a >= b
  {
    assert a == (a / b) * b;
    if a / b >= 1.0 { assert (a / b - 1.0) * b >= 0.0; }
    if a / b < 1.0 { assert (1.0 - a / b) * b > 0.0; }
  }
}
