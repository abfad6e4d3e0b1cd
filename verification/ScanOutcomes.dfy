/** What every event of a scan's life does and reports, and when. */
module ScanOutcomes {
  import opened Common
  import opened AntennaGeometry
  import opened ScanRecording
  import opened ScanLifecycle

  /** Nothing is open any more, and the scan's end is the last report. */
  ghost predicate Ended(c: Controller, after: Controller, state: ScanState, outcome: Outcome) {
    && after.state == state && after.session == None && after.recorder.active == None
    && (c.cfg.recording ==> after.adapter == None)
    && after.outcomes == c.outcomes + [outcome]
  }

  lemma EndScanEnds(c: Controller, state: ScanState, outcome: Outcome)
    requires Inv(c) && outcome.id == c.SessionId()
    ensures Ended(c, EndScan(c, state, outcome), state, outcome)
    ensures Open(c) ==> EndScan(c, state, outcome).recorder.closed == c.recorder.closed + [c.recorder.active.value]
  {
    hide Reported;
  }

  /** Stopping an active scan reports its cancellation and closes what it wrote to; its frames stay readable. */
  lemma StoppingCancels(c: Controller)
    requires Inv(c)
    ensures c.Active() ==> Ended(c, Step(c, Stop), Cancelled, CancelledScan(c.session.value.id))
    ensures Open(c) ==> Step(c, Stop).recorder.Observations(c.session.value.id) == c.session.value.frames
    ensures !c.Active() ==> Step(c, Stop) == c
  {
    if c.Active() {
      var id := c.SessionId();
      EndScanEnds(c, Cancelled, CancelledScan(id));
      if Open(c) { FirstWithAt(c.recorder.closed + [c.recorder.active.value], |c.recorder.closed|); }
      hide EndScan, Reported;
    }
  }

  // ---- starting ------------------------------------------------------------------------------------

  /** Whether a scan at its start position fails to begin. */
  predicate CannotBegin(c: Controller, answers: Answers) { !answers.sectorScanOk || (c.cfg.recording && !answers.recordingStarts) }

  /** A scan begins when the antenna sweeps and the recording starts, and fails and says so when not. */
  lemma BeginOutcome(c: Controller, answers: Answers)
    requires Inv(c) && c.state == MovingToStart
    ensures var id := c.session.value.id;
            var after := BeginSectorScan(c, answers);
            if CannotBegin(c, answers) then Ended(c, after, Failed, FailedScan(id))
            else && after.state == Scanning && after.session == Some(c.session.value.(metadataId := id))
                 && after.recorder == c.recorder.(active := Some(Session(id, [])))
                 && (c.cfg.recording ==> after.adapter == Some(id)) && after.outcomes == c.outcomes
  {
    BeginNeverFails(c);
    EndScanEnds(c, Failed, FailedScan(c.SessionId()));
    hide EndScan, Reported;
  }

  /** A start that its guards refuse changes at most the antenna's speed; a planned one fails when a collaborator is
      missing or refuses, else the scan is under the next id on its way to the start of the path, or sweeping when it is
      there already. */
  lemma StartOutcome(c: Controller, left: real, right: real, speed: real, answers: Answers)
    requires Inv(c)
    ensures var plan := PlanFromCurrentAzimuth(left, right, c.azimuthDeg, OptionsFor(speed));
            var after := Step(c, Start(left, right, speed, answers));
            if c.Active() || (c.cfg.recording && !answers.recordingAvailable) || speed < 1.0 || speed > 60.0 then after == c
            else if !plan.Planned? then after == c.(antennaSpeed := after.antennaSpeed)
            else if !c.cfg.antenna || !c.cfg.recorder then Ended(c, after, Failed, FailedScan(0)) && after.nextId == c.nextId
            else
              var near := AngularDistance(c.azimuthDeg, plan.path.startAzimuthDeg) <= ANGLE_TOLERANCE;
              && after.nextId == c.nextId + 1
              && if !answers.moveOk || (near && CannotBegin(c, answers)) then Ended(c, after, Failed, FailedScan(c.nextId))
                 else && after.state == (if near then Scanning else MovingToStart) && after.outcomes == c.outcomes
                      && after.session.Some? && after.session.value.id == c.nextId
                      && after.session.value.path == plan.path && after.session.value.speedDegPerSec == speed
                      && after.session.value.frames == []
  {
    hide Inv, EndScan, BeginSectorScan, PlanFromCurrentAzimuth, AngularDistance, OpenScan, Ended, CannotBegin;
    SpeedKeeps(c, speed);
    var ready := if AbsReal(c.antennaSpeed - speed) > 0.001 then c.(antennaSpeed := speed) else c;
    var plan := PlanFromCurrentAzimuth(left, right, c.azimuthDeg, OptionsFor(speed));
    if !c.Active() && plan.Planned? {
      PlannedExactlyWhenUsable(left, right, c.azimuthDeg, OptionsFor(speed));
      if c.cfg.antenna && c.cfg.recorder {
        OpenedKeeps(ready, plan.path, speed);
        OpenedScan(c, ready, plan.path, speed, answers);
      } else {
        NoSessionYet(c);
        EndScanEnds(ready, Failed, FailedScan(0));
        EndScanKeepsRest(ready, Failed, FailedScan(0));
        SameEnd(c, ready, Failed, FailedScan(0), EndScan(ready, Failed, FailedScan(0)));
      }
    }
  }

  lemma NoSessionYet(c: Controller)
    requires Inv(c) && !c.Active()
    ensures c.session == None
  {
  }

  lemma EndScanKeepsRest(c: Controller, state: ScanState, outcome: Outcome)
    ensures EndScan(c, state, outcome).nextId == c.nextId
  {
  }

  /** Two controllers with the same configuration and reports end alike. */
  lemma SameEnd(c: Controller, d: Controller, state: ScanState, outcome: Outcome, after: Controller)
    requires c.cfg == d.cfg && c.outcomes == d.outcomes && Ended(d, after, state, outcome)
    ensures Ended(c, after, state, outcome)
  {
  }

  /** What becomes of a newly opened scan. */
  lemma OpenedScan(c: Controller, ready: Controller, path: Path, speed: real, answers: Answers)
    requires Inv(ready) && ready.cfg == c.cfg && ready.outcomes == c.outcomes && ready.nextId == c.nextId
    requires Inv(OpenScan(ready, path, speed))
    ensures var moving := OpenScan(ready, path, speed);
            && moving.cfg == c.cfg && moving.nextId == c.nextId + 1 && moving.state == MovingToStart && moving.outcomes == c.outcomes
            && moving.session == Some(ScanSession(c.nextId, path, speed, ready.azimuthDeg, 0, []))
            && Ended(c, FailScan(moving), Failed, FailedScan(c.nextId)) && FailScan(moving).nextId == c.nextId + 1
            && var begun := BeginSectorScan(moving, answers);
            && begun.nextId == c.nextId + 1
            && if CannotBegin(c, answers) then Ended(c, begun, Failed, FailedScan(c.nextId))
               else begun.state == Scanning && begun.session == Some(moving.session.value.(metadataId := c.nextId))
                    && begun.outcomes == c.outcomes
  {
    var moving := OpenScan(ready, path, speed);
    assert moving.session == Some(ScanSession(c.nextId, path, speed, ready.azimuthDeg, 0, []));
    hide Inv, EndScan, BeginSectorScan, Ended, OpenScan;
    EndScanEnds(moving, Failed, FailedScan(c.nextId));
    EndScanKeepsRest(moving, Failed, FailedScan(c.nextId));
    SameEnd(c, moving, Failed, FailedScan(c.nextId), FailScan(moving));
    BeginOutcome(moving, answers);
    BeginKeepsIds(moving, answers);
    if CannotBegin(c, answers) { SameEnd(c, moving, Failed, FailedScan(c.nextId), BeginSectorScan(moving, answers)); }
  }

  lemma BeginKeepsIds(c: Controller, answers: Answers)
    ensures BeginSectorScan(c, answers).nextId == c.nextId
  {
  }

  // ---- on the way ------------------------------------------------------------------------------------

  /** An azimuth begins the sweep within tolerance of the path's start, and completes it at the end of the path, queueing
      one answer; otherwise only the antenna's position is noted. */
  lemma AzimuthOutcome(c: Controller, degrees: real, answers: Answers)
    requires Inv(c)
    ensures var az := Normalize(degrees);
            var after := Step(c, Azimuth(degrees, answers));
            var begins := c.state == MovingToStart && AngularDistance(az, c.session.value.path.startAzimuthDeg) <= ANGLE_TOLERANCE;
            var completes := c.state == Scanning && AtEnd(c.session.value.path, az);
            && after.azimuthDeg == az
            && (begins ==> if CannotBegin(c, answers) then Ended(c, after, Failed, FailedScan(c.session.value.id))
                           else after.state == Scanning && after.SessionId() == c.SessionId() && after.outcomes == c.outcomes)
            && (completes ==> after.state == Completing && after.pending == c.pending + multiset{c.SessionId()})
            && (!begins && !completes ==> after.state == c.state && after.pending == c.pending)
            && (!begins ==> after.SessionId() == c.SessionId() && after.outcomes == c.outcomes
                            && after.recorder == c.recorder && after.adapter == c.adapter)
  {
    hide EndScan, BeginSectorScan, AtEnd, AngularDistance, Normalize, Reported;
    var az := Normalize(degrees);
    SeenKeeps(c, az);
    if c.session.Some? {
      var seen := c.(azimuthDeg := az, session := Some(c.session.value.(lastAzimuthDeg := az)));
      if c.state == MovingToStart {
        BeginOutcome(seen, answers);
        BeginKeepsAzimuth(seen, answers);
      }
    }
  }

  lemma BeginKeepsAzimuth(c: Controller, answers: Answers)
    ensures BeginSectorScan(c, answers).azimuthDeg == c.azimuthDeg
  {
  }

  /** Frames count for the scan exactly while it is scanning or completing. */
  lemma FramesOutcome(c: Controller, frames: seq<Frame>)
    requires Inv(c)
    ensures var after := Step(c, Frames(frames));
            if Open(c) then
              && after.session == Some(c.session.value.(frames := c.session.value.frames + frames))
              && after.recorder.active == Some(Session(c.SessionId(), c.session.value.frames + frames))
              && after.state == c.state && after.outcomes == c.outcomes
            else after == c
  {
    if AcceptsFrames(c) { AppendAllFrames(c.recorder, frames); }
    hide Reported;
  }

  /** While a scan is active the selection, the speed and another start are refused; otherwise they take effect when valid. */
  lemma SelectionOutcome(c: Controller, left: real, right: real, speed: real)
    ensures var selected := Step(c, Select(left, right));
            var plan := PlanSectorScan(left, right, Options(c.antennaSpeed, 5.0, 0.2));
            if c.Active() || !plan.Planned? then selected == c
            else selected == c.(state := SectorSelected, sector := Some(plan.path.requestedSector))
    ensures Step(c, Clear) == if c.Active() || c.sector.None? then c else c.(state := Idle, sector := None)
    ensures var paced := Step(c, Speed(speed));
            && paced == c.(antennaSpeed := paced.antennaSpeed)
            && (c.Active() || speed < 1.0 || speed > 60.0 ==> paced == c)
            && (!c.Active() && 1.0 <= speed <= 60.0 ==>
                  paced.antennaSpeed == if -0.001 <= c.antennaSpeed - speed <= 0.001 then c.antennaSpeed else speed)
  {
    hide PlanSectorScan;
  }

  // ---- all events --------------------------------------------------------------------------------------

  /** A scan ends with one report, whose kind is that of the event and the new state, under its own id. */
  ghost predicate TellsTheEnd(c: Controller, e: Event, after: Controller) {
    && after.state in {Cancelled, Failed, Completed} && after.session == None
    && |after.outcomes| == |c.outcomes| + 1
    && var o := after.outcomes[|c.outcomes|];
    && (e.Stop? <==> o.CancelledScan? && after.state == Cancelled)
    && (e.Finalize? <==> o.CompletedScan? && after.state == Completed)
    && (e.Start? || e.StartSelected? || e.Azimuth? <==> o.FailedScan? && after.state == Failed)
    && (c.session.Some? ==> o.id == c.SessionId())
    && (c.session.None? ==> o.id == 0 || o.id == c.nextId)
  }

  /** Every event reports the end of one scan, truthfully, or nothing; a scan that was active stays so until its report. */
  lemma OutcomesTellTheEnd(c: Controller, e: Event)
    requires Inv(c) && Happens(c, e)
    ensures Step(c, e).outcomes == c.outcomes || TellsTheEnd(c, e, Step(c, e))
    ensures c.session.Some? && Step(c, e).SessionId() != c.SessionId() ==> TellsTheEnd(c, e, Step(c, e))
  {
    hide PlanFromCurrentAzimuth, PlanSectorScan, EndScan, BeginSectorScan, AtEnd, AngularDistance, Normalize, Reported, OptionsFor;
    match e
    case Select(left, right) => SelectionOutcome(c, left, right, 1.0);
    case Clear => SelectionOutcome(c, 0.0, 0.0, 1.0);
    case Speed(speed) => SelectionOutcome(c, 0.0, 0.0, speed);
    case Start(left, right, speed, answers) => StartOutcome(c, left, right, speed, answers);
    case StartSelected(speed, answers) =>
      if c.sector.Some? { StartOutcome(c, c.sector.value.startAzimuthDeg, c.sector.value.endAzimuthDeg, speed, answers); }
    case Stop => StoppingCancels(c);
    case Azimuth(degrees, answers) => AzimuthOutcome(c, degrees, answers);
    case Frames(frames) => FramesOutcome(c, frames);
    case Finalize(id) => FinalizeKeeps(c, id);
  }

  // ---- how far apart two azimuths are --------------------------------------------------------------------

  /** The tolerance is measured the short way round: no number of turns brings the two azimuths closer. */
  lemma DistanceIsShortestWay(a: real, b: real, turns: int)
    requires ValidAzimuth(a) && ValidAzimuth(b)
    ensures 0.0 <= AngularDistance(a, b) == AngularDistance(b, a) <= 180.0
    ensures AngularDistance(a, b) <= AbsReal(b - a + MAX_AZIMUTH * turns as real)
    ensures AngularDistance(a, b) == AbsReal(b - a) || AngularDistance(a, b) == AbsReal(b - a - MAX_AZIMUTH)
            || AngularDistance(a, b) == AbsReal(b - a + MAX_AZIMUTH)
  {
    NormalizeRange(a);
    NormalizeRange(b);
    hide Normalize;
    if turns >= 1 { assert MAX_AZIMUTH * turns as real >= MAX_AZIMUTH; }
    if turns <= -1 { assert MAX_AZIMUTH * turns as real <= -MAX_AZIMUTH; }
  }
}
