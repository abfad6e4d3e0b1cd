/** The scan controller's event handlers, updating their own fields, the recorder and the recording adapter in place. */
module ScanControllers {
  import opened Common
  import opened AntennaGeometry
  import opened ScanRecording
  import opened ScanLifecycle

  class ScanController {
    const cfg: Config
    const acquisitionRecorder: InMemoryScanAcquisitionRecorder
    const recordingControl: WaterfallScanRecordingAdapter
    var state: ScanState
    var activeSession: Option<ScanSession>
    var nextSessionId: nat
    var selectedSector: Option<ScanSector>
    var currentAzimuthDeg: real
    var antennaSpeedDegPerSec: real
    /** Signals emitted so far. */
    var outcomes: seq<Outcome>
    /** Finalize callbacks posted to the event queue. */
    ghost var pending: multiset<nat>

    /** Holds also in the middle of a handler. */
    ghost predicate Wired()
      reads this, recordingControl
    {
      recordingControl.Valid()
    }

    /** Between events state, session, recorder and recording adapter tell the same story. */
    ghost predicate Valid()
      reads this, acquisitionRecorder, recordingControl
    {
      Wired() && Inv(View())
    }

    ghost function View(): Controller
      reads this, acquisitionRecorder, recordingControl
    {
      Controller(cfg, state, activeSession, nextSessionId, selectedSector, currentAzimuthDeg, antennaSpeedDegPerSec,
                 acquisitionRecorder.View(), recordingControl.activeScanSessionId, pending, outcomes)
    }

    constructor (config: Config, recorder: InMemoryScanAcquisitionRecorder, recording: WaterfallScanRecordingAdapter)
      requires recording.Valid() && recorder.View() == Recorder(None, []) && recording.activeScanSessionId == None
      ensures Valid() && View() == Init(config) && acquisitionRecorder == recorder && recordingControl == recording
    {
      cfg, acquisitionRecorder, recordingControl := config, recorder, recording;
      state, activeSession, nextSessionId, selectedSector := Idle, None, 1, None;
      currentAzimuthDeg, antennaSpeedDegPerSec, outcomes, pending := 0.0, 10.0, [], multiset{};
      new;
      InitOk(config);
    }

    method EndScanRecording(id: nat)
      requires Wired()
      modifies recordingControl
      ensures Wired() && View() == EndRecording(old(View()), id)
    {
      if cfg.recording {
        recordingControl.EndScanRecording(id);
      }
    }

    method CloseActiveAcquisitionWithoutCalculation()
      requires Wired()
      modifies acquisitionRecorder
      ensures Wired() && View() == CloseAcquisition(old(View()))
    {
      if activeSession.None? || !cfg.recorder || acquisitionRecorder.activeSession.None? {
        return;
      }
      var closed := acquisitionRecorder.Close(activeSession.value.metadataId);
    }

    method Fail()
      requires Wired()
      modifies this, acquisitionRecorder, recordingControl
      ensures Wired() && View() == FailScan(old(View()))
    {
      var sessionId := if activeSession.Some? then activeSession.value.id else 0;
      CloseActiveAcquisitionWithoutCalculation();
      EndScanRecording(sessionId);
      activeSession := None;
      state := Failed;
      outcomes := outcomes + [FailedScan(sessionId)];
    }

    method StopScan()
      requires Valid()
      modifies this, acquisitionRecorder, recordingControl
      ensures Valid() && View() == ScanLifecycle.StopScan(old(View()))
    {
      StepKeepsInv(View(), Event.Stop);
      hide Inv;
      if !(state == MovingToStart || state == Scanning || state == Completing) {
        return;
      }
      var sessionId := if activeSession.Some? then activeSession.value.id else 0;
      CloseActiveAcquisitionWithoutCalculation();
      EndScanRecording(sessionId);
      activeSession := None;
      state := Cancelled;
      outcomes := outcomes + [CancelledScan(sessionId)];
    }

    method BeginSectorScan(answers: Answers)
      requires Wired()
      modifies this, acquisitionRecorder, recordingControl
      ensures Wired() && View() == ScanLifecycle.BeginSectorScan(old(View()), answers)
    {
      hide CloseAcquisition, EndRecording;
      if activeSession.None? || state != MovingToStart || !cfg.antenna {
        return;
      }
      if !answers.sectorScanOk {
        Fail();
        return;
      }
      var sessionId := activeSession.value.id;
      if cfg.recording {
        var recording := recordingControl.BeginScanRecording(sessionId, answers.recordingStarts);
        if !recording {
          Fail();
          return;
        }
      }
      var begun := acquisitionRecorder.Begin(sessionId);
      if !begun {
        Fail();
        return;
      }
      activeSession := Some(activeSession.value.(metadataId := sessionId));
      state := Scanning;
    }

    method StartScan(left: real, right: real, speed: real, answers: Answers)
      requires Valid()
      modifies this, acquisitionRecorder, recordingControl
      ensures Valid() && View() == ScanLifecycle.StartScan(old(View()), left, right, speed, answers)
    {
      StartKeeps(View(), left, right, speed, answers);
      hide Inv;
      hide FailScan, ScanLifecycle.BeginSectorScan, AngularDistance, PlanFromCurrentAzimuth;
      if state == MovingToStart || state == Scanning || state == Completing {
        return;
      }
      if cfg.recording && !answers.recordingAvailable {
        return;
      }
      if !ValidSpeed(speed) {
        return;
      }
      if AbsReal(antennaSpeedDegPerSec - speed) > 0.001 {
        antennaSpeedDegPerSec := speed;
      }
      var planned := PlanFromCurrentAzimuth(left, right, currentAzimuthDeg, OptionsFor(speed));
      if !planned.Planned? {
        return;
      }
      if !cfg.antenna {
        Fail();
        return;
      }
      if !cfg.recorder {
        Fail();
        return;
      }
      PlannedExactlyWhenUsable(left, right, currentAzimuthDeg, OptionsFor(speed));
      OpenSession(planned.path, speed);
      MoveToStart(answers);
    }

    method OpenSession(path: Path, speed: real)
      requires Wired()
      modifies this
      ensures Wired() && View() == OpenScan(old(View()), path, speed)
    {
      selectedSector := Some(path.requestedSector);
      activeSession := Some(ScanSession(nextSessionId, path, speed, currentAzimuthDeg, 0, []));
      nextSessionId := nextSessionId + 1;
      state := MovingToStart;
    }

    /** Commands the move; an antenna already at the start begins at once. */
    method MoveToStart(answers: Answers)
      requires Wired() && activeSession.Some?
      modifies this, acquisitionRecorder, recordingControl
      ensures Wired()
      ensures View() == (if !answers.moveOk then FailScan(old(View()))
                         else if AngularDistance(old(currentAzimuthDeg), old(activeSession).value.path.startAzimuthDeg) <= ANGLE_TOLERANCE
                         then ScanLifecycle.BeginSectorScan(old(View()), answers)
                         else old(View()))
    {
      hide FailScan, ScanLifecycle.BeginSectorScan, AngularDistance;
      if !answers.moveOk {
        Fail();
        return;
      }
      if AngularDistance(currentAzimuthDeg, activeSession.value.path.startAzimuthDeg) <= ANGLE_TOLERANCE {
        BeginSectorScan(answers);
      }
    }

    method CompleteScan()
      requires activeSession.Some?
      modifies this`state, this`pending
      ensures state == Completing && pending == old(pending) + multiset{activeSession.value.id}
    {
      state := Completing;
      pending := pending + multiset{activeSession.value.id};
    }

    method UpdateAzimuth(degrees: real, answers: Answers)
      requires Valid()
      modifies this, acquisitionRecorder, recordingControl
      ensures Valid() && View() == ScanLifecycle.UpdateAzimuth(old(View()), degrees, answers)
    {
      AzimuthKeeps(View(), degrees, answers);
      hide Inv;
      hide ScanLifecycle.BeginSectorScan, AngularDistance, Normalize, ToSafeCoord, ClampReal, Progress;
      var normalized := Normalize(degrees);
      currentAzimuthDeg := normalized;
      if activeSession.None? {
        return;
      }
      activeSession := Some(activeSession.value.(lastAzimuthDeg := normalized));
      var path := activeSession.value.path;
      if state == MovingToStart && AngularDistance(normalized, path.startAzimuthDeg) <= ANGLE_TOLERANCE {
        BeginSectorScan(answers);
        return;
      }
      if state != Scanning {
        return;
      }
      var progress := ClampReal(Progress(path, normalized), 0.0, 1.0);
      if progress >= 1.0 || AngularDistance(normalized, path.endAzimuthDeg) <= ANGLE_TOLERANCE {
        CompleteScan();
      }
    }

    /** Closes an open acquisition and counts what the session recorded. */
    method CloseAndCount(id: nat) returns (frameCount: nat)
      requires activeSession.Some?
      modifies acquisitionRecorder
      ensures var r := old(acquisitionRecorder.View());
              var closed := if cfg.recorder && r.active.Some? then r.Close(activeSession.value.metadataId) else r;
              && acquisitionRecorder.View() == closed
              && frameCount == if cfg.recorder then |closed.Observations(id)| else 0
    {
      hide Recorder.Close, Recorder.Observations;
      if cfg.recorder && acquisitionRecorder.activeSession.Some? {
        var closed := acquisitionRecorder.Close(activeSession.value.metadataId);
      }
      if !cfg.recorder {
        return 0;
      }
      var observations := acquisitionRecorder.Observations(id);
      return |observations|;
    }

    method Finish()
      requires Wired() && activeSession.Some?
      modifies this, acquisitionRecorder, recordingControl
      ensures Wired() && View() == FinishScan(old(View()))
    {
      hide AfterEnd, Recorder.Close, Recorder.Observations;
      var id := activeSession.value.id;
      EndScanRecording(id);
      var frameCount := CloseAndCount(id);
      activeSession := None;
      state := Completed;
      outcomes := outcomes + [CompletedScan(id, frameCount)];
    }

    method FinalizeCompletedScan(id: nat)
      requires Valid() && id in pending
      modifies this, acquisitionRecorder, recordingControl
      ensures Valid() && View() == FinalizeScan(old(View()), id)
    {
      FinalizeKeeps(View(), id);
      hide Inv;
      hide FinishScan;
      pending := pending - multiset{id};
      if activeSession.None? || activeSession.value.id != id {
        return;
      }
      Finish();
    }

    method OnBearingFrames(frames: seq<Frame>)
      requires Valid()
      modifies this, acquisitionRecorder
      ensures Valid() && View() == TakeFrames(old(View()), frames)
    {
      FramesKeep(View(), frames);
      hide Inv;
      var acceptsFrames := state == Scanning || (state == Completing && cfg.recorder && acquisitionRecorder.activeSession.Some?);
      if activeSession.None? || !acceptsFrames || |frames| == 0 {
        assert frames == [] ==> View() == TakeFrames(View(), frames) by {
          if activeSession.Some? { assert activeSession.value.frames + [] == activeSession.value.frames; }
        }
        return;
      }
      if !cfg.recorder || acquisitionRecorder.activeSession.None? {
        return;
      }
      for i := 0 to |frames|
        invariant acquisitionRecorder.View() == old(acquisitionRecorder.View()).AppendAll(frames[..i])
        invariant unchanged(this) && unchanged(recordingControl)
      {
        assert frames[..i + 1][..i] == frames[..i];
        var appended := acquisitionRecorder.Append(frames[i]);
      }
      assert frames[..|frames|] == frames;
      activeSession := Some(activeSession.value.(frames := activeSession.value.frames + frames));
    }
  }
}
