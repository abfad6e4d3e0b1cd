/** The antenna controller stub: drives and sector scans advanced tick by tick in raw azimuths, against clamped motion
    on the line of safe coordinates. */
module AntennaMotion {
  import opened AntennaGeometry

  const ANGLE_TOLERANCE: real := 0.2

  /** How far the two fuzzy comparisons can move an azimuth. */
  const EPSILON: real := 0.000000001

  datatype Mode = Idle | DrivingLeft | DrivingRight | MovingToScanStart | ScanningSector

  datatype Motion = Motion(azimuthDeg: real, mode: Mode, speedDegPerSec: real, scanStart: real, scanTarget: real)

  /** qFuzzyCompare for doubles. */
  predicate FuzzyEqual(a: real, b: real) { AbsReal(a - b) * 1000000000000.0 <= MinReal(AbsReal(a), AbsReal(b)) }

  /** Fuzzy equality is reflexive and symmetric, and allows exactly one part in 10^12 of the smaller number. */
  lemma FuzzyEdge(a: real, b: real)
    ensures FuzzyEqual(a, a) && (FuzzyEqual(a, b) <==> FuzzyEqual(b, a))
    ensures b >= 0.0 ==> FuzzyEqual(1000000000000.0 * b, 1000000000001.0 * b)
    ensures 1.0 <= b ==> !FuzzyEqual(999999999999.0 * b, 1000000000000.0 * b)
  {
  }

  function StubNormalize(a: real): real {
    var r := Fmod(a);
    var n := if r < 0.0 then r + MAX_AZIMUTH else r;
    if FuzzyEqual(n, MAX_AZIMUTH) then 0.0 else n
  }

  predicate Blind(a: real) { BLIND_START < StubNormalize(a) < BLIND_END }

  function StubCoord(a: real): real {
    var n := StubNormalize(a);
    if n >= BLIND_END then n - BLIND_END else n + BLIND_START
  }

  function StubFromCoord(c: real): real {
    var clamped := ClampReal(c, 0.0, MAX_SAFE_COORD);
    if clamped <= BLIND_START then StubNormalize(BLIND_END + clamped) else clamped - BLIND_START
  }

  function SetAzimuth(m: Motion, a: real): Motion {
    if !ValidAzimuth(a) then m
    else
      var n := StubNormalize(a);
      if FuzzyEqual(m.azimuthDeg, n) then m else m.(azimuthDeg := n)
  }

  function Stopped(m: Motion): Motion { m.(mode := Idle, speedDegPerSec := 0.0) }

  // ---- ticks -------------------------------------------------------------------------------------

  function DriveLeftBy(m: Motion, delta: real): Motion {
    var current := StubNormalize(m.azimuthDeg);
    if Blind(current) then Stopped(m)
    else if current >= BLIND_END then
      if current - delta <= BLIND_END then Stopped(SetAzimuth(m, BLIND_END)) else SetAzimuth(m, current - delta)
    else if delta >= current + (MAX_AZIMUTH - BLIND_END) then Stopped(SetAzimuth(m, BLIND_END))
    else SetAzimuth(m, StubNormalize(current - delta))
  }

  function DriveRightBy(m: Motion, delta: real): Motion {
    var current := StubNormalize(m.azimuthDeg);
    if Blind(current) then Stopped(m)
    else if current <= BLIND_START then
      if current + delta >= BLIND_START then Stopped(SetAzimuth(m, BLIND_START)) else SetAzimuth(m, current + delta)
    else if delta >= MAX_AZIMUTH - current + BLIND_START then Stopped(SetAzimuth(m, BLIND_START))
    else SetAzimuth(m, StubNormalize(current + delta))
  }

  /** moveTowardSafeCoord: the new motion and whether the target was reached. */
  function MoveToward(m: Motion, target: real, maxStep: real): (Motion, bool) {
    var current := StubCoord(m.azimuthDeg);
    var distance := target - current;
    if AbsReal(distance) <= ANGLE_TOLERANCE then (SetAzimuth(m, StubFromCoord(target)), true)
    else
      var next := current + ClampReal(distance, -maxStep, maxStep);
      if AbsReal(target - next) <= ANGLE_TOLERANCE then (SetAzimuth(m, StubFromCoord(target)), true)
      else (SetAzimuth(m, StubFromCoord(next)), false)
  }

  function Seconds(elapsedMs: int): real { (if elapsedMs < 1 then 1 else elapsedMs) as real / 1000.0 }

  /** How far the antenna turns in a tick. */
  function Reach(m: Motion, elapsedMs: int): real { m.speedDegPerSec * Seconds(elapsedMs) }

  function Tick(m: Motion, elapsedMs: int): Motion {
    var step := Reach(m, elapsedMs);
    match m.mode
    case Idle => m
    case DrivingLeft => DriveLeftBy(m, step)
    case DrivingRight => DriveRightBy(m, step)
    case MovingToScanStart =>
      var (moved, reached) := MoveToward(m, m.scanStart, step);
      if reached then moved.(mode := ScanningSector) else moved
    case ScanningSector =>
      var (moved, reached) := MoveToward(m, m.scanTarget, step);
      if reached then Stopped(moved) else moved
  }

  // ---- commands ----------------------------------------------------------------------------------

  datatype Event = DriveLeft(speed: int) | DriveRight(speed: int) | Scan(left: real, right: real, speed: int) | Stop | Ticks(elapsedMs: int)

  predicate AcceptsScan(m: Motion, left: real, right: real, speed: int) {
    && ValidAzimuth(left) && !Blind(left) && ValidAzimuth(right) && !Blind(right) && speed > 0
    && AbsReal(MaxReal(StubCoord(left), StubCoord(right)) - MinReal(StubCoord(left), StubCoord(right))) > ANGLE_TOLERANCE
    && !Blind(m.azimuthDeg)
  }

  function StartScan(m: Motion, lo: real, hi: real, speed: int): Motion {
    var current := StubCoord(m.azimuthDeg);
    var fromLow := AbsReal(lo - current) <= AbsReal(hi - current);
    var start, target := if fromLow then lo else hi, if fromLow then hi else lo;
    Motion(m.azimuthDeg, if AbsReal(start - current) <= ANGLE_TOLERANCE then ScanningSector else MovingToScanStart,
           speed as real, start, target)
  }

  function Step(m: Motion, e: Event): Motion {
    match e
    case DriveLeft(speed) => if speed <= 0 then m else m.(mode := DrivingLeft, speedDegPerSec := speed as real)
    case DriveRight(speed) => if speed <= 0 then m else m.(mode := DrivingRight, speedDegPerSec := speed as real)
    case Scan(left, right, speed) =>
      if !AcceptsScan(m, left, right, speed) then m
      else StartScan(m, MinReal(StubCoord(left), StubCoord(right)), MaxReal(StubCoord(left), StubCoord(right)), speed)
    case Stop => Stopped(m)
    case Ticks(elapsedMs) => Tick(m, elapsedMs)
  }

  // ---- where the antenna is on the line ----------------------------------------------------------

  function Line(a: real): real { if a >= BLIND_END then a - BLIND_END else a + BLIND_START }

  /** Outside the blind zone, with an azimuth the stub itself would store. */
  predicate Usable(a: real) { ValidAzimuth(a) && (a <= BLIND_START || a >= BLIND_END) && !FuzzyEqual(a, MAX_AZIMUTH) }

  /** A scan's ends are coordinates, and a moving antenna has a speed. */
  predicate Sound(m: Motion) {
    && Usable(m.azimuthDeg)
    && (m.mode != Idle ==> m.speedDegPerSec >= 1.0)
    && (m.mode == MovingToScanStart || m.mode == ScanningSector ==>
          0.0 <= m.scanStart <= MAX_SAFE_COORD && 0.0 <= m.scanTarget <= MAX_SAFE_COORD)
  }

  lemma StubNormalizeNear(a: real)
    requires 0.0 <= a < MAX_AZIMUTH
    ensures StubNormalize(a) == a || (StubNormalize(a) == 0.0 && MAX_AZIMUTH - a <= EPSILON / 2.0 && FuzzyEqual(a, MAX_AZIMUTH))
    ensures !FuzzyEqual(a, MAX_AZIMUTH) ==> StubNormalize(a) == a
  {
    FmodRange(a);
    hide Fmod;
  }

  lemma UsableStays(a: real)
    requires Usable(a)
    ensures StubNormalize(a) == a && !Blind(a) && StubCoord(a) == Line(a) && 0.0 <= Line(a) <= MAX_SAFE_COORD
  {
    StubNormalizeNear(a);
  }

  /** An azimuth the stub would store is set exactly, or the fuzzy comparison keeps one half a hair away. */
  lemma SetIsHalfNear(m: Motion, a: real)
    requires Usable(m.azimuthDeg) && Usable(a)
    ensures Usable(SetAzimuth(m, a).azimuthDeg) && AbsReal(Line(SetAzimuth(m, a).azimuthDeg) - Line(a)) <= EPSILON / 2.0
    ensures SetAzimuth(m, a) == m.(azimuthDeg := SetAzimuth(m, a).azimuthDeg)
  {
    StubNormalizeNear(a);
    hide StubNormalize;
  }

  /** Setting a usable azimuth puts the antenna within a hair of it on the line, even when the fuzzy comparison skips. */
  lemma SetIsNear(m: Motion, a: real)
    requires Usable(m.azimuthDeg) && ValidAzimuth(a) && (a <= BLIND_START || a >= BLIND_END)
    ensures Usable(SetAzimuth(m, a).azimuthDeg) && AbsReal(Line(SetAzimuth(m, a).azimuthDeg) - Line(a)) <= EPSILON
    ensures SetAzimuth(m, a) == m.(azimuthDeg := SetAzimuth(m, a).azimuthDeg)
  {
    StubNormalizeNear(a);
    hide StubNormalize;
  }

  /** An angle off the end of a turn is normalized to within half a hair of the azimuth one turn away. */
  lemma WrapIsNear(x: real, y: real)
    requires ValidAzimuth(y) && (y <= BLIND_START || y >= BLIND_END) && -MAX_AZIMUTH < x < 2.0 * MAX_AZIMUTH
    requires y == x || y == x + MAX_AZIMUTH || y == x - MAX_AZIMUTH
    ensures Usable(StubNormalize(x)) && AbsReal(Line(StubNormalize(x)) - Line(y)) <= EPSILON / 2.0
  {
    FmodRange(x);
    hide Fmod;
  }

  /** Both fuzzy steps together stay within a hair. */
  lemma SetWrapped(m: Motion, x: real, y: real)
    requires Usable(m.azimuthDeg) && ValidAzimuth(y) && (y <= BLIND_START || y >= BLIND_END) && -MAX_AZIMUTH < x < 2.0 * MAX_AZIMUTH
    requires y == x || y == x + MAX_AZIMUTH || y == x - MAX_AZIMUTH
    ensures var after := SetAzimuth(m, StubNormalize(x));
            Usable(after.azimuthDeg) && AbsReal(Line(after.azimuthDeg) - Line(y)) <= EPSILON
            && after == m.(azimuthDeg := after.azimuthDeg)
  {
    WrapIsNear(x, y);
    SetIsHalfNear(m, StubNormalize(x));
    hide StubNormalize, SetAzimuth, Line, Usable;
  }

  ghost predicate Near(m: Motion, c: real) { Usable(m.azimuthDeg) && AbsReal(Line(m.azimuthDeg) - c) <= EPSILON }

  /** The three cases of a left tick, for an azimuth outside the blind zone. */
  lemma DriveLeftCases(m: Motion, delta: real)
    requires Usable(m.azimuthDeg) && delta >= 0.0
    ensures DriveLeftBy(m, delta)
            == if Line(m.azimuthDeg) <= delta then Stopped(SetAzimuth(m, BLIND_END))
               else if m.azimuthDeg >= BLIND_END then SetAzimuth(m, m.azimuthDeg - delta)
               else SetAzimuth(m, StubNormalize(m.azimuthDeg - delta))
  {
    hide SetAzimuth, StubNormalize, StubCoord, Blind;
    UsableStays(m.azimuthDeg);
  }

  lemma DriveRightCases(m: Motion, delta: real)
    requires Usable(m.azimuthDeg) && delta >= 0.0
    ensures DriveRightBy(m, delta)
            == if Line(m.azimuthDeg) + delta >= MAX_SAFE_COORD then Stopped(SetAzimuth(m, BLIND_START))
               else if m.azimuthDeg <= BLIND_START then SetAzimuth(m, m.azimuthDeg + delta)
               else SetAzimuth(m, StubNormalize(m.azimuthDeg + delta))
  {
    hide SetAzimuth, StubNormalize, StubCoord, Blind;
    UsableStays(m.azimuthDeg);
  }

  /** Driving left is motion on the line clamped at its low end, where it stops. */
  lemma DriveLeftIsClamped(m: Motion, delta: real)
    requires Usable(m.azimuthDeg) && delta >= 0.0
    ensures var after := DriveLeftBy(m, delta);
            && Near(after, MaxReal(0.0, Line(m.azimuthDeg) - delta))
            && after == if Line(m.azimuthDeg) <= delta then Stopped(m.(azimuthDeg := after.azimuthDeg)) else m.(azimuthDeg := after.azimuthDeg)
  {
    hide SetAzimuth, StubNormalize, DriveLeftBy, FuzzyEqual;
    DriveLeftCases(m, delta);
    var current := m.azimuthDeg;
    if Line(current) <= delta {
      SetIsNear(m, BLIND_END);
    } else if current >= BLIND_END {
      SetIsNear(m, current - delta);
    } else {
      SetWrapped(m, current - delta, if current - delta >= 0.0 then current - delta else current - delta + MAX_AZIMUTH);
    }
  }

  /** Driving right is motion on the line clamped at its high end, where it stops. */
  lemma DriveRightIsClamped(m: Motion, delta: real)
    requires Usable(m.azimuthDeg) && delta >= 0.0
    ensures var after := DriveRightBy(m, delta);
            && Near(after, MinReal(MAX_SAFE_COORD, Line(m.azimuthDeg) + delta))
            && after == if Line(m.azimuthDeg) + delta >= MAX_SAFE_COORD then Stopped(m.(azimuthDeg := after.azimuthDeg))
                        else m.(azimuthDeg := after.azimuthDeg)
  {
    hide SetAzimuth, StubNormalize, DriveRightBy, FuzzyEqual;
    DriveRightCases(m, delta);
    var current := m.azimuthDeg;
    if Line(current) + delta >= MAX_SAFE_COORD {
      SetIsNear(m, BLIND_START);
    } else if current <= BLIND_START {
      SetIsNear(m, current + delta);
    } else {
      SetWrapped(m, current + delta, if current + delta < MAX_AZIMUTH then current + delta else current + delta - MAX_AZIMUTH);
    }
  }

  /** Setting the azimuth of a coordinate puts the antenna within a hair of the coordinate. */
  lemma SetCoordIsNear(m: Motion, c: real)
    requires Usable(m.azimuthDeg) && 0.0 <= c <= MAX_SAFE_COORD
    ensures var after := SetAzimuth(m, StubFromCoord(c)); Near(after, c) && after == m.(azimuthDeg := after.azimuthDeg)
  {
    if c <= BLIND_START {
      SetWrapped(m, BLIND_END + c, if c < BLIND_START then BLIND_END + c else 0.0);
    } else {
      SetIsNear(m, c - BLIND_START);
    }
    hide SetAzimuth, StubNormalize;
  }

  /** A move sets the azimuth of its target once within tolerance of it, before or after the step, and else steps. */
  lemma MoveTowardCases(m: Motion, target: real, maxStep: real)
    requires Usable(m.azimuthDeg)
    ensures var c := Line(m.azimuthDeg);
            var next := c + ClampReal(target - c, -maxStep, maxStep);
            MoveToward(m, target, maxStep)
            == if AbsReal(target - c) <= ANGLE_TOLERANCE || AbsReal(target - next) <= ANGLE_TOLERANCE
               then (SetAzimuth(m, StubFromCoord(target)), true) else (SetAzimuth(m, StubFromCoord(next)), false)
  {
    hide SetAzimuth, StubFromCoord, StubNormalize, StubCoord, ClampReal, Blind;
    UsableStays(m.azimuthDeg);
  }

  lemma LineRange(a: real)
    requires Usable(a)
    ensures 0.0 <= Line(a) <= MAX_SAFE_COORD
  {
  }

  /** A move toward a coordinate reaches it within a hair, or comes closer by the whole step less a hair. */
  lemma MoveTowardProgresses(m: Motion, target: real, maxStep: real)
    requires Usable(m.azimuthDeg) && 0.0 <= target <= MAX_SAFE_COORD && maxStep >= 0.0
    ensures var (after, reached) := MoveToward(m, target, maxStep);
            && Usable(after.azimuthDeg) && after == m.(azimuthDeg := after.azimuthDeg)
            && (reached ==> Near(after, target))
            && (!reached ==> AbsReal(target - Line(after.azimuthDeg)) <= AbsReal(target - Line(m.azimuthDeg)) - maxStep + EPSILON
                             && AbsReal(target - Line(m.azimuthDeg)) > ANGLE_TOLERANCE)
            && (AbsReal(target - Line(m.azimuthDeg)) <= maxStep + ANGLE_TOLERANCE ==> reached)
  {
    hide SetAzimuth, StubFromCoord, MoveToward, Usable, Line;
    MoveTowardCases(m, target, maxStep);
    LineRange(m.azimuthDeg);
    SetCoordIsNear(m, target);
    var current := Line(m.azimuthDeg);
    SetCoordIsNear(m, current + ClampReal(target - current, -maxStep, maxStep));
  }

  // ---- every run ---------------------------------------------------------------------------------

  lemma ReachAtLeast(m: Motion, elapsedMs: int)
    requires m.speedDegPerSec >= 1.0
    ensures Reach(m, elapsedMs) >= 0.001
  {
    var t := Seconds(elapsedMs);
    assert t >= 0.001;
    assert (m.speedDegPerSec - 1.0) * t >= 0.0;
  }

  lemma TickKeepsSound(m: Motion, elapsedMs: int)
    requires Sound(m)
    ensures Sound(Tick(m, elapsedMs))
  {
    hide DriveLeftBy, DriveRightBy, MoveToward, Usable, Reach, Line;
    if m.mode != Idle {
      ReachAtLeast(m, elapsedMs);
      var step := Reach(m, elapsedMs);
      match m.mode
      case DrivingLeft => DriveLeftIsClamped(m, step);
      case DrivingRight => DriveRightIsClamped(m, step);
      case MovingToScanStart => MoveTowardProgresses(m, m.scanStart, step);
      case ScanningSector => MoveTowardProgresses(m, m.scanTarget, step);
    }
  }

  lemma StubCoordRange(a: real)
    requires ValidAzimuth(a) && !Blind(a)
    ensures 0.0 <= StubCoord(a) <= MAX_SAFE_COORD
  {
    StubNormalizeNear(a);
    hide StubNormalize;
  }

  lemma StepKeepsSound(m: Motion, e: Event)
    requires Sound(m)
    ensures Sound(Step(m, e))
  {
    match e
    case Ticks(elapsedMs) => TickKeepsSound(m, elapsedMs);
    case Scan(left, right, speed) =>
      if AcceptsScan(m, left, right, speed) {
        StubCoordRange(left);
        StubCoordRange(right);
      }
      hide StubCoord, Blind, Usable;
    case _ => hide Usable;
  }

  function Run(m: Motion, events: seq<Event>): Motion {
    if events == [] then m else Step(Run(m, events[..|events| - 1]), events[|events| - 1])
  }

  /** From a usable azimuth no run of drives, scans, stops and ticks ever puts the antenna inside the blind zone. */
  lemma {:induction false} NeverInBlindZone(m: Motion, events: seq<Event>)
    requires Sound(m)
    ensures Sound(Run(m, events)) && !(BLIND_START < Run(m, events).azimuthDeg < BLIND_END)
  {
    if events != [] {
      NeverInBlindZone(m, events[..|events| - 1]);
      hide Sound;
      StepKeepsSound(Run(m, events[..|events| - 1]), events[|events| - 1]);
      SoundIsOutside(Run(m, events));
    }
  }

  lemma SoundIsOutside(m: Motion)
    requires Sound(m)
    ensures !(BLIND_START < m.azimuthDeg < BLIND_END)
  {
  }

  /** A drive command and a tick of any length turn the antenna its way on the line, by its speed times the tick (at least
      a millisecond), up to the end of the line. */
  lemma DrivesTurnTheirWay(m: Motion, speed: int, elapsedMs: int, turn: real)
    requires Sound(m) && speed >= 1
    requires 1000.0 * turn == speed as real * (if elapsedMs < 1 then 1 else elapsedMs) as real
    ensures Near(Run(m, [DriveLeft(speed), Ticks(elapsedMs)]), MaxReal(0.0, Line(m.azimuthDeg) - turn))
    ensures Near(Run(m, [DriveRight(speed), Ticks(elapsedMs)]), MinReal(MAX_SAFE_COORD, Line(m.azimuthDeg) + turn))
  {
    hide Line, Usable, DriveLeftBy, DriveRightBy, Reach, Run;
    RunOfTwo(m, DriveLeft(speed), Ticks(elapsedMs));
    RunOfTwo(m, DriveRight(speed), Ticks(elapsedMs));
    TurnIsPositive(m.(speedDegPerSec := speed as real), elapsedMs, turn);
    TickTurns(m, DrivingLeft, speed as real, elapsedMs, turn);
    TickTurns(m, DrivingRight, speed as real, elapsedMs, turn);
    DriveLeftIsClamped(m.(mode := DrivingLeft, speedDegPerSec := speed as real), turn);
    DriveRightIsClamped(m.(mode := DrivingRight, speedDegPerSec := speed as real), turn);
  }

  /** What a tick does to a driving antenna. */
  lemma TickTurns(m: Motion, mode: Mode, speed: real, elapsedMs: int, turn: real)
    requires (mode == DrivingLeft || mode == DrivingRight)
    requires 1000.0 * turn == speed * (if elapsedMs < 1 then 1 else elapsedMs) as real
    ensures var driving := m.(mode := mode, speedDegPerSec := speed);
            Tick(driving, elapsedMs) == if mode == DrivingLeft then DriveLeftBy(driving, turn) else DriveRightBy(driving, turn)
  {
    hide DriveLeftBy, DriveRightBy, Reach, MoveToward;
    ReachIsTurn(m.(mode := mode, speedDegPerSec := speed), elapsedMs, turn);
  }

  lemma TurnIsPositive(m: Motion, elapsedMs: int, turn: real)
    requires m.speedDegPerSec >= 1.0 && 1000.0 * turn == m.speedDegPerSec * (if elapsedMs < 1 then 1 else elapsedMs) as real
    ensures turn >= 0.0
  {
    ReachAtLeast(m, elapsedMs);
    ReachIsTurn(m, elapsedMs, turn);
    hide Reach;
  }

  lemma RunOfTwo(m: Motion, a: Event, b: Event)
    ensures Run(m, [a, b]) == Step(Step(m, a), b)
  {
    hide Step;
    assert [a, b][..1] == [a] && [a][..0] == [];
    assert Run(m, []) == m;
    assert Run(m, [a]) == Step(m, a);
  }

  lemma ReachIsTurn(m: Motion, elapsedMs: int, turn: real)
    requires 1000.0 * turn == m.speedDegPerSec * (if elapsedMs < 1 then 1 else elapsedMs) as real
    ensures Reach(m, elapsedMs) == turn
  {
    ThousandthOf(m.speedDegPerSec, (if elapsedMs < 1 then 1 else elapsedMs) as real);
  }

  lemma ThousandthOf(a: real, b: real)
    ensures 1000.0 * (a * (b / 1000.0)) == a * b
  {
    assert 1000.0 * (b / 1000.0) == b;
  }

  /** An idle antenna stands still, and stopping makes it idle. */
  lemma IdleStands(m: Motion, elapsedMs: int)
    ensures Step(m, Stop) == m.(mode := Idle, speedDegPerSec := 0.0)
    ensures Step(Step(m, Stop), Ticks(elapsedMs)) == Step(m, Stop)
  {
  }

  /** A scan between usable azimuths is accepted exactly when it has a speed and its ends are apart on the line; it then
      sweeps between its two ends, starting at the nearer one (the lower of two equally near), at once when already there. */
  lemma ScanStartsAtNearerEnd(m: Motion, left: real, right: real, speed: int)
    requires Sound(m) && Usable(left) && Usable(right)
    ensures var l, r, c := Line(left), Line(right), Line(m.azimuthDeg);
            var after := Step(m, Scan(left, right, speed));
            if speed >= 1 && (l - r > ANGLE_TOLERANCE || r - l > ANGLE_TOLERANCE) then
              && ((after.scanStart == l && after.scanTarget == r) || (after.scanStart == r && after.scanTarget == l))
              && AbsReal(after.scanStart - c) <= AbsReal(after.scanTarget - c)
              && (AbsReal(l - c) == AbsReal(r - c) ==> after.scanStart < after.scanTarget)
              && after.mode == (if AbsReal(after.scanStart - c) <= ANGLE_TOLERANCE then ScanningSector else MovingToScanStart)
              && after.azimuthDeg == m.azimuthDeg && after.speedDegPerSec == speed as real
            else after == m
  {
    UsableStays(left);
    UsableStays(right);
    UsableStays(m.azimuthDeg);
    hide StubCoord, Blind, Line, Usable, FuzzyEqual;
    assert ValidAzimuth(left) && ValidAzimuth(right) by { assert Usable(left) && Usable(right); UsableIsValid(left); UsableIsValid(right); }
  }

  lemma UsableIsValid(a: real)
    requires Usable(a)
    ensures ValidAzimuth(a)
  {
  }

  /** A scan with an end in the blind zone is refused. */
  lemma BlindEndRefused(m: Motion, left: real, right: real, speed: int)
    requires BLIND_START < left < BLIND_END || BLIND_START < right < BLIND_END
    ensures Step(m, Scan(left, right, speed)) == m
  {
    if BLIND_START < left < BLIND_END { StubNormalizeNear(left); }
    if BLIND_START < right < BLIND_END { StubNormalizeNear(right); }
    hide StubNormalize;
  }

  // ---- scans end ---------------------------------------------------------------------------------

  /** More than the ticks a distance can take at the slowest speed and the shortest tick. */
  function TicksFor(distance: real): nat
    requires distance >= 0.0
  {
    (distance * 2000.0).Floor + 1
  }

  lemma FewerTicks(near: real, far: real)
    requires 0.0 <= near <= far - 0.0005
    ensures TicksFor(near) < TicksFor(far)
  {
    assert near * 2000.0 + 1.0 <= far * 2000.0;
  }

  lemma NoMoreTicks(near: real, far: real)
    requires 0.0 <= near <= far
    ensures TicksFor(near) <= TicksFor(far)
  {
    assert near * 2000.0 <= far * 2000.0;
  }

  function Measure(m: Motion): nat {
    match m.mode
    case MovingToScanStart => TicksFor(AbsReal(m.scanStart - Line(m.azimuthDeg))) + TicksFor(341.0)
    case ScanningSector => TicksFor(AbsReal(m.scanTarget - Line(m.azimuthDeg)))
    case _ => 0
  }

  predicate InScan(m: Motion) { m.mode == MovingToScanStart || m.mode == ScanningSector }

  /** Every tick of a scan makes progress; the move ends at the start, and the sweep at the target. */
  lemma ScanProgresses(m: Motion, elapsedMs: int)
    requires Sound(m) && InScan(m)
    ensures var after := Tick(m, elapsedMs);
            && Measure(after) < Measure(m)
            && after.scanStart == m.scanStart && after.scanTarget == m.scanTarget
            && (m.mode == MovingToScanStart ==>
                  after.mode == MovingToScanStart || (after.mode == ScanningSector && Near(after, m.scanStart)))
            && (m.mode == ScanningSector ==>
                  after.mode == ScanningSector || (after.mode == Idle && Near(after, m.scanTarget)))
  {
    hide MoveToward, TicksFor, Reach, Line, Usable;
    ReachAtLeast(m, elapsedMs);
    var goal := if m.mode == MovingToScanStart then m.scanStart else m.scanTarget;
    MoveTowardProgresses(m, goal, Reach(m, elapsedMs));
    var (after, reached) := MoveToward(m, goal, Reach(m, elapsedMs));
    if !reached {
      FewerTicks(AbsReal(goal - Line(after.azimuthDeg)), AbsReal(goal - Line(m.azimuthDeg)));
    } else if m.mode == MovingToScanStart {
      assert AbsReal(m.scanTarget - Line(after.azimuthDeg)) <= 341.0 by { LineRange(after.azimuthDeg); }
      NoMoreTicks(AbsReal(m.scanTarget - Line(after.azimuthDeg)), 341.0);
      AtLeastOne(AbsReal(goal - Line(m.azimuthDeg)));
    } else {
      AtLeastOne(AbsReal(goal - Line(m.azimuthDeg)));
    }
  }

  lemma AtLeastOne(distance: real)
    requires distance >= 0.0
    ensures TicksFor(distance) >= 1
  {
  }

  function AfterTicks(m: Motion, ticks: seq<int>): Motion
    decreases |ticks|
  {
    if ticks == [] then m else AfterTicks(Tick(m, ticks[0]), ticks[1..])
  }

  lemma AfterOneMore(m: Motion, ticks: seq<int>, k: nat)
    requires ticks != [] && k <= |ticks| - 1
    ensures AfterTicks(m, ticks[..k + 1]) == AfterTicks(Tick(m, ticks[0]), ticks[1..][..k])
  {
    assert ticks[..k + 1][1..] == ticks[1..][..k];
  }

  /** However long the ticks are, a scan gets to its start and then to its target, where it stops, within its measure. */
  lemma {:induction false} ScanReachesTarget(m: Motion, ticks: seq<int>)
    requires Sound(m) && InScan(m) && |ticks| >= Measure(m)
    ensures exists k :: 0 <= k <= |ticks| && AfterTicks(m, ticks[..k]).mode == Idle && Near(AfterTicks(m, ticks[..k]), m.scanTarget)
    ensures m.mode == MovingToScanStart ==>
              exists k :: 0 <= k <= |ticks| && AfterTicks(m, ticks[..k]).mode == ScanningSector && Near(AfterTicks(m, ticks[..k]), m.scanStart)
    decreases |ticks|
  {
    MeasureIsPositive(m);
    var m1 := Tick(m, ticks[0]);
    ScanProgresses(m, ticks[0]);
    TickKeepsSound(m, ticks[0]);
    hide Tick, Measure, Sound, Near;
    AfterOneMore(m, ticks, 0);
    if InScan(m1) {
      ScanReachesTarget(m1, ticks[1..]);
      var k :| 0 <= k <= |ticks| - 1 && AfterTicks(m1, ticks[1..][..k]).mode == Idle && Near(AfterTicks(m1, ticks[1..][..k]), m.scanTarget);
      AfterOneMore(m, ticks, k);
      assert AfterTicks(m, ticks[..k + 1]).mode == Idle;
      if m.mode == MovingToScanStart {
        if m1.mode == MovingToScanStart {
          var j :| 0 <= j <= |ticks| - 1 && AfterTicks(m1, ticks[1..][..j]).mode == ScanningSector
                   && Near(AfterTicks(m1, ticks[1..][..j]), m.scanStart);
          AfterOneMore(m, ticks, j);
          assert AfterTicks(m, ticks[..j + 1]).mode == ScanningSector;
        } else {
          assert AfterTicks(m, ticks[..0 + 1]) == m1;
        }
      }
    } else {
      assert AfterTicks(m, ticks[..0 + 1]) == m1;
    }
  }

  lemma MeasureIsPositive(m: Motion)
    requires InScan(m)
    ensures Measure(m) > 0
  {
  }

  // ---- the controller ----------------------------------------------------------------------------

  class AntennaControllerStub {
    var azimuthDeg: real
    var motionMode: Mode
    var speedDegPerSec: real
    var scanStartCoord: real
    var scanTargetCoord: real
    var rejected: nat

    ghost function View(): Motion
      reads this
    {
      Motion(azimuthDeg, motionMode, speedDegPerSec, scanStartCoord, scanTargetCoord)
    }

    /** The antenna stands outside the blind zone, its scan stays on the line, and it has a speed when it moves. */
    ghost predicate Valid()
      reads this
    {
      Sound(View())
    }

    constructor ()
      ensures View() == Motion(34.7, Idle, 0.0, 0.0, 0.0) && rejected == 0 && Valid()
    {
      azimuthDeg, motionMode, speedDegPerSec, scanStartCoord, scanTargetCoord, rejected := 34.7, Idle, 0.0, 0.0, 0.0, 0;
    }

    method SetAzimuthDeg(a: real)
      modifies this
      ensures View() == SetAzimuth(old(View()), a)
      ensures rejected == old(rejected) + if ValidAzimuth(a) then 0 else 1
    {
      if !ValidAzimuth(a) {
        rejected := rejected + 1;
        return;
      }
      var normalized := StubNormalize(a);
      if FuzzyEqual(azimuthDeg, normalized) {
        return;
      }
      azimuthDeg := normalized;
    }

    method StopMotion()
      modifies this
      ensures View() == Stopped(old(View()))
      ensures old(Valid()) ==> Valid()
    {
      if Valid() { StepKeepsSound(View(), Stop); }
      hide Sound;
      motionMode, speedDegPerSec := Idle, 0.0;
    }

    method StartDrive(left: bool, speed: int)
      modifies this
      ensures View() == Step(old(View()), if left then DriveLeft(speed) else DriveRight(speed))
      ensures rejected == old(rejected) + if speed <= 0 then 1 else 0
      ensures old(Valid()) ==> Valid()
    {
      if Valid() { StepKeepsSound(View(), if left then DriveLeft(speed) else DriveRight(speed)); }
      hide Sound;
      if speed <= 0 {
        rejected := rejected + 1;
        return;
      }
      motionMode := if left then DrivingLeft else DrivingRight;
      speedDegPerSec := speed as real;
    }

    method StartSectorScan(leftAngle: real, rightAngle: real, speed: int)
      modifies this
      ensures View() == Step(old(View()), Scan(leftAngle, rightAngle, speed))
      ensures rejected == old(rejected) + if AcceptsScan(old(View()), leftAngle, rightAngle, speed) then 0 else 1
      ensures old(Valid()) ==> Valid()
    {
      if Valid() { StepKeepsSound(View(), Scan(leftAngle, rightAngle, speed)); }
      hide Sound;
      hide StubNormalize, Blind, StubCoord;
      if !ValidAzimuth(leftAngle) || Blind(leftAngle) || !ValidAzimuth(rightAngle) || Blind(rightAngle) || speed <= 0 {
        rejected := rejected + 1;
        return;
      }
      var leftCoord, rightCoord := StubCoord(leftAngle), StubCoord(rightAngle);
      var minCoord, maxCoord := MinReal(leftCoord, rightCoord), MaxReal(leftCoord, rightCoord);
      if AbsReal(maxCoord - minCoord) <= ANGLE_TOLERANCE {
        rejected := rejected + 1;
        return;
      }
      if Blind(azimuthDeg) {
        rejected := rejected + 1;
        return;
      }
      var currentCoord := StubCoord(azimuthDeg);
      if AbsReal(minCoord - currentCoord) <= AbsReal(maxCoord - currentCoord) {
        scanStartCoord, scanTargetCoord := minCoord, maxCoord;
      } else {
        scanStartCoord, scanTargetCoord := maxCoord, minCoord;
      }
      motionMode := if AbsReal(scanStartCoord - currentCoord) <= ANGLE_TOLERANCE then ScanningSector else MovingToScanStart;
      speedDegPerSec := speed as real;
    }

    method AdvanceDriveLeft(delta: real)
      modifies this
      ensures View() == DriveLeftBy(old(View()), delta)
    {
      hide SetAzimuth, StubNormalize;
      var current := StubNormalize(azimuthDeg);
      if Blind(current) {
        StopMotion();
        return;
      }
      if current >= BLIND_END {
        var next := current - delta;
        if next <= BLIND_END {
          SetAzimuthDeg(BLIND_END);
          StopMotion();
          return;
        }
        SetAzimuthDeg(next);
        return;
      }
      var distanceToRightBoundary := current + (MAX_AZIMUTH - BLIND_END);
      if delta >= distanceToRightBoundary {
        SetAzimuthDeg(BLIND_END);
        StopMotion();
        return;
      }
      SetAzimuthDeg(StubNormalize(current - delta));
    }

    method AdvanceDriveRight(delta: real)
      modifies this
      ensures View() == DriveRightBy(old(View()), delta)
    {
      hide SetAzimuth, StubNormalize;
      var current := StubNormalize(azimuthDeg);
      if Blind(current) {
        StopMotion();
        return;
      }
      if current <= BLIND_START {
        var next := current + delta;
        if next >= BLIND_START {
          SetAzimuthDeg(BLIND_START);
          StopMotion();
          return;
        }
        SetAzimuthDeg(next);
        return;
      }
      var distanceToLeftBoundary := MAX_AZIMUTH - current + BLIND_START;
      if delta >= distanceToLeftBoundary {
        SetAzimuthDeg(BLIND_START);
        StopMotion();
        return;
      }
      SetAzimuthDeg(StubNormalize(current + delta));
    }

    method MoveTowardSafeCoord(targetCoord: real, maxStep: real) returns (reached: bool)
      modifies this
      ensures (View(), reached) == MoveToward(old(View()), targetCoord, maxStep)
    {
      hide SetAzimuth, StubNormalize, StubCoord, StubFromCoord;
      var currentCoord := StubCoord(azimuthDeg);
      var distance := targetCoord - currentCoord;
      if AbsReal(distance) <= ANGLE_TOLERANCE {
        SetAzimuthDeg(StubFromCoord(targetCoord));
        return true;
      }
      var nextCoord := currentCoord + ClampReal(distance, -maxStep, maxStep);
      if AbsReal(targetCoord - nextCoord) <= ANGLE_TOLERANCE {
        SetAzimuthDeg(StubFromCoord(targetCoord));
        return true;
      }
      SetAzimuthDeg(StubFromCoord(nextCoord));
      return false;
    }

    method AdvanceMotion(elapsedMs: int)
      modifies this
      ensures View() == Tick(old(View()), elapsedMs)
      ensures old(Valid()) ==> Valid()
    {
      if Valid() { StepKeepsSound(View(), Ticks(elapsedMs)); }
      hide Sound;
      hide DriveLeftBy, DriveRightBy, MoveToward;
      var step := speedDegPerSec * Seconds(elapsedMs);
      assert step == Reach(View(), elapsedMs);
      hide Reach, Seconds;
      match motionMode
      case Idle =>
      case DrivingLeft => AdvanceDriveLeft(step);
      case DrivingRight => AdvanceDriveRight(step);
      case MovingToScanStart =>
        var reached := MoveTowardSafeCoord(scanStartCoord, step);
        if reached {
          motionMode := ScanningSector;
        }
      case ScanningSector =>
        var reached := MoveTowardSafeCoord(scanTargetCoord, step);
        if reached {
          StopMotion();
        }
    }
  }
}
