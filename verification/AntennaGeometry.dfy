/** The antenna's turning range: azimuths outside the blind zone 170..190 laid out on a line of 340 degrees,
    and sector scans planned on that line. Angles are real numbers. */
module AntennaGeometry {

  const BLIND_START: real := 170.0
  const BLIND_END: real := 190.0
  const MAX_AZIMUTH: real := 360.0
  const MAX_SAFE_COORD: real := 340.0

  function MinReal(a: real, b: real): real { if a <= b then a else b }
  function MaxReal(a: real, b: real): real { if a <= b then b else a }
  function AbsReal(a: real): real { if a < 0.0 then -a else a }
  function ClampReal(v: real, lo: real, hi: real): real { if v < lo then lo else if v > hi then hi else v }

  predicate ValidAzimuth(a: real) { 0.0 <= a < MAX_AZIMUTH }

  /** std::fmod by a full turn: the remainder has the sign of the argument. */
  function Fmod(a: real): real {
    if a >= 0.0 then a - MAX_AZIMUTH * ((a / MAX_AZIMUTH).Floor as real)
    else a + MAX_AZIMUTH * ((-a / MAX_AZIMUTH).Floor as real)
  }

  function Normalize(a: real): real {
    var r := Fmod(a);
    var n := if r < 0.0 then r + MAX_AZIMUTH else r;
    if n >= MAX_AZIMUTH then n - MAX_AZIMUTH else n
  }

  lemma FmodRange(a: real)
    ensures a >= 0.0 ==> 0.0 <= Fmod(a) < MAX_AZIMUTH
    ensures a < 0.0 ==> -MAX_AZIMUTH < Fmod(a) <= 0.0
    ensures -MAX_AZIMUTH < a < MAX_AZIMUTH ==> Fmod(a) == a
    ensures MAX_AZIMUTH <= a < 2.0 * MAX_AZIMUTH ==> Fmod(a) == a - MAX_AZIMUTH
  {
    var q := if a >= 0.0 then a / MAX_AZIMUTH else -a / MAX_AZIMUTH;
    assert q.Floor as real <= q < q.Floor as real + 1.0;
    if -MAX_AZIMUTH < a < MAX_AZIMUTH { assert q.Floor == 0; }
    if MAX_AZIMUTH <= a < 2.0 * MAX_AZIMUTH { assert q.Floor == 1; }
  }

  /** Normalizing lands in one turn, keeps azimuths, and adds or removes one turn next to it. */
  lemma NormalizeRange(a: real)
    ensures ValidAzimuth(Normalize(a))
    ensures ValidAzimuth(a) ==> Normalize(a) == a
    ensures MAX_AZIMUTH <= a < 2.0 * MAX_AZIMUTH ==> Normalize(a) == a - MAX_AZIMUTH
    ensures -MAX_AZIMUTH < a < 0.0 ==> Normalize(a) == a + MAX_AZIMUTH
  {
    FmodRange(a);
  }

  /** Normalizing keeps the direction, however many turns away. */
  lemma NormalizeKeepsDirection(a: real) returns (turns: int)
    ensures Normalize(a) == a + MAX_AZIMUTH * turns as real
  {
    var q := if a >= 0.0 then a / MAX_AZIMUTH else -a / MAX_AZIMUTH;
    var whole := q.Floor;
    turns := if a >= 0.0 then -whole else whole;
    assert Fmod(a) == a + MAX_AZIMUTH * turns as real;
    FmodRange(a);
    hide Fmod;
    if Normalize(a) != a + MAX_AZIMUTH * turns as real { turns := turns + 1; }
  }

  predicate InBlindZone(a: real) { BLIND_START < Normalize(a) < BLIND_END }

  function ClampToSafeAngle(a: real): real {
    var n := Normalize(a);
    if !InBlindZone(n) then n else if n < 180.0 then BLIND_START else BLIND_END
  }

  function ToSafeCoord(a: real): real {
    var safe := ClampToSafeAngle(a);
    if safe >= BLIND_END then safe - BLIND_END else safe + BLIND_START
  }

  function FromSafeCoord(c: real): real {
    var clamped := ClampReal(c, 0.0, MAX_SAFE_COORD);
    if clamped <= BLIND_START then Normalize(BLIND_END + clamped) else clamped - BLIND_START
  }

  /** Coordinates start at the blind zone's end and grow with the azimuth through north to its start; a blind azimuth has
      the coordinate of the nearer edge. */
  lemma SafeCoordOf(a: real)
    requires ValidAzimuth(a)
    ensures ToSafeCoord(a)
            == if a >= BLIND_END then a - BLIND_END else if a <= BLIND_START then a + BLIND_START
               else if BLIND_END - a <= a - BLIND_START then 0.0 else MAX_SAFE_COORD
  {
    NormalizeRange(a);
    hide Normalize;
  }

  /** From a usable azimuth to its coordinate and back. */
  lemma AzimuthRoundTrip(a: real)
    requires ValidAzimuth(a) && !InBlindZone(a)
    ensures 0.0 <= ToSafeCoord(a) <= MAX_SAFE_COORD && FromSafeCoord(ToSafeCoord(a)) == a
  {
    NormalizeRange(a);
    NormalizeRange(BLIND_END + ToSafeCoord(a));
    hide Normalize;
  }

  /** From a coordinate to its azimuth and back. */
  lemma CoordRoundTrip(c: real)
    requires 0.0 <= c <= MAX_SAFE_COORD
    ensures ValidAzimuth(FromSafeCoord(c)) && !InBlindZone(FromSafeCoord(c)) && ToSafeCoord(FromSafeCoord(c)) == c
  {
    NormalizeRange(BLIND_END + c);
    NormalizeRange(FromSafeCoord(c));
    NormalizeRange(Normalize(FromSafeCoord(c)));
    hide Normalize;
  }

  // ---- sectors -----------------------------------------------------------------------------------

  datatype ScanSector = ScanSector(startAzimuthDeg: real, endAzimuthDeg: real) {
    predicate Valid() { ValidAzimuth(startAzimuthDeg) && ValidAzimuth(endAzimuthDeg) && startAzimuthDeg != endAzimuthDeg }

    predicate IsWrapAround() { startAzimuthDeg > endAzimuthDeg }

    predicate Contains(a: real) {
      ValidAzimuth(a) &&
      if IsWrapAround() then a >= startAzimuthDeg || a <= endAzimuthDeg else startAzimuthDeg <= a <= endAzimuthDeg
    }

    function SpanDegrees(): real {
      if startAzimuthDeg == endAzimuthDeg then 0.0
      else if IsWrapAround() then MAX_AZIMUTH - startAzimuthDeg + endAzimuthDeg
      else endAzimuthDeg - startAzimuthDeg
    }
  }

  datatype Direction = IncreasingSafeCoord | DecreasingSafeCoord

  datatype Options = Options(speedDegPerSec: real, minSectorDeg: real, angleToleranceDeg: real)

  datatype PlannedPath = PlannedPath(requestedSector: ScanSector, startAzimuthDeg: real, endAzimuthDeg: real,
                                     safeStartCoordDeg: real, safeEndCoordDeg: real, spanDeg: real,
                                     direction: Direction, crossesNorthDeg: bool)

  datatype Plan = Planned(path: PlannedPath) | InvalidInput | BlindEndpoint | NoWidth | BelowMinimum | InvalidSector

  function PlanSectorScan(left: real, right: real, o: Options): Plan {
    if !ValidAzimuth(left) || !ValidAzimuth(right) || o.speedDegPerSec <= 0.0 || o.minSectorDeg <= 0.0 || o.angleToleranceDeg < 0.0
    then InvalidInput
    else if InBlindZone(left) || InBlindZone(right) then BlindEndpoint
    else
      var l, r := ToSafeCoord(left), ToSafeCoord(right);
      var lo, hi := MinReal(l, r), MaxReal(l, r);
      var span := hi - lo;
      if span <= o.angleToleranceDeg then NoWidth
      else if span + o.angleToleranceDeg < o.minSectorDeg then BelowMinimum
      else
        var sector := ScanSector(FromSafeCoord(lo), FromSafeCoord(hi));
        if !sector.Valid() then InvalidSector
        else Planned(PlannedPath(sector, FromSafeCoord(lo), FromSafeCoord(hi), lo, hi, span, IncreasingSafeCoord, sector.IsWrapAround()))
  }

  function PlanFromCurrentAzimuth(left: real, right: real, current: real, o: Options): Plan {
    var base := PlanSectorScan(left, right, o);
    if !base.Planned? then base
    else
      var path := base.path;
      var lo, hi := path.safeStartCoordDeg, path.safeEndCoordDeg;
      var c := ToSafeCoord(current);
      var forward := AbsReal(c - lo) <= AbsReal(c - hi);
      var from, to := if forward then lo else hi, if forward then hi else lo;
      Planned(path.(safeStartCoordDeg := from, safeEndCoordDeg := to,
                    direction := if forward then IncreasingSafeCoord else DecreasingSafeCoord,
                    startAzimuthDeg := FromSafeCoord(from), endAzimuthDeg := FromSafeCoord(to),
                    spanDeg := AbsReal(to - from), crossesNorthDeg := path.requestedSector.IsWrapAround()))
  }

  /** The path joins the coordinates of the two requested ends. */
  ghost predicate Joins(path: PlannedPath, left: real, right: real) {
    var lo, hi := MinReal(path.safeStartCoordDeg, path.safeEndCoordDeg), MaxReal(path.safeStartCoordDeg, path.safeEndCoordDeg);
    && lo == MinReal(ToSafeCoord(left), ToSafeCoord(right)) && hi == MaxReal(ToSafeCoord(left), ToSafeCoord(right))
    && 0.0 <= lo < hi <= MAX_SAFE_COORD
    && path.requestedSector == ScanSector(FromSafeCoord(lo), FromSafeCoord(hi)) && path.requestedSector.Valid()
    && path.startAzimuthDeg == FromSafeCoord(path.safeStartCoordDeg) && path.endAzimuthDeg == FromSafeCoord(path.safeEndCoordDeg)
    && path.spanDeg == hi - lo
  }

  /** A scan is planned exactly for valid options and usable ends far enough apart; no other check can fail. */
  lemma PlannedExactlyWhenUsable(left: real, right: real, current: real, o: Options)
    ensures var plan := PlanFromCurrentAzimuth(left, right, current, o);
            && plan != InvalidSector
            && (plan.Planned? <==>
                  && ValidAzimuth(left) && ValidAzimuth(right) && !InBlindZone(left) && !InBlindZone(right)
                  && o.speedDegPerSec > 0.0 && o.minSectorDeg > 0.0 && o.angleToleranceDeg >= 0.0
                  && AbsReal(ToSafeCoord(left) - ToSafeCoord(right)) > o.angleToleranceDeg
                  && AbsReal(ToSafeCoord(left) - ToSafeCoord(right)) + o.angleToleranceDeg >= o.minSectorDeg)
            && (plan.Planned? ==> Joins(plan.path, left, right))
  {
    hide ToSafeCoord, FromSafeCoord, InBlindZone;
    if ValidAzimuth(left) && ValidAzimuth(right) && !InBlindZone(left) && !InBlindZone(right) {
      AzimuthRoundTrip(left);
      AzimuthRoundTrip(right);
      CoordRoundTrip(ToSafeCoord(left));
      CoordRoundTrip(ToSafeCoord(right));
    }
  }

  /** Why a scan is not planned, in the order of the checks. */
  lemma RefusalTellsWhy(left: real, right: real, current: real, o: Options)
    ensures var plan := PlanFromCurrentAzimuth(left, right, current, o);
            var apart := AbsReal(ToSafeCoord(left) - ToSafeCoord(right));
            var valid := ValidAzimuth(left) && ValidAzimuth(right)
                         && o.speedDegPerSec > 0.0 && o.minSectorDeg > 0.0 && o.angleToleranceDeg >= 0.0;
            var blind := BLIND_START < left < BLIND_END || BLIND_START < right < BLIND_END;
            && (plan.InvalidInput? <==> !valid)
            && (plan.BlindEndpoint? <==> valid && blind)
            && (plan.NoWidth? <==> valid && !blind && apart <= o.angleToleranceDeg)
            && (plan.BelowMinimum? <==> valid && !blind && apart > o.angleToleranceDeg && apart < o.minSectorDeg - o.angleToleranceDeg)
  {
    PlannedExactlyWhenUsable(left, right, current, o);
    if ValidAzimuth(left) { NormalizeRange(left); }
    if ValidAzimuth(right) { NormalizeRange(right); }
    hide ToSafeCoord, FromSafeCoord, Normalize;
  }

  /** A planned path crosses north exactly when it joins the two sides of north on the line. */
  lemma CrossesNorth(left: real, right: real, current: real, o: Options)
    requires PlanFromCurrentAzimuth(left, right, current, o).Planned?
    ensures var path := PlanFromCurrentAzimuth(left, right, current, o).path;
            path.crossesNorthDeg <==> MinReal(path.safeStartCoordDeg, path.safeEndCoordDeg) < BLIND_START
                                      <= MaxReal(path.safeStartCoordDeg, path.safeEndCoordDeg)
  {
    PlannedExactlyWhenUsable(left, right, current, o);
    hide ToSafeCoord, InBlindZone, Normalize;
    var path := PlanFromCurrentAzimuth(left, right, current, o).path;
    AzimuthOfCoord(MinReal(path.safeStartCoordDeg, path.safeEndCoordDeg));
    AzimuthOfCoord(MaxReal(path.safeStartCoordDeg, path.safeEndCoordDeg));
    hide FromSafeCoord;
  }

  lemma AzimuthOfCoord(c: real)
    requires 0.0 <= c <= MAX_SAFE_COORD
    ensures FromSafeCoord(c) == if c < BLIND_START then c + BLIND_END else c - BLIND_START
  {
    NormalizeRange(BLIND_END + c);
    hide Normalize;
  }

  /** The start is the end nearer to the antenna, where a blind current azimuth counts as the nearer edge. */
  lemma StartsAtNearerEnd(left: real, right: real, current: real, o: Options)
    requires PlanFromCurrentAzimuth(left, right, current, o).Planned?
    ensures var path := PlanFromCurrentAzimuth(left, right, current, o).path;
            var c := ToSafeCoord(ClampToSafeAngle(current));
            && AbsReal(c - path.safeStartCoordDeg) <= AbsReal(c - path.safeEndCoordDeg)
            && (path.direction.IncreasingSafeCoord? <==> path.safeStartCoordDeg < path.safeEndCoordDeg)
            && (AbsReal(c - path.safeStartCoordDeg) == AbsReal(c - path.safeEndCoordDeg) ==> path.direction.IncreasingSafeCoord?)
  {
    PlannedExactlyWhenUsable(left, right, current, o);
    NormalizeRange(current);
    NormalizeRange(ClampToSafeAngle(current));
    NormalizeRange(Normalize(current));
    assert ToSafeCoord(ClampToSafeAngle(current)) == ToSafeCoord(current) by { hide Normalize; }
    hide ToSafeCoord, FromSafeCoord, ClampToSafeAngle, Normalize;
  }

  /** On the line a sector is an interval: the azimuths it contains are those with coordinates between its ends,
      whether or not it crosses north. */
  lemma SectorIsInterval(lo: real, hi: real, a: real)
    requires 0.0 <= lo < hi <= MAX_SAFE_COORD && ValidAzimuth(a) && !InBlindZone(a)
    ensures ScanSector(FromSafeCoord(lo), FromSafeCoord(hi)).Contains(a) <==> lo <= ToSafeCoord(a) <= hi
    ensures ScanSector(FromSafeCoord(lo), FromSafeCoord(hi)).SpanDegrees() == hi - lo
  {
    NormalizeRange(a);
    NormalizeRange(BLIND_END + lo);
    NormalizeRange(BLIND_END + hi);
    hide Normalize;
  }

  /** Every planned path: containment is betweenness of coordinates, and the sector's span is the path's. */
  lemma PlannedSectorIsPath(left: real, right: real, current: real, o: Options, a: real)
    requires PlanFromCurrentAzimuth(left, right, current, o).Planned? && ValidAzimuth(a) && !InBlindZone(a)
    ensures var path := PlanFromCurrentAzimuth(left, right, current, o).path;
            && (path.requestedSector.Contains(a) <==>
                  MinReal(path.safeStartCoordDeg, path.safeEndCoordDeg) <= ToSafeCoord(a) <= MaxReal(path.safeStartCoordDeg, path.safeEndCoordDeg))
            && path.requestedSector.SpanDegrees() == path.spanDeg
  {
    PlannedExactlyWhenUsable(left, right, current, o);
    var path := PlanFromCurrentAzimuth(left, right, current, o).path;
    SectorIsInterval(MinReal(path.safeStartCoordDeg, path.safeEndCoordDeg), MaxReal(path.safeStartCoordDeg, path.safeEndCoordDeg), a);
    hide PlanFromCurrentAzimuth, ToSafeCoord, FromSafeCoord, InBlindZone;
  }
}
