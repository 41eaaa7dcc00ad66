/**
  The brem decision engine of `ElectronBiasCorrector`, stated as functions
  of the row: one function per correction strategy, the row updates, and
  `Corrected`, the row that `correct` leaves behind.  The class in
  electron_bias_corrector.dfy runs the same steps on a mutable row and is
  proved to agree with these functions.

  Brem status: -1 the electron is not touched, 0 no brem assigned,
  1 brem assigned.
*/
module ElectronBiasSpec {
  import opened PyBase
  import opened Vectors
  import opened Strings

  const ELECTRON_MASS: real := 0.511
  /** `brem_energy_threshold` when the constructor is given none (MeV). */
  const DEFAULT_BREM_ENERGY_THRESHOLD: real := 300.0
  /** Packaged resource holding the calibration regressor's configuration. */
  const CALIBRATION_CONFIG: string := "calibration/ecal.yaml"

  const ECALO_BIAS: string := "ecalo_bias"
  const BREM_TRACK_1: string := "brem_track_1"
  const BREM_TRACK_2: string := "brem_track_2"

  /** Message of the check in `correct`, and of the one in `_update_brem`. */
  const STATUS_INVALID: string := "Brem status is invalid"
  const INVALID_BREM_STATUS: string := "Invalid brem status"

  /** The exceptions an input row can provoke: a missing column (ValueError
      from `_attr_from_row`, KeyError from item access or `.loc`) or a zero
      division. */
  predicate InputError(e: Exception) {
    e.KeyError? || e.ZeroDivisionError? || (e.ValueError? && StartsWith(e.message, "Cannot find attribute "))
  }

  lemma InputErrorIsNotStatusError(e: Exception)
    requires InputError(e)
    ensures e != ValueError(STATUS_INVALID) && e != ValueError(INVALID_BREM_STATUS)
  {
    if e.ValueError? {
      assert e.message[0] == 'C';
    }
  }

  datatype CalibrationConfig = CalibrationConfig(content: string)
  /** The calibration regressor, built from its configuration. */
  datatype Corrector = Corrector(config: CalibrationConfig)

  /** Collaborators the engine calls but that are not part of this model. */
  datatype Services = Services(
    geo: Geometry,
    /** BremBiasCorrector.correct(brem, row, col, area) */
    bremBias: (Vec4, Value, Value, Value) -> Vec4,
    /** PreProcessor.build_features(row, lep, skip_target=True) */
    buildFeatures: (Record, string) -> Record,
    /** reading the packaged configuration file */
    loadConfig: string -> CalibrationConfig,
    /** Corrector.run(electron, row=features); it is handed whatever the strategy produced */
    run: (Corrector, Option<Vec4>, Record) -> Option<Vec4>)

  /** The regressor hands back an electron whenever it is given one. */
  ghost predicate RunKeepsElectrons(s: Services) {
    forall k, e, f :: s.run(k, Some(e), f).Some?
  }

  function LoadCorrector(s: Services): Corrector {
    Corrector(s.loadConfig(CALIBRATION_CONFIG))
  }

  /** The constructor arguments and the calibration switch. */
  datatype Settings = Settings(skip: bool, threshold: real, useCalibration: bool, services: Services)

  /** What a strategy leaves behind: the brem status, the corrected electron
      (None: keep the row's kinematics) and the row, which the calibration
      step extends. */
  datatype Step = Step(status: int, electron: Option<Vec4>, row: Record)

  function Col(lepton: string, field: string): string {
    lepton + "_" + field
  }

  /** Columns written back by `_update_row`. */
  function KinematicColumns(lepton: string): set<string> {
    {Col(lepton, "PX"), Col(lepton, "PY"), Col(lepton, "PZ"),
     Col(lepton, "PT"), Col(lepton, "ETA"), Col(lepton, "PHI")}
  }

  /** Columns the calibration step adds to the row. */
  function CalibrationColumns(s: Settings): set<string> {
    if s.useCalibration then {"L1_brem", "L2_brem"} else {}
  }

  /** Every column `correct` may write. */
  function Touched(s: Settings, lepton: string): set<string> {
    KinematicColumns(lepton) + {Col(lepton, "HASBREMADDED")} + CalibrationColumns(s)
  }

  predicate HasBrem(row: Record, lepton: string) {
    Col(lepton, "HASBREMADDED") in row && Truthy(row[Col(lepton, "HASBREMADDED")])
  }

  predicate BelowThreshold(row: Record, lepton: string, threshold: real) {
    Col(lepton, "BREMTRACKBASEDENERGY") in row
    && Less(row[Col(lepton, "BREMTRACKBASEDENERGY")], Num(threshold))
  }

  function Flag(row: Record, lepton: string): Option<Value> {
    if Col(lepton, "HASBREMADDED") in row then Some(row[Col(lepton, "HASBREMADDED")]) else None
  }

  /** Different fields name different columns of the same lepton. */
  lemma ColInjective(lepton: string, f1: string, f2: string)
    ensures Col(lepton, f1) == Col(lepton, f2) ==> f1 == f2
  {
    if Col(lepton, f1) == Col(lepton, f2) {
      assert Col(lepton, f1)[|lepton| + 1..] == f1;
      assert Col(lepton, f2)[|lepton| + 1..] == f2;
    }
  }

  /** A lepton column whose field does not end in 'm' is not a calibration column. */
  lemma NotCalibrationColumn(lepton: string, f: string)
    requires f != [] && f[|f| - 1] != 'm'
    ensures Col(lepton, f) != "L1_brem" && Col(lepton, f) != "L2_brem"
  {
    var c := Col(lepton, f);
    assert c[|c| - 1] == f[|f| - 1];
  }

  /** A column of another lepton (same name length, for L1 and L2) is never
      written when `lepton` is corrected. */
  lemma ColumnOfOtherLepton(s: Settings, lepton: string, other: string, f: string)
    requires |lepton| == |other| && lepton != other
    requires f != [] && f[|f| - 1] != 'm'
    ensures Col(other, f) !in Touched(s, lepton)
  {
    forall g ensures Col(other, f) != Col(lepton, g) {
      assert Col(other, f)[..|other|] == other;
      assert Col(lepton, g)[..|lepton|] == lepton;
    }
    NotCalibrationColumn(other, f);
  }

  /** The first of `keys` missing from `row`, if any. */
  function FirstMissing(row: Record, keys: seq<string>): (r: Option<string>)
    ensures r.None? <==> forall k | k in keys :: k in row
    ensures r.Some? ==> r.value in keys && r.value !in row
  {
    if keys == [] then None
    else if keys[0] !in row then Some(keys[0])
    else FirstMissing(row, keys[1..])
  }

  function Assign(row: Record, keys: seq<string>, values: seq<Value>): (r: Record)
    requires |keys| == |values|
    requires forall k | k in keys :: k in row
    ensures r.Keys == row.Keys
    ensures forall k | k in row && k !in keys :: r[k] == row[k]
    ensures forall i | 0 <= i < |keys| && keys[i] !in keys[i + 1..] :: r[keys[i]] == values[i]
  {
    if keys == [] then row
    else
      var r := Assign(row[keys[0] := values[0]], keys[1..], values[1..]);
      assert forall i | 1 <= i < |keys| :: keys[i] == keys[1..][i - 1] && keys[i + 1..] == keys[1..][i..];
      r
  }

  /** `row.loc[keys] = values` on a pandas Series: every label must already be
      there (a list-like `.loc` assignment raises KeyError otherwise), and
      then all of them are set. */
  function LocSet(row: Record, keys: seq<string>, values: seq<Value>): (r: Result<Record>)
    requires |keys| == |values|
    ensures r.Ok? <==> forall k | k in keys :: k in row
    ensures r.Err? ==> exists k | k in keys :: k !in row && r.error == KeyError(k)
    ensures r.Ok? ==> r.value.Keys == row.Keys
    ensures r.Ok? ==> forall k | k in row && k !in keys :: r.value[k] == row[k]
    ensures r.Ok? ==> forall i | 0 <= i < |keys| && keys[i] !in keys[i + 1..] :: r.value[keys[i]] == values[i]
  {
    match FirstMissing(row, keys)
    case Some(k) => Err(KeyError(k))
    case None => Ok(Assign(row, keys, values))
  }

  /** `row.loc[[a, b, c]] = [va, vb, vc]` for three different labels. */
  function Loc3(row: Record, a: string, b: string, c: string, va: Value, vb: Value, vc: Value): (r: Result<Record>)
    requires a != b && b != c && a != c
    ensures r.Ok? <==> a in row && b in row && c in row
    ensures r.Ok? ==> r.value.Keys == row.Keys
    ensures r.Ok? ==> forall k | k in row && k != a && k != b && k != c :: r.value[k] == row[k]
    ensures r.Ok? ==> r.value[a] == va && r.value[b] == vb && r.value[c] == vc
    ensures r.Err? ==> r.error.KeyError?
  {
    var keys := [a, b, c];
    assert keys[0] !in keys[1..] && keys[1] !in keys[2..] && keys[2] !in keys[3..];
    LocSet(row, keys, [va, vb, vc])
  }

  /** `_get_electron`: the electron built from the `{lepton}_{kind}PX/PY/PZ`
      columns with the electron mass (kind is "TRACK_" or ""). */
  function Electron(row: Record, lepton: string, kind: string, geo: Geometry): (r: Result<Vec4>)
    ensures r.Ok? <==> Col(lepton, kind + "PX") in row && Col(lepton, kind + "PY") in row && Col(lepton, kind + "PZ") in row
    ensures r.Ok? ==> r.value.P3() == Vec3(row[Col(lepton, kind + "PX")], row[Col(lepton, kind + "PY")], row[Col(lepton, kind + "PZ")])
    ensures r.Ok? ==> r.value.e == geo.energy(r.value.P3(), ELECTRON_MASS)
    ensures r.Err? ==> InputError(r.error)
  {
    var px :- GetAttr(row, Col(lepton, kind + "PX"));
    var py :- GetAttr(row, Col(lepton, kind + "PY"));
    var pz :- GetAttr(row, Col(lepton, kind + "PZ"));
    Ok(FromMomentum(geo, Vec3(px, py, pz), ELECTRON_MASS))
  }

  /** `_get_ebrem`: the raw brem photon, full electron minus track. */
  function BremPhoton(row: Record, lepton: string, track: Vec4, geo: Geometry): (r: Result<Vec4>)
    ensures r.Ok? <==> Electron(row, lepton, "", geo).Ok?
    ensures r.Ok? && Finite(track) ==> Add(track, r.value) == Electron(row, lepton, "", geo).value
    ensures r.Err? ==> InputError(r.error)
  {
    var full :- Electron(row, lepton, "", geo);
    assert Finite(track) ==> Add(track, Sub(full, track)) == full by {
      if Finite(track) {
        AddSubCancel(track, full);
      }
    }
    Ok(Sub(full, track))
  }

  /** `_correct_with_bias_maps` */
  function BiasMapsStep(s: Settings, lepton: string, row: Record, track: Vec4, brem: Vec4): (r: Result<Step>)
    ensures r.Ok? ==> r.value.row == row
    ensures r.Ok? ==> (r.value.status == 1 <==> !s.skip && HasBrem(row, lepton))
    ensures r.Ok? ==> r.value.status in {-1, 1}
    ensures r.Ok? && r.value.status == -1 ==> r.value.electron == Some(Add(track, brem))
    ensures r.Ok? && r.value.status == 1 ==>
              Col(lepton, "BREMHYPOROW") in row && Col(lepton, "BREMHYPOCOL") in row && Col(lepton, "BREMHYPOAREA") in row
    ensures r.Ok? && r.value.status == 1 ==>
              r.value.electron == Some(Add(track, s.services.bremBias(brem,
                row[Col(lepton, "BREMHYPOROW")], row[Col(lepton, "BREMHYPOCOL")], row[Col(lepton, "BREMHYPOAREA")])))
    ensures s.skip ==> r.Ok?
    ensures !s.skip && Col(lepton, "HASBREMADDED") !in row ==> r.Err?
    ensures r.Err? ==> InputError(r.error)
  {
    if s.skip then Ok(Step(-1, Some(Add(track, brem)), row))
    else
      var has :- GetAttr(row, Col(lepton, "HASBREMADDED"));
      if !Truthy(has) then Ok(Step(-1, Some(Add(track, brem)), row))
      else
        var bremRow :- GetAttr(row, Col(lepton, "BREMHYPOROW"));
        var bremCol :- GetAttr(row, Col(lepton, "BREMHYPOCOL"));
        var bremArea :- GetAttr(row, Col(lepton, "BREMHYPOAREA"));
        Ok(Step(1, Some(Add(track, s.services.bremBias(brem, bremRow, bremCol, bremArea))), row))
  }

  /** The unit massless vector along the track's direction. */
  function UnitAlong(geo: Geometry, track: Vec4): Vec4 {
    geo.unitPhoton(geo.eta(track.P3()), geo.phi(track.P3()))
  }

  /** The photon of `_correct_with_track_brem_1`: the unit massless vector along
      the track, scaled so that its energy is the track-based brem energy. */
  function SyntheticPhoton(geo: Geometry, track: Vec4, energy: Value): (r: Result<Vec4>)
    ensures r.Err? <==> UnitAlong(geo, track).e == Num(0.0)
    ensures r.Ok? ==> exists k :: r.value == Scale(k, UnitAlong(geo, track))
    ensures r.Ok? && energy.Num? && UnitAlong(geo, track).e.Num? ==> r.value.e == energy
    ensures r.Err? ==> r.error == ZeroDivisionError
  {
    var gamma := UnitAlong(geo, track);
    var factor :- Divide(energy, gamma.e);
    var photon := Vec4(Times(factor, gamma.px), Times(factor, gamma.py), Times(factor, gamma.pz), Times(factor, gamma.e));
    assert photon == Scale(factor, gamma);
    Ok(photon)
  }

  /** `_correct_with_track_brem_1` */
  function TrackBrem1Step(s: Settings, lepton: string, row: Record, track: Vec4): (r: Result<Step>)
    ensures r.Ok? ==> r.value.row == row
    ensures s.skip ==> r == Ok(Step(-1, None, row))
    ensures !s.skip ==> (r.Ok? ==> Col(lepton, "BREMTRACKBASEDENERGY") in row)
    ensures !s.skip && BelowThreshold(row, lepton, s.threshold) ==> r == Ok(Step(0, Some(track), row))
    ensures !s.skip && Col(lepton, "BREMTRACKBASEDENERGY") in row && !BelowThreshold(row, lepton, s.threshold) ==>
              var photon := SyntheticPhoton(s.services.geo, track, row[Col(lepton, "BREMTRACKBASEDENERGY")]);
              (r.Ok? <==> photon.Ok?) && (r.Ok? ==> r.value == Step(1, Some(Add(track, photon.value)), row))
    ensures r.Err? ==> InputError(r.error)
  {
    if s.skip then Ok(Step(-1, None, row))
    else
      var energy :- GetAttr(row, Col(lepton, "BREMTRACKBASEDENERGY"));
      if Less(energy, Num(s.threshold)) then Ok(Step(0, Some(track), row))
      else
        var photon :- SyntheticPhoton(s.services.geo, track, energy);
        Ok(Step(1, Some(Add(track, photon)), row))
  }

  datatype Scaled = Scaled(electron: Option<Vec4>, row: Record)

  /** `_scale_electron`: copy both brem flags into `L1_brem`/`L2_brem`, build the
      features for this lepton and run the regressor. */
  function ScaleElectron(s: Settings, lepton: string, e: Option<Vec4>, row: Record): (r: Result<Scaled>)
    ensures !s.useCalibration ==> r == Ok(Scaled(e, row))
    ensures s.useCalibration ==> (r.Ok? <==> "L1_HASBREMADDED" in row && "L2_HASBREMADDED" in row)
    ensures s.useCalibration && r.Ok? ==>
              && r.value.row.Keys == row.Keys + {"L1_brem", "L2_brem"}
              && r.value.row["L1_brem"] == row["L1_HASBREMADDED"]
              && r.value.row["L2_brem"] == row["L2_HASBREMADDED"]
              && (forall k | k in row && k !in {"L1_brem", "L2_brem"} :: r.value.row[k] == row[k])
              && r.value.electron == s.services.run(LoadCorrector(s.services), e, s.services.buildFeatures(r.value.row, lepton))
    ensures r.Err? ==> InputError(r.error)
  {
    if !s.useCalibration then Ok(Scaled(e, row))
    else
      var l1 :- GetItem(row, "L1_HASBREMADDED");
      var row1 := row["L1_brem" := l1];
      var l2 :- GetItem(row1, "L2_HASBREMADDED");
      var row2 := row1["L2_brem" := l2];
      var features := s.services.buildFeatures(row2, lepton);
      Ok(Scaled(s.services.run(LoadCorrector(s.services), e, features), row2))
  }

  /** `_correct_with_track_brem_2` */
  function TrackBrem2Step(s: Settings, lepton: string, row: Record, track: Vec4): (r: Result<Step>)
    ensures r.Ok? ==> r.value.status in {-1, 1}
    ensures r.Ok? ==> (r.value.status == 1 <==> !s.skip && !HasBrem(row, lepton) && !BelowThreshold(row, lepton, s.threshold))
    ensures r.Ok? ==> row.Keys <= r.value.row.Keys <= row.Keys + CalibrationColumns(s)
    ensures r.Ok? ==> forall k | k in row && k !in CalibrationColumns(s) :: r.value.row[k] == row[k]
    ensures r.Ok? && HasBrem(row, lepton) ==>
              var full := Electron(row, lepton, "", s.services.geo);
              full.Ok? && ScaleElectron(s, lepton, Some(full.value), row) == Ok(Scaled(r.value.electron, r.value.row))
    ensures r.Ok? && !HasBrem(row, lepton) && BelowThreshold(row, lepton, s.threshold) ==>
              r.value == Step(-1, None, row)
    ensures r.Ok? && !HasBrem(row, lepton) && !BelowThreshold(row, lepton, s.threshold) ==>
              var step := TrackBrem1Step(s, lepton, row, track);
              step.Ok? && ScaleElectron(s, lepton, step.value.electron, row) == Ok(Scaled(r.value.electron, r.value.row))
    ensures r.Ok? && !s.skip && RunKeepsElectrons(s.services) ==> (r.value.electron.None? <==> BelowThreshold(row, lepton, s.threshold) && !HasBrem(row, lepton))
    ensures r.Err? ==> InputError(r.error)
  {
    var has :- GetAttr(row, Col(lepton, "HASBREMADDED"));
    if Truthy(has) then
      var full :- Electron(row, lepton, "", s.services.geo);
      var scaled :- ScaleElectron(s, lepton, Some(full), row);
      Ok(Step(-1, scaled.electron, scaled.row))
    else
      var energy :- GetAttr(row, Col(lepton, "BREMTRACKBASEDENERGY"));
      if Less(energy, Num(s.threshold)) then Ok(Step(-1, None, row))
      else
        var step :- TrackBrem1Step(s, lepton, row, track);
        var scaled :- ScaleElectron(s, lepton, step.electron, step.row);
        Ok(Step(step.status, scaled.electron, scaled.row))
  }

  /** Brem status each strategy settles on, as the class documentation lays
      it out: an independent table for `Dispatch` to agree with. */
  function ReferenceStatus(kind: string, skip: bool, hasBrem: bool, below: bool): int {
    match kind
    case "ecalo_bias" =>
      if skip then -1        // correction switched off
      else if !hasBrem then -1  // no brem, nothing to correct
      else 1
    case "brem_track_1" =>
      if skip then -1
      else if below then 0   // track-based energy too small: no brem
      else 1
    case _ =>
      if hasBrem then -1     // brem already there: keep it, only rescale
      else if below then -1  // too small to be brem: leave the electron alone
      else if skip then -1
      else 1
  }

  predicate IsKind(kind: string) {
    kind == ECALO_BIAS || kind == BREM_TRACK_1 || kind == BREM_TRACK_2
  }

  /** The if/elif chain of `correct` that picks the strategy. */
  function Dispatch(s: Settings, lepton: string, row: Record, kind: string, track: Vec4): (r: Result<Step>)
    ensures !IsKind(kind) ==> r == Err(NotImplementedError("Invalid correction of type: " + kind))
    ensures r.Ok? ==> r.value.status == ReferenceStatus(kind, s.skip, HasBrem(row, lepton), BelowThreshold(row, lepton, s.threshold))
    ensures r.Ok? ==> row.Keys <= r.value.row.Keys <= row.Keys + CalibrationColumns(s)
    ensures r.Ok? ==> forall k | k in row && k !in CalibrationColumns(s) :: r.value.row[k] == row[k]
    ensures r.Ok? && kind != BREM_TRACK_2 ==> r.value.row == row
    ensures r.Ok? && r.value.status != -1 && (kind != BREM_TRACK_2 || RunKeepsElectrons(s.services)) ==>
              r.value.electron.Some?
    ensures r.Err? ==> InputError(r.error) || r.error == NotImplementedError("Invalid correction of type: " + kind)
  {
    if kind == ECALO_BIAS then
      var brem :- BremPhoton(row, lepton, track, s.services.geo);
      BiasMapsStep(s, lepton, row, track, brem)
    else if kind == BREM_TRACK_1 then
      TrackBrem1Step(s, lepton, row, track)
    else if kind == BREM_TRACK_2 then
      TrackBrem2Step(s, lepton, row, track)
    else
      Err(NotImplementedError("Invalid correction of type: " + kind))
  }

  /** `_update_brem`: write the status into the flag column, only for 0 and 1. */
  function WriteBrem(row: Record, lepton: string, status: Option<int>): (r: Result<Record>)
    ensures status == Some(-1) ==> r == Ok(row)
    ensures status !in {Some(-1), Some(0), Some(1)} ==> r == Err(ValueError(INVALID_BREM_STATUS))
    ensures status in {Some(0), Some(1)} ==>
              (r.Ok? <==> Col(lepton, "HASBREMADDED") in row)
              && (r.Ok? ==> r.value == row[Col(lepton, "HASBREMADDED") := Num(status.value as real)])
              && (r.Err? ==> r.error == KeyError(Col(lepton, "HASBREMADDED")))
  {
    if status == Some(-1) then Ok(row)
    else if status != Some(0) && status != Some(1) then Err(ValueError(INVALID_BREM_STATUS))
    else LocSet(row, [Col(lepton, "HASBREMADDED")], [Num(status.value as real)])
  }

  /** The two `.loc` writes of `_update_row`: the momentum, then pt/eta/phi. */
  function WriteKinematics(row: Record, lepton: string, v: Vec4, geo: Geometry): (r: Result<Record>)
    ensures r.Ok? <==> KinematicColumns(lepton) <= row.Keys
    ensures r.Ok? ==> r.value.Keys == row.Keys
    ensures r.Ok? ==> forall k | k in row && k !in KinematicColumns(lepton) :: r.value[k] == row[k]
    ensures r.Ok? ==>
              && r.value[Col(lepton, "PX")] == v.px
              && r.value[Col(lepton, "PY")] == v.py
              && r.value[Col(lepton, "PZ")] == v.pz
              && r.value[Col(lepton, "PT")] == geo.pt(v.P3())
              && r.value[Col(lepton, "ETA")] == geo.eta(v.P3())
              && r.value[Col(lepton, "PHI")] == geo.phi(v.P3())
    ensures r.Err? ==> r.error.KeyError?
  {
    var px, py, pz := Col(lepton, "PX"), Col(lepton, "PY"), Col(lepton, "PZ");
    var pt, eta, phi := Col(lepton, "PT"), Col(lepton, "ETA"), Col(lepton, "PHI");
    ColInjective(lepton, "PX", "PY"); ColInjective(lepton, "PY", "PZ"); ColInjective(lepton, "PX", "PZ");
    ColInjective(lepton, "PT", "ETA"); ColInjective(lepton, "ETA", "PHI"); ColInjective(lepton, "PT", "PHI");
    var moved :- Loc3(row, px, py, pz, v.px, v.py, v.pz);
    ColInjective(lepton, "PX", "PT"); ColInjective(lepton, "PX", "ETA"); ColInjective(lepton, "PX", "PHI");
    ColInjective(lepton, "PY", "PT"); ColInjective(lepton, "PY", "ETA"); ColInjective(lepton, "PY", "PHI");
    ColInjective(lepton, "PZ", "PT"); ColInjective(lepton, "PZ", "ETA"); ColInjective(lepton, "PZ", "PHI");
    Loc3(moved, pt, eta, phi, geo.pt(v.P3()), geo.eta(v.P3()), geo.phi(v.P3()))
  }

  /** `_update_row`: nothing when there is no corrected electron; otherwise
      the kinematics, then the brem flag. */
  function UpdateRow(row: Record, lepton: string, status: Option<int>, e: Option<Vec4>, geo: Geometry): (r: Result<Record>)
    ensures e.None? ==> r == Ok(row)
    ensures e.Some? && status in {Some(-1), Some(0), Some(1)} ==>
              (r.Ok? <==> KinematicColumns(lepton) <= row.Keys && (status != Some(-1) ==> Col(lepton, "HASBREMADDED") in row))
    ensures r.Ok? ==> r.value.Keys == row.Keys
    ensures r.Ok? ==> forall k | k in row && k !in KinematicColumns(lepton) + {Col(lepton, "HASBREMADDED")} :: r.value[k] == row[k]
    ensures r.Ok? && e.Some? ==>
              && KinematicColumns(lepton) <= row.Keys
              && r.value[Col(lepton, "PX")] == e.value.px
              && r.value[Col(lepton, "PY")] == e.value.py
              && r.value[Col(lepton, "PZ")] == e.value.pz
              && r.value[Col(lepton, "PT")] == geo.pt(e.value.P3())
              && r.value[Col(lepton, "ETA")] == geo.eta(e.value.P3())
              && r.value[Col(lepton, "PHI")] == geo.phi(e.value.P3())
    ensures r.Ok? && e.Some? ==> status in {Some(-1), Some(0), Some(1)}
    ensures r.Err? && status in {Some(-1), Some(0), Some(1)} ==> r.error.KeyError?
    ensures r.Ok? && e.Some? ==> Flag(r.value, lepton) == if status == Some(-1) then Flag(row, lepton) else Some(Num(status.value as real))
  {
    if e.None? then Ok(row)
    else
      var kinematics :- WriteKinematics(row, lepton, e.value, geo);
      ColInjective(lepton, "HASBREMADDED", "PX"); ColInjective(lepton, "HASBREMADDED", "PY");
      ColInjective(lepton, "HASBREMADDED", "PZ"); ColInjective(lepton, "HASBREMADDED", "PT");
      ColInjective(lepton, "HASBREMADDED", "ETA"); ColInjective(lepton, "HASBREMADDED", "PHI");
      assert Col(lepton, "HASBREMADDED") !in KinematicColumns(lepton);
      WriteBrem(kinematics, lepton, status)
  }

  /** `correct(row, name, kind)`: the row the engine leaves behind. */
  function Corrected(s: Settings, row: Record, lepton: string, kind: string): (r: Result<Record>)
    // an unknown strategy is an error, never a silent default
    ensures !IsKind(kind) ==> r.Err?
    ensures !IsKind(kind) && Electron(row, lepton, "TRACK_", s.services.geo).Ok? ==>
              r == Err(NotImplementedError("Invalid correction of type: " + kind))
    // the status checks never fire: every strategy leaves a legal status, so
    // the only exceptions are a bad input row and an unknown strategy
    ensures r.Err? ==> InputError(r.error) || r.error == NotImplementedError("Invalid correction of type: " + kind)
    // nothing outside the lepton's kinematics, its flag and the calibration columns changes
    ensures r.Ok? ==> row.Keys <= r.value.Keys <= row.Keys + CalibrationColumns(s)
    ensures r.Ok? ==> forall k | k in row && k !in Touched(s, lepton) :: r.value[k] == row[k]
    // the flag is written exactly when the status is 0 or 1
    ensures r.Ok? && (kind != BREM_TRACK_2 || RunKeepsElectrons(s.services)) ==>
              var status := ReferenceStatus(kind, s.skip, HasBrem(row, lepton), BelowThreshold(row, lepton, s.threshold));
              Flag(r.value, lepton) == if status == -1 then Flag(row, lepton) else Some(Num(status as real))
  {
    var track :- Electron(row, lepton, "TRACK_", s.services.geo);
    var step :- Dispatch(s, lepton, row, kind, track);
    if step.status !in {-1, 0, 1} then Err(ValueError(STATUS_INVALID))
    else
      NotCalibrationColumn(lepton, "HASBREMADDED");
      var r := UpdateRow(step.row, lepton, Some(step.status), step.electron, s.services.geo);
      assert Flag(step.row, lepton) == Flag(row, lepton);
      r
  }
}
