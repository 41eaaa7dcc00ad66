/**
  `ElectronBiasCorrector`: the object that corrects one lepton of a
  candidate row in place.  `correct` records the lepton's name and resets
  the brem status, each strategy method sets the status, `_get_corrector`
  fills its cache on first use, and the row-writing methods overwrite
  columns of the shared row.  Every method is proved to agree with the
  functions of ElectronBiasSpec.
*/
module ElectronBias {
  import opened PyBase
  import opened Vectors
  import opened ElectronBiasSpec

  class ElectronBiasCorrector {
    const skipCorrection: bool
    const mass: real
    const minBremEnergy: real
    const services: Services
    /** Turns the calibration regressor on or off; on after construction. */
    var useEcalCalibration: bool
    /** Lepton being corrected, "L1" or "L2"; set by `Correct`. */
    var name: string
    /** Brem status set by the last strategy; None until one has run. */
    var bremStatus: Option<int>
    /** Cached regressor; None until first needed. */
    var corrector: Option<Corrector>
    /** Number of times the calibration configuration has been read. */
    ghost var loads: nat

    ghost predicate Valid()
      reads this
    {
      && mass == ELECTRON_MASS
      && loads <= 1
      && (corrector.Some? <==> loads == 1)
      && (corrector.Some? ==> corrector.value == LoadCorrector(services))
    }

    function Config(): Settings
      reads this
    {
      Settings(skipCorrection, minBremEnergy, useEcalCalibration, services)
    }

    /** `ElectronBiasCorrector(skip_correction, brem_energy_threshold)`; the
        threshold's default is DEFAULT_BREM_ENERGY_THRESHOLD. */
    constructor (skipCorrection: bool, bremEnergyThreshold: real, services: Services)
      ensures Valid()
      ensures this.skipCorrection == skipCorrection && minBremEnergy == bremEnergyThreshold
      ensures this.services == services
      ensures useEcalCalibration && bremStatus.None? && corrector.None? && loads == 0
    {
      this.skipCorrection := skipCorrection;
      mass := ELECTRON_MASS;
      minBremEnergy := bremEnergyThreshold;
      this.services := services;
      useEcalCalibration := true;
      name := "";
      bremStatus := None;
      corrector := None;
      loads := 0;
    }

    /** `_attr_from_row`: a missing column is a ValueError. */
    method AttrFromRow(row: Series, key: string) returns (r: Result<Value>)
      ensures r.Ok? <==> key in row.data
      ensures r.Ok? ==> r.value == row.data[key]
      ensures r.Err? ==> r.error == ValueError("Cannot find attribute " + key + " among:")
    {
      if key in row.data {
        return Ok(row.data[key]);
      }
      return Err(ValueError("Cannot find attribute " + key + " among:"));
    }

    /** `_get_electron` */
    method GetElectron(row: Series, kind: string) returns (r: Result<Vec4>)
      requires Valid()
      ensures r == Electron(row.data, name, kind, services.geo)
    {
      var px :- AttrFromRow(row, Col(name, kind + "PX"));
      var py :- AttrFromRow(row, Col(name, kind + "PY"));
      var pz :- AttrFromRow(row, Col(name, kind + "PZ"));
      r := Ok(FromMomentum(services.geo, Vec3(px, py, pz), mass));
    }

    /** `_get_ebrem` */
    method GetEbrem(row: Series, track: Vec4) returns (r: Result<Vec4>)
      requires Valid()
      ensures r == BremPhoton(row.data, name, track, services.geo)
    {
      var full :- GetElectron(row, "");
      r := Ok(Sub(full, track));
    }

    /** `_get_corrector`: the configuration is read on the first call only. */
    method GetCorrector() returns (c: Corrector)
      requires Valid()
      modifies this`corrector, this`loads
      ensures Valid()
      ensures c == LoadCorrector(services) && corrector == Some(c)
      ensures loads == 1
      ensures old(corrector).Some? ==> corrector == old(corrector) && loads == old(loads)
    {
      if corrector.Some? {
        return corrector.value;
      }
      var config := services.loadConfig(CALIBRATION_CONFIG);
      c := Corrector(config);
      corrector := Some(c);
      loads := loads + 1;
    }

    /** `_scale_electron(e, row, lepton)` */
    method ScaleElectron(e: Option<Vec4>, row: Series, lepton: string) returns (r: Result<Option<Vec4>>)
      requires Valid()
      modifies row, this`corrector, this`loads
      ensures Valid()
      ensures var scaled := ElectronBiasSpec.ScaleElectron(Config(), lepton, e, old(row.data));
              && (r.Ok? <==> scaled.Ok?)
              && (scaled.Ok? ==> r.value == scaled.value.electron && row.data == scaled.value.row)
              && (scaled.Err? ==> r == Err(scaled.error))
      ensures !useEcalCalibration ==> row.data == old(row.data) && corrector == old(corrector)
      ensures old(corrector).Some? ==> corrector == old(corrector) && loads == old(loads)
    {
      if !useEcalCalibration {
        return Ok(e);
      }
      var l1 :- GetItem(row.data, "L1_HASBREMADDED");
      row.data := row.data["L1_brem" := l1];
      var l2 :- GetItem(row.data, "L2_HASBREMADDED");
      row.data := row.data["L2_brem" := l2];
      var features := services.buildFeatures(row.data, lepton);
      var regressor := GetCorrector();
      r := Ok(services.run(regressor, e, features));
    }

    /** `_correct_with_bias_maps` */
    method CorrectWithBiasMaps(track: Vec4, brem: Vec4, row: Series) returns (r: Result<Option<Vec4>>)
      modifies this`bremStatus
      ensures var step := BiasMapsStep(Config(), name, row.data, track, brem);
              && (r.Ok? <==> step.Ok?)
              && (step.Ok? ==> r.value == step.value.electron && bremStatus == Some(step.value.status))
              && (step.Err? ==> r == Err(step.error))
    {
      if skipCorrection {
        bremStatus := Some(-1);
        return Ok(Some(Add(track, brem)));
      }
      var has :- AttrFromRow(row, Col(name, "HASBREMADDED"));
      if !Truthy(has) {
        bremStatus := Some(-1);
        return Ok(Some(Add(track, brem)));
      }
      var bremRow :- AttrFromRow(row, Col(name, "BREMHYPOROW"));
      var bremCol :- AttrFromRow(row, Col(name, "BREMHYPOCOL"));
      var bremArea :- AttrFromRow(row, Col(name, "BREMHYPOAREA"));
      var corrected := services.bremBias(brem, bremRow, bremCol, bremArea);
      bremStatus := Some(1);
      r := Ok(Some(Add(track, corrected)));
    }

    /** `_correct_with_track_brem_1` */
    method CorrectWithTrackBrem1(track: Vec4, row: Series) returns (r: Result<Option<Vec4>>)
      modifies this`bremStatus
      ensures var step := TrackBrem1Step(Config(), name, row.data, track);
              && (r.Ok? <==> step.Ok?)
              && (step.Ok? ==> r.value == step.value.electron && bremStatus == Some(step.value.status))
              && (step.Err? ==> r == Err(step.error))
    {
      if skipCorrection {
        bremStatus := Some(-1);
        return Ok(None);
      }
      var energy :- AttrFromRow(row, Col(name, "BREMTRACKBASEDENERGY"));
      if Less(energy, Num(minBremEnergy)) {
        bremStatus := Some(0);
        return Ok(Some(track));
      }
      var geo := services.geo;
      var gamma := geo.unitPhoton(geo.eta(track.P3()), geo.phi(track.P3()));
      var factor :- Divide(energy, gamma.e);
      var px := Times(factor, gamma.px);
      var py := Times(factor, gamma.py);
      var pz := Times(factor, gamma.pz);
      var e := Times(factor, gamma.e);
      gamma := Vec4(px, py, pz, e);
      bremStatus := Some(1);
      r := Ok(Some(Add(track, gamma)));
    }

    /** `_correct_with_track_brem_2` */
    method CorrectWithTrackBrem2(track: Vec4, row: Series, lepton: string) returns (r: Result<Option<Vec4>>)
      requires Valid()
      requires lepton == name
      modifies this`bremStatus, this`corrector, this`loads, row
      ensures Valid()
      ensures var step := TrackBrem2Step(Config(), name, old(row.data), track);
              && (r.Ok? <==> step.Ok?)
              && (step.Ok? ==> r.value == step.value.electron && bremStatus == Some(step.value.status) && row.data == step.value.row)
              && (step.Err? ==> r == Err(step.error))
      ensures old(corrector).Some? ==> corrector == old(corrector) && loads == old(loads)
    {
      var has :- AttrFromRow(row, Col(name, "HASBREMADDED"));
      if Truthy(has) {
        bremStatus := Some(-1);
        var full :- GetElectron(row, "");
        r := ScaleElectron(Some(full), row, lepton);
        return;
      }
      var energy :- AttrFromRow(row, Col(name, "BREMTRACKBASEDENERGY"));
      if Less(energy, Num(minBremEnergy)) {
        bremStatus := Some(-1);
        return Ok(None);
      }
      var e :- CorrectWithTrackBrem1(track, row);
      r := ScaleElectron(e, row, lepton);
    }

    /** `_update_brem` */
    method UpdateBrem(row: Series) returns (r: Result<()>)
      modifies row
      ensures var written := WriteBrem(old(row.data), name, bremStatus);
              && (r.Ok? <==> written.Ok?)
              && (written.Ok? ==> row.data == written.value)
              && (written.Err? ==> r == Err(written.error) && row.data == old(row.data))
    {
      if bremStatus == Some(-1) {
        return Ok(());
      }
      if bremStatus != Some(0) && bremStatus != Some(1) {
        return Err(ValueError(INVALID_BREM_STATUS));
      }
      var written :- LocSet(row.data, [Col(name, "HASBREMADDED")], [Num(bremStatus.value as real)]);
      row.data := written;
      r := Ok(());
    }

    /** `_update_row` */
    method UpdateRow(row: Series, e: Option<Vec4>) returns (r: Result<()>)
      modifies row
      ensures var updated := ElectronBiasSpec.UpdateRow(old(row.data), name, bremStatus, e, services.geo);
              && (r.Ok? <==> updated.Ok?)
              && (updated.Ok? ==> row.data == updated.value)
              && (updated.Err? ==> r == Err(updated.error))
    {
      if e.None? {
        return Ok(());
      }
      var v := e.value;
      var geo := services.geo;
      ColInjective(name, "PX", "PY"); ColInjective(name, "PY", "PZ"); ColInjective(name, "PX", "PZ");
      ColInjective(name, "PT", "ETA"); ColInjective(name, "ETA", "PHI"); ColInjective(name, "PT", "PHI");
      var moved :- Loc3(row.data, Col(name, "PX"), Col(name, "PY"), Col(name, "PZ"), v.px, v.py, v.pz);
      row.data := moved;
      var angles :- Loc3(row.data, Col(name, "PT"), Col(name, "ETA"), Col(name, "PHI"),
                         geo.pt(v.P3()), geo.eta(v.P3()), geo.phi(v.P3()));
      row.data := angles;
      r := UpdateBrem(row);
    }

    /** The strategy branch of `correct`: runs the method `kind` names. */
    method Strategy(row: Series, track: Vec4, kind: string) returns (r: Result<Option<Vec4>>)
      requires Valid()
      modifies this`bremStatus, this`corrector, this`loads, row
      ensures Valid()
      ensures var step := Dispatch(Config(), name, old(row.data), kind, track);
              && (r.Ok? <==> step.Ok?)
              && (step.Ok? ==> r.value == step.value.electron && bremStatus == Some(step.value.status) && row.data == step.value.row)
              && (step.Err? ==> r == Err(step.error))
      ensures old(corrector).Some? ==> corrector == old(corrector) && loads == old(loads)
    {
      if kind == ECALO_BIAS {
        var brem :- GetEbrem(row, track);
        r := CorrectWithBiasMaps(track, brem, row);
      } else if kind == BREM_TRACK_1 {
        r := CorrectWithTrackBrem1(track, row);
      } else if kind == BREM_TRACK_2 {
        r := CorrectWithTrackBrem2(track, row, name);
      } else {
        r := Err(NotImplementedError("Invalid correction of type: " + kind));
      }
    }

    /** `correct(row, name, kind)`: corrects lepton `lepton` of `row` in place. */
    method Correct(row: Series, lepton: string, kind: string) returns (r: Result<()>)
      requires Valid()
      modifies this, row
      ensures Valid()
      ensures Config() == old(Config())
      ensures name == lepton
      ensures var expected := Corrected(old(Config()), old(row.data), lepton, kind);
              && (r.Ok? <==> expected.Ok?)
              && (expected.Ok? ==> row.data == expected.value)
              && (expected.Err? ==> r == Err(expected.error))
      ensures old(corrector).Some? ==> corrector == old(corrector) && loads == old(loads)
    {
      name := lepton;
      bremStatus := None;
      var track :- GetElectron(row, "TRACK_");
      var e :- Strategy(row, track, kind);
      if bremStatus != Some(-1) && bremStatus != Some(0) && bremStatus != Some(1) {
        return Err(ValueError(STATUS_INVALID));
      }
      r := UpdateRow(row, e);
    }
  }
}
