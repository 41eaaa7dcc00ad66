/**
  What `ElectronBiasCorrector.correct` does to a row, strategy by strategy,
  stated about the functions of ElectronBiasSpec (which the class methods
  are proved to follow).
*/
module ElectronBiasProperties {
  import opened PyBase
  import opened Vectors
  import opened ElectronBiasSpec

  /** The momentum in the lepton's PX/PY/PZ columns, which `correct` writes. */
  function Written(row: Record, lepton: string): Option<Vec3> {
    if Col(lepton, "PX") in row && Col(lepton, "PY") in row && Col(lepton, "PZ") in row then
      Some(Vec3(row[Col(lepton, "PX")], row[Col(lepton, "PY")], row[Col(lepton, "PZ")]))
    else None
  }

  /** The track momentum, from the TRACK_PX/PY/PZ columns. */
  function TrackMomentum(row: Record, lepton: string): Option<Vec3> {
    if Col(lepton, "TRACK_PX") in row && Col(lepton, "TRACK_PY") in row && Col(lepton, "TRACK_PZ") in row then
      Some(Vec3(row[Col(lepton, "TRACK_PX")], row[Col(lepton, "TRACK_PY")], row[Col(lepton, "TRACK_PZ")]))
    else None
  }

  lemma TrackElectron(row: Record, lepton: string, geo: Geometry)
    ensures var e := Electron(row, lepton, "TRACK_", geo);
            (e.Ok? <==> TrackMomentum(row, lepton).Some?) && (e.Ok? ==> e.value.P3() == TrackMomentum(row, lepton).value)
  {
    assert "TRACK_" + "PX" == "TRACK_PX" && "TRACK_" + "PY" == "TRACK_PY" && "TRACK_" + "PZ" == "TRACK_PZ";
  }

  lemma FullElectron(row: Record, lepton: string, geo: Geometry)
    ensures var e := Electron(row, lepton, "", geo);
            (e.Ok? <==> Written(row, lepton).Some?) && (e.Ok? ==> e.value.P3() == Written(row, lepton).value)
  {
    assert "" + "PX" == "PX" && "" + "PY" == "PY" && "" + "PZ" == "PZ";
  }

  /** `brem_track_1` below the threshold: status 0, the row gets the track's
      momentum and the flag 0. */
  lemma TrackBrem1BelowThreshold(s: Settings, row: Record, lepton: string)
    requires !s.skip && BelowThreshold(row, lepton, s.threshold)
    requires TrackMomentum(row, lepton).Some?
    requires KinematicColumns(lepton) <= row.Keys && Col(lepton, "HASBREMADDED") in row
    ensures var r := Corrected(s, row, lepton, BREM_TRACK_1);
            && r.Ok?
            && Written(r.value, lepton) == TrackMomentum(row, lepton)
            && Flag(r.value, lepton) == Some(Num(0.0))
  {
    var geo := s.services.geo;
    TrackElectron(row, lepton, geo);
    var track := Electron(row, lepton, "TRACK_", geo).value;
    assert Dispatch(s, lepton, row, BREM_TRACK_1, track) == Ok(Step(0, Some(track), row));
    var r := UpdateRow(row, lepton, Some(0), Some(track), geo);
    assert Corrected(s, row, lepton, BREM_TRACK_1) == r;
    assert Written(r.value, lepton) == Some(track.P3());
  }

  /** `brem_track_1` at or above the threshold (the comparison is a strict
      `<`): status 1 and the track plus the synthetic photon. */
  lemma TrackBrem1AboveThreshold(s: Settings, row: Record, lepton: string)
    requires !s.skip && Col(lepton, "BREMTRACKBASEDENERGY") in row && !BelowThreshold(row, lepton, s.threshold)
    requires Electron(row, lepton, "TRACK_", s.services.geo).Ok?
    ensures var track := Electron(row, lepton, "TRACK_", s.services.geo).value;
            var photon := SyntheticPhoton(s.services.geo, track, row[Col(lepton, "BREMTRACKBASEDENERGY")]);
            && (photon.Ok? ==> Dispatch(s, lepton, row, BREM_TRACK_1, track) == Ok(Step(1, Some(Add(track, photon.value)), row)))
            && (photon.Err? ==> Dispatch(s, lepton, row, BREM_TRACK_1, track) == Err(ZeroDivisionError))
  {
  }

  /** The geometric facts the synthetic photon relies on: the unit photon
      built from (eta, phi) has that eta and phi, and a positive rescaling
      keeps a vector's direction. */
  ghost predicate DirectionLaws(geo: Geometry) {
    && (forall eta, phi :: geo.eta(geo.unitPhoton(eta, phi).P3()) == eta && geo.phi(geo.unitPhoton(eta, phi).P3()) == phi)
    && (forall k: real, v: Vec4 | k > 0.0 :: geo.eta(Scale(Num(k), v).P3()) == geo.eta(v.P3()) && geo.phi(Scale(Num(k), v).P3()) == geo.phi(v.P3()))
  }

  /** The photon of `brem_track_1` is colinear with the track and carries the
      track-based brem energy. */
  lemma PhotonAlongTrack(geo: Geometry, track: Vec4, energy: Value)
    requires DirectionLaws(geo)
    requires energy.Num? && energy.x > 0.0
    requires UnitAlong(geo, track).e.Num? && UnitAlong(geo, track).e.x > 0.0
    ensures var photon := SyntheticPhoton(geo, track, energy);
            && photon.Ok?
            && geo.eta(photon.value.P3()) == geo.eta(track.P3())
            && geo.phi(photon.value.P3()) == geo.phi(track.P3())
            && photon.value.e == energy
  {
    var gamma := UnitAlong(geo, track);
    var k := energy.x / gamma.e.x;
    assert SyntheticPhoton(geo, track, energy).value == Scale(Num(k), gamma);
    assert geo.eta(Scale(Num(k), gamma).P3()) == geo.eta(gamma.P3());
    assert geo.phi(Scale(Num(k), gamma).P3()) == geo.phi(gamma.P3());
  }

  /** `brem_track_2` on an electron that already has brem: status -1, so the
      flag is left alone; the full electron is only rescaled, and with the
      calibration off the row keeps its own momentum. */
  lemma TrackBrem2WithBrem(s: Settings, row: Record, lepton: string)
    requires HasBrem(row, lepton)
    ensures var r := Corrected(s, row, lepton, BREM_TRACK_2);
            && (r.Ok? ==> Flag(r.value, lepton) == Flag(row, lepton))
            && (r.Ok? && !s.useCalibration ==> Written(r.value, lepton) == Written(row, lepton))
  {
    var geo := s.services.geo;
    var r := Corrected(s, row, lepton, BREM_TRACK_2);
    var t := Electron(row, lepton, "TRACK_", geo);
    if r.Ok? {
      assert t.Ok?;
      var d := Dispatch(s, lepton, row, BREM_TRACK_2, t.value);
      assert d.Ok?;
      var step := d.value;
      assert step.status == -1;
      assert r == UpdateRow(step.row, lepton, Some(-1), step.electron, geo);
      NotCalibrationColumn(lepton, "HASBREMADDED");
      assert Flag(step.row, lepton) == Flag(row, lepton);
      if !s.useCalibration {
        var full := Electron(row, lepton, "", geo);
        assert full.Ok? && step == Step(-1, Some(full.value), row);
        FullElectron(row, lepton, geo);
        assert Written(r.value, lepton) == Some(full.value.P3());
      }
    }
  }

  /** `brem_track_2` without brem and below the threshold: no electron, so the
      row comes back exactly as it was. */
  lemma TrackBrem2BelowThreshold(s: Settings, row: Record, lepton: string)
    requires !HasBrem(row, lepton) && Col(lepton, "HASBREMADDED") in row
    requires BelowThreshold(row, lepton, s.threshold)
    requires Electron(row, lepton, "TRACK_", s.services.geo).Ok?
    ensures Corrected(s, row, lepton, BREM_TRACK_2) == Ok(row)
  {
    var track := Electron(row, lepton, "TRACK_", s.services.geo).value;
    assert Dispatch(s, lepton, row, BREM_TRACK_2, track) == Ok(Step(-1, None, row));
  }

  /** `brem_track_2` without brem and at or above the threshold hands over to
      `brem_track_1`: the flag becomes 1, unless the correction is skipped,
      in which case it is left alone. */
  lemma TrackBrem2Delegates(s: Settings, row: Record, lepton: string)
    requires !HasBrem(row, lepton) && Col(lepton, "BREMTRACKBASEDENERGY") in row
    requires !BelowThreshold(row, lepton, s.threshold)
    requires RunKeepsElectrons(s.services)
    ensures var r := Corrected(s, row, lepton, BREM_TRACK_2);
            r.Ok? ==> Flag(r.value, lepton) == if s.skip then Flag(row, lepton) else Some(Num(1.0))
    // the electron written is brem_track_1's, passed through the calibration
    ensures var r := Corrected(s, row, lepton, BREM_TRACK_2);
            var track := Electron(row, lepton, "TRACK_", s.services.geo);
            r.Ok? ==> track.Ok? &&
                      var step := TrackBrem1Step(s, lepton, row, track.value);
                      step.Ok? &&
                      var scaled := ScaleElectron(s, lepton, step.value.electron, row);
                      scaled.Ok? && (scaled.value.electron.Some? ==> Written(r.value, lepton) == Some(scaled.value.electron.value.P3()))
  {
    var geo := s.services.geo;
    var r := Corrected(s, row, lepton, BREM_TRACK_2);
    var t := Electron(row, lepton, "TRACK_", geo);
    if r.Ok? {
      assert t.Ok?;
      var d := Dispatch(s, lepton, row, BREM_TRACK_2, t.value);
      assert d.Ok?;
      var scaled := ScaleElectron(s, lepton, TrackBrem1Step(s, lepton, row, t.value).value.electron, row);
      assert scaled == Ok(Scaled(d.value.electron, d.value.row));
      assert r == UpdateRow(d.value.row, lepton, Some(d.value.status), d.value.electron, geo);
      if d.value.electron.Some? {
        assert Written(r.value, lepton) == Some(d.value.electron.value.P3());
      }
    }
  }

  /** `ecalo_bias` with the correction skipped: track plus raw brem is the full
      electron again, so the row keeps its own momentum and its flag. */
  lemma EcaloBiasSkipped(s: Settings, row: Record, lepton: string)
    requires s.skip
    requires var t := Electron(row, lepton, "TRACK_", s.services.geo); t.Ok? && Finite(t.value)
    ensures var r := Corrected(s, row, lepton, ECALO_BIAS);
            r.Ok? ==> Written(r.value, lepton) == Written(row, lepton) && Flag(r.value, lepton) == Flag(row, lepton)
  {
    var geo := s.services.geo;
    var r := Corrected(s, row, lepton, ECALO_BIAS);
    var track := Electron(row, lepton, "TRACK_", geo).value;
    if r.Ok? {
      var full := Electron(row, lepton, "", geo);
      assert full.Ok?;
      var brem := BremPhoton(row, lepton, track, geo).value;
      assert Add(track, brem) == full.value;
      var step := Step(-1, Some(full.value), row);
      assert Dispatch(s, lepton, row, ECALO_BIAS, track) == Ok(step);
      assert r == UpdateRow(row, lepton, Some(-1), Some(full.value), geo);
      FullElectron(row, lepton, geo);
      assert Written(r.value, lepton) == Some(full.value.P3());
    }
  }

  /** `ecalo_bias` on an electron with brem, not skipped: status 1 and the
      bias-map-corrected brem added to the track. */
  lemma EcaloBiasApplied(s: Settings, row: Record, lepton: string)
    requires !s.skip && HasBrem(row, lepton)
    requires Col(lepton, "BREMHYPOROW") in row && Col(lepton, "BREMHYPOCOL") in row && Col(lepton, "BREMHYPOAREA") in row
    requires Electron(row, lepton, "TRACK_", s.services.geo).Ok? && Electron(row, lepton, "", s.services.geo).Ok?
    ensures var geo := s.services.geo;
            var track := Electron(row, lepton, "TRACK_", geo).value;
            var brem := Sub(Electron(row, lepton, "", geo).value, track);
            Dispatch(s, lepton, row, ECALO_BIAS, track)
              == Ok(Step(1, Some(Add(track, s.services.bremBias(brem,
                   row[Col(lepton, "BREMHYPOROW")], row[Col(lepton, "BREMHYPOCOL")], row[Col(lepton, "BREMHYPOAREA")]))), row))
  {
  }

  /** Neither status check of `correct` can fire. */
  lemma StatusChecksNeverFire(s: Settings, row: Record, lepton: string, kind: string)
    ensures Corrected(s, row, lepton, kind) != Err(ValueError(STATUS_INVALID))
    ensures Corrected(s, row, lepton, kind) != Err(ValueError(INVALID_BREM_STATUS))
  {
    var r := Corrected(s, row, lepton, kind);
    if r.Err? && !r.error.NotImplementedError? {
      InputErrorIsNotStatusError(r.error);
    }
  }
}
