/**
  `MassBiasCorrector`: corrects both electrons of every candidate (L1, then
  L2) with an ElectronBiasCorrector, then rebuilds the derived variables
  (masses, transverse momenta, smeared masses, DIRA) from the corrected
  row, and finally suffixes and completes the output columns.

  The dataframe is a sequence of records; converting it from and to ROOT is
  not part of the model.
*/
module MassBias {
  import opened PyBase
  import opened Vectors
  import opened Strings
  import opened ElectronBiasSpec
  import opened ElectronBias

  const KAON_MASS: real := 493.6
  /** `brem_energy_threshold` of the event-level corrector when none is given (MeV). */
  const DEFAULT_THRESHOLD: real := 400.0
  /** `ecorr_kind` of the event-level corrector when none is given. */
  const DEFAULT_KIND: string := BREM_TRACK_2

  /** Collaborators of the variable calculation that are not part of the model. */
  datatype Physics = Physics(
    geo: Geometry,
    /** Q2SmearCorrector.get_mass(nbrem, block, jpsi_mass_reco, jpsi_mass_true) */
    getMass: (Value, Value, Value, Value) -> Value)

  /** `_rdf_is_mc`: the first column name ending in `_TRUEID` makes the sample MC. */
  method RdfIsMc(columns: seq<string>) returns (b: bool)
    ensures b <==> exists i | 0 <= i < |columns| :: EndsWith(columns[i], "_TRUEID")
  {
    var i := 0;
    while i < |columns|
      invariant 0 <= i <= |columns|
      invariant forall j | 0 <= j < i :: !EndsWith(columns[j], "_TRUEID")
    {
      if EndsWith(columns[i], "_TRUEID") {
        return true;
      }
      i := i + 1;
    }
    return false;
  }

  /** `-1 if numpy.isnan(m) else float(m)` */
  function Sentinel(m: Value): (r: Value)
    ensures r.Num?
    ensures m.Num? ==> r == m
    ensures m.NaN? ==> r == Num(-1.0)
  {
    if m.NaN? then Num(-1.0) else m
  }

  /** `vector.obj(pt=row.P_PT, phi=row.P_PHI, eta=row.P_ETA, m=mass)` */
  function ParticleVector(row: Record, particle: string, mass: real, geo: Geometry): (r: Result<Vec4>)
    ensures r.Ok? <==> particle + "_PT" in row && particle + "_PHI" in row && particle + "_ETA" in row
    ensures r.Ok? ==> r.value == geo.fromPtEtaPhiM(row[particle + "_PT"], row[particle + "_ETA"], row[particle + "_PHI"], mass)
    ensures r.Err? ==> r.error.AttributeError?
  {
    var pt :- GetField(row, particle + "_PT");
    var phi :- GetField(row, particle + "_PHI");
    var eta :- GetField(row, particle + "_ETA");
    Ok(geo.fromPtEtaPhiM(pt, eta, phi, mass))
  }

  /** J/psi candidate: the sum of the two electrons. */
  function Dilepton(row: Record, geo: Geometry): (r: Result<Vec4>)
    ensures r.Ok? <==> {"L1_PT", "L1_PHI", "L1_ETA", "L2_PT", "L2_PHI", "L2_ETA"} <= row.Keys
    ensures r.Ok? ==> var l1, l2 := ParticleVector(row, "L1", ELECTRON_MASS, geo), ParticleVector(row, "L2", ELECTRON_MASS, geo);
                      l1.Ok? && l2.Ok? && r.value == Add(l1.value, l2.value)
    ensures r.Err? ==> r.error.AttributeError?
  {
    assert "L1" + "_PT" == "L1_PT" && "L1" + "_PHI" == "L1_PHI" && "L1" + "_ETA" == "L1_ETA";
    assert "L2" + "_PT" == "L2_PT" && "L2" + "_PHI" == "L2_PHI" && "L2" + "_ETA" == "L2_ETA";
    var l1 :- ParticleVector(row, "L1", ELECTRON_MASS, geo);
    var l2 :- ParticleVector(row, "L2", ELECTRON_MASS, geo);
    Ok(Add(l1, l2))
  }

  /** The J/psi candidate and the B candidate (the J/psi plus the kaon). */
  function Kinematics(row: Record, geo: Geometry): (r: Result<(Vec4, Vec4)>)
    ensures r.Ok? <==> KINEMATIC_INPUT <= row.Keys
    ensures r.Ok? ==> r.value.0 == Dilepton(row, geo).value
    ensures r.Ok? ==> r.value.1 == Add(r.value.0, geo.fromPtEtaPhiM(row["H_PT"], row["H_ETA"], row["H_PHI"], KAON_MASS))
    ensures r.Err? ==> r.error.AttributeError?
  {
    assert "H" + "_PT" == "H_PT" && "H" + "_PHI" == "H_PHI" && "H" + "_ETA" == "H_ETA";
    var jp :- Dilepton(row, geo);
    var kp :- ParticleVector(row, "H", KAON_MASS, geo);
    Ok((jp, Add(jp, kp)))
  }

  /** `_smear_mass`: the reconstructed mass on data; on MC the smeared mass,
      with the number of brem photons of the corrected row. */
  function SmearMass(isMc: bool, row: Record, particle: string, reco: Value, getMass: (Value, Value, Value, Value) -> Value): (r: Result<Value>)
    ensures !isMc ==> r == Ok(reco)
    ensures isMc ==> (r.Ok? <==> particle + "_TRUEM" in row && "L1_HASBREMADDED" in row && "L2_HASBREMADDED" in row && "block" in row)
    ensures isMc && r.Ok? ==>
              r.value == getMass(Plus(row["L1_HASBREMADDED"], row["L2_HASBREMADDED"]), row["block"], reco, row[particle + "_TRUEM"])
    ensures r.Err? ==> r.error.KeyError?
  {
    if !isMc then Ok(reco)
    else
      var truth :- GetItem(row, particle + "_TRUEM");
      var l1 :- GetItem(row, "L1_HASBREMADDED");
      var l2 :- GetItem(row, "L2_HASBREMADDED");
      var block :- GetItem(row, "block");
      Ok(getMass(Plus(l1, l2), block, reco, truth))
  }

  /** Columns `_calculate_dira` reads for `particle`. */
  function VertexColumns(particle: string): set<string> {
    {particle + "_BPVX", particle + "_BPVY", particle + "_BPVZ",
     particle + "_END_VX", particle + "_END_VY", particle + "_END_VZ"}
  }

  /** `_calculate_dira`: primary and end vertex from the row, the cosine from the geometry. */
  function Dira(row: Record, momentum: Vec3, particle: string, geo: Geometry): (r: Result<Value>)
    ensures r.Ok? <==> VertexColumns(particle) <= row.Keys
    // the primary vertex is BPV, the secondary one END_V
    ensures r.Ok? ==>
              r.value == geo.dira(Vec3(row[particle + "_BPVX"], row[particle + "_BPVY"], row[particle + "_BPVZ"]),
                                  Vec3(row[particle + "_END_VX"], row[particle + "_END_VY"], row[particle + "_END_VZ"]),
                                  momentum)
    ensures r.Err? ==> r.error.KeyError?
  {
    var pvx :- GetItem(row, particle + "_BPVX");
    var pvy :- GetItem(row, particle + "_BPVY");
    var pvz :- GetItem(row, particle + "_BPVZ");
    var svx :- GetItem(row, particle + "_END_VX");
    var svy :- GetItem(row, particle + "_END_VY");
    var svz :- GetItem(row, particle + "_END_VZ");
    Ok(geo.dira(Vec3(pvx, pvy, pvz), Vec3(svx, svy, svz), momentum))
  }

  /** Lepton columns copied unchanged from the corrected row, in the order they are read. */
  const COPIED_ORDER: seq<string> := [
    "L1_PX", "L1_PY", "L1_PZ", "L1_PT",
    "L2_PX", "L2_PY", "L2_PZ", "L2_PT",
    "L1_HASBREMADDED", "L2_HASBREMADDED"]

  const COPIED: set<string> := {
    "L1_PX", "L1_PY", "L1_PZ", "L1_PT",
    "L2_PX", "L2_PY", "L2_PZ", "L2_PT",
    "L1_HASBREMADDED", "L2_HASBREMADDED"}

  /** The L1 entries of COPIED, with their fields. */
  const L1_COPIED: set<string> := {"L1_PX", "L1_PY", "L1_PZ", "L1_PT", "L1_HASBREMADDED"}

  /** Columns derived from the kinematics. */
  const DERIVED: set<string> := {
    "B_M", "Jpsi_M", "B_PT", "Jpsi_PT",
    "Jpsi_M_smr", "B_M_smr", "B_DIRA_OWNPV", "Jpsi_DIRA_OWNPV"}

  /** Columns the three particle vectors are built from. */
  const KINEMATIC_INPUT: set<string> := {
    "L1_PT", "L1_PHI", "L1_ETA", "L2_PT", "L2_PHI", "L2_ETA", "H_PT", "H_PHI", "H_ETA"}

  /** Columns the smearing reads on MC besides the two brem flags. */
  const TRUTH_INPUT: set<string> := {"Jpsi_TRUEM", "B_TRUEM", "block"}

  /** `_calculate_variables` can build its record exactly when these are all present. */
  predicate HasInputs(isMc: bool, row: Record) {
    && KINEMATIC_INPUT <= row.Keys
    && COPIED <= row.Keys
    && VertexColumns("B") <= row.Keys
    && VertexColumns("Jpsi") <= row.Keys
    && (isMc ==> TRUTH_INPUT + {"L1_HASBREMADDED", "L2_HASBREMADDED"} <= row.Keys)
  }

  /** The copied columns, in reading order, are exactly COPIED. */
  lemma CopiedOrder()
    ensures forall k :: k in COPIED_ORDER <==> k in COPIED
  {
    assert COPIED == set k | k in COPIED_ORDER;
  }

  /** The row lacks none of the copied columns iff it has them all. */
  lemma CopiedPresent(row: Record)
    ensures FirstMissing(row, COPIED_ORDER).None? <==> COPIED <= row.Keys
  {
    CopiedOrder();
  }

  /** The entries of `row` under the names `keys`. */
  function Restrict(row: Record, keys: set<string>): (r: Record)
    requires keys <= row.Keys
    ensures r.Keys == keys && forall k | k in keys :: r[k] == row[k]
  {
    map k | k in keys :: row[k]
  }

  /** The lepton entries of the record: `row.L1_PX` and so on; a missing one
      raises AttributeError. */
  function CopyColumns(row: Record): (r: Result<Record>)
    ensures r.Ok? <==> COPIED <= row.Keys
    ensures r.Ok? ==> r.value.Keys == COPIED && forall k | k in COPIED :: r.value[k] == row[k]
    ensures r.Err? ==> r.error.AttributeError?
  {
    CopiedPresent(row);
    match FirstMissing(row, COPIED_ORDER)
    case Some(k) => Err(AttributeError(k))
    case None => Ok(Restrict(row, COPIED))
  }

  /** The derived variables, keyed by their output column names. */
  function Derived(bm: Value, jm: Value, bpt: Value, jpt: Value, jsmr: Value, bsmr: Value, bdira: Value, jdira: Value): (r: Record)
    ensures r.Keys == DERIVED
    ensures r["B_M"] == bm && r["Jpsi_M"] == jm && r["B_PT"] == bpt && r["Jpsi_PT"] == jpt
    ensures r["Jpsi_M_smr"] == jsmr && r["B_M_smr"] == bsmr && r["B_DIRA_OWNPV"] == bdira && r["Jpsi_DIRA_OWNPV"] == jdira
  {
    map[
      "B_M" := bm, "Jpsi_M" := jm, "B_PT" := bpt, "Jpsi_PT" := jpt,
      "Jpsi_M_smr" := jsmr, "B_M_smr" := bsmr, "B_DIRA_OWNPV" := bdira, "Jpsi_DIRA_OWNPV" := jdira]
  }

  /** No derived column is a copied lepton column. */
  lemma CopiedDerivedDisjoint()
    ensures forall k | k in DERIVED :: k !in COPIED
  {
    assert forall k | k in COPIED :: k[0] == 'L';
    assert forall k | k in DERIVED :: k[0] != 'L';
  }

  /** The copied lepton entries and the derived variables in one record. */
  function Assemble(copied: Record, derived: Record): (r: Record)
    requires copied.Keys == COPIED && derived.Keys == DERIVED
    ensures r.Keys == COPIED + DERIVED
    ensures forall k | k in COPIED :: r[k] == copied[k]
    ensures forall k | k in DERIVED :: r[k] == derived[k]
  {
    CopiedDerivedDisjoint();
    derived + copied
  }

  /** Both smeared masses, the J/psi's first. */
  function SmearBoth(isMc: bool, row: Record, jmass: Value, bmass: Value, getMass: (Value, Value, Value, Value) -> Value): (r: Result<(Value, Value)>)
    ensures !isMc ==> r == Ok((jmass, bmass))
    ensures r.Ok? <==> (isMc ==> TRUTH_INPUT + {"L1_HASBREMADDED", "L2_HASBREMADDED"} <= row.Keys)
    ensures r.Ok? ==>
              && SmearMass(isMc, row, "Jpsi", jmass, getMass).Ok? && SmearMass(isMc, row, "B", bmass, getMass).Ok?
              && r.value == (SmearMass(isMc, row, "Jpsi", jmass, getMass).value, SmearMass(isMc, row, "B", bmass, getMass).value)
    ensures r.Err? ==> r.error.KeyError?
  {
    assert "Jpsi" + "_TRUEM" == "Jpsi_TRUEM" && "B" + "_TRUEM" == "B_TRUEM";
    var jsmr :- SmearMass(isMc, row, "Jpsi", jmass, getMass);
    var bsmr :- SmearMass(isMc, row, "B", bmass, getMass);
    Ok((jsmr, bsmr))
  }

  /** Both DIRA values, the B's first. */
  function DiraBoth(row: Record, jp: Vec4, bp: Vec4, geo: Geometry): (r: Result<(Value, Value)>)
    ensures r.Ok? <==> VertexColumns("B") <= row.Keys && VertexColumns("Jpsi") <= row.Keys
    ensures r.Ok? ==>
              && Dira(row, bp.P3(), "B", geo).Ok? && Dira(row, jp.P3(), "Jpsi", geo).Ok?
              && r.value == (Dira(row, bp.P3(), "B", geo).value, Dira(row, jp.P3(), "Jpsi", geo).value)
    ensures r.Err? ==> r.error.KeyError?
  {
    var bdira :- Dira(row, bp.P3(), "B", geo);
    var jdira :- Dira(row, jp.P3(), "Jpsi", geo);
    Ok((bdira, jdira))
  }

  /** `_calculate_variables`: the record of derived variables. */
  function CalculateVariables(isMc: bool, row: Record, phys: Physics): (r: Result<Record>)
    ensures r.Ok? <==> HasInputs(isMc, row)
    ensures r.Ok? ==> r.value.Keys == COPIED + DERIVED
    ensures r.Ok? ==> forall k | k in COPIED :: r.value[k] == row[k]
    ensures r.Ok? ==>
              var (jp, bp) := Kinematics(row, phys.geo).value;
              && r.value["Jpsi_M"] == Sentinel(phys.geo.mass(jp))
              && r.value["B_M"] == Sentinel(phys.geo.mass(bp))
              && r.value["Jpsi_PT"] == phys.geo.pt(jp.P3())
              && r.value["B_PT"] == phys.geo.pt(bp.P3())
              && r.value["B_DIRA_OWNPV"] == Dira(row, bp.P3(), "B", phys.geo).value
              && r.value["Jpsi_DIRA_OWNPV"] == Dira(row, jp.P3(), "Jpsi", phys.geo).value
    ensures r.Ok? ==> r.value["B_M"].Num? && r.value["Jpsi_M"].Num?
    ensures r.Ok? ==>
              var smeared := SmearBoth(isMc, row, r.value["Jpsi_M"], r.value["B_M"], phys.getMass);
              smeared.Ok? && (r.value["Jpsi_M_smr"], r.value["B_M_smr"]) == smeared.value
    ensures r.Err? ==> r.error.AttributeError? || r.error.KeyError?
  {
    var geo := phys.geo;
    var (jp, bp) :- Kinematics(row, geo);
    var bmass := Sentinel(geo.mass(bp));
    var jmass := Sentinel(geo.mass(jp));
    var copied :- CopyColumns(row);
    assert "L1_HASBREMADDED" in COPIED && "L2_HASBREMADDED" in COPIED;
    var (jsmr, bsmr) :- SmearBoth(isMc, row, jmass, bmass, phys.getMass);
    var (bdira, jdira) :- DiraBoth(row, jp, bp, geo);
    var derived := Derived(bmass, jmass, geo.pt(bp.P3()), geo.pt(jp.P3()), jsmr, bsmr, bdira, jdira);
    assert "B_M" in DERIVED && "Jpsi_M" in DERIVED && "B_PT" in DERIVED && "Jpsi_PT" in DERIVED;
    assert "Jpsi_M_smr" in DERIVED && "B_M_smr" in DERIVED && "B_DIRA_OWNPV" in DERIVED && "Jpsi_DIRA_OWNPV" in DERIVED;
    Ok(Assemble(copied, derived))
  }

  /** The J/psi variables are those of the sum of the two electrons, built
      with the electron mass, and the B variables add the kaon to it. */
  lemma DileptonVariables(isMc: bool, row: Record, phys: Physics)
    requires CalculateVariables(isMc, row, phys).Ok?
    ensures var out := CalculateVariables(isMc, row, phys).value;
            var geo := phys.geo;
            var l1, l2 := ParticleVector(row, "L1", ELECTRON_MASS, geo), ParticleVector(row, "L2", ELECTRON_MASS, geo);
            && l1.Ok? && l2.Ok? && {"H_PT", "H_ETA", "H_PHI"} <= row.Keys
            && var jp := Add(l1.value, l2.value);
               var bp := Add(jp, geo.fromPtEtaPhiM(row["H_PT"], row["H_ETA"], row["H_PHI"], KAON_MASS));
               && out["Jpsi_M"] == Sentinel(geo.mass(jp)) && out["Jpsi_PT"] == geo.pt(jp.P3())
               && out["B_M"] == Sentinel(geo.mass(bp)) && out["B_PT"] == geo.pt(bp.P3())
               && out["Jpsi_DIRA_OWNPV"] == Dira(row, jp.P3(), "Jpsi", geo).value
               && out["B_DIRA_OWNPV"] == Dira(row, bp.P3(), "B", geo).value
  {
    var geo := phys.geo;
    var k := Kinematics(row, geo);
    assert k.Ok?;
    var d := Dilepton(row, geo);
    assert k.value.0 == d.value;
  }

  /** `df.add_suffix(f'_{suffix}')`, or the frame itself when there is no suffix. */
  function AddSuffix(rec: Record, suffix: Option<string>): (r: Record)
    ensures suffix.None? ==> r == rec
    ensures suffix.Some? ==> r.Keys == set k | k in rec :: k + "_" + suffix.value
    ensures suffix.Some? ==> forall k | k in rec :: r[k + "_" + suffix.value] == rec[k]
  {
    match suffix
    case None => rec
    case Some(x) =>
      assert forall a, b | a + "_" + x == b + "_" + x :: a == b by {
        forall a, b | a + "_" + x == b + "_" + x ensures a == b {
          assert (a + "_" + x)[..|a|] == a;
          assert (b + "_" + x)[..|b|] == b;
        }
      }
      map k | k in rec :: k + "_" + x := rec[k]
  }

  /** `df_corr[v] = df[v]` for the event and run numbers, which keep their names. */
  function WithIds(out: Record, original: Record): (r: Result<Record>)
    ensures r.Ok? <==> "EVENTNUMBER" in original && "RUNNUMBER" in original
    ensures r.Ok? ==> r.value == out["EVENTNUMBER" := original["EVENTNUMBER"]]["RUNNUMBER" := original["RUNNUMBER"]]
    ensures r.Err? ==> r.error.KeyError?
  {
    var event :- GetItem(original, "EVENTNUMBER");
    var run :- GetItem(original, "RUNNUMBER");
    Ok(out["EVENTNUMBER" := event]["RUNNUMBER" := run])
  }

  /** `fillna(-1)` */
  function FillNa(rec: Record): (r: Record)
    ensures r.Keys == rec.Keys
    ensures forall k | k in r :: r[k] == Sentinel(rec[k])
  {
    map k | k in rec :: Sentinel(rec[k])
  }

  /** The column handling at the end of `get_rdf` for one candidate. */
  function Finish(out: Record, original: Record, suffix: Option<string>): (r: Result<Record>)
    ensures r.Ok? <==> "EVENTNUMBER" in original && "RUNNUMBER" in original
    ensures r.Ok? ==> r.value.Keys == AddSuffix(out, suffix).Keys + {"EVENTNUMBER", "RUNNUMBER"}
    // no NaN survives
    ensures r.Ok? ==> forall k | k in r.value :: r.value[k].Num?
    // the suffixed columns carry the corrected values, the ids those of the input
    ensures r.Ok? ==> var named := AddSuffix(out, suffix);
                      forall k | k in named && k != "EVENTNUMBER" && k != "RUNNUMBER" :: r.value[k] == Sentinel(named[k])
    ensures r.Ok? ==> r.value["EVENTNUMBER"] == Sentinel(original["EVENTNUMBER"])
                      && r.value["RUNNUMBER"] == Sentinel(original["RUNNUMBER"])
    ensures r.Err? ==> r.error.KeyError?
  {
    var named :- WithIds(AddSuffix(out, suffix), original);
    Ok(FillNa(named))
  }

  /** What `_calculate_correction` produces for one candidate row. */
  function EventCorrection(s: Settings, skip: bool, kind: string, isMc: bool, phys: Physics, row: Record): (r: Result<Record>)
    ensures r.Ok? ==> r.value.Keys == COPIED + DERIVED
    // with the skip switch the lepton entries are those of the input row
    ensures skip ==> r == CalculateVariables(isMc, row, phys)
    ensures skip ==> (r.Ok? <==> HasInputs(isMc, row))
    ensures skip && r.Ok? ==> forall k | k in COPIED :: r.value[k] == row[k]
    ensures !IsKind(kind) ==> skip || r.Err?
    ensures r.Err? ==> InputError(r.error) || r.error.AttributeError?
                       || r.error == NotImplementedError("Invalid correction of type: " + kind)
  {
    if skip then CalculateVariables(isMc, row, phys)
    else
      var afterL1 :- Corrected(s, row, "L1", kind);
      var afterL2 :- Corrected(s, afterL1, "L2", kind);
      CalculateVariables(isMc, afterL2, phys)
  }

  /** `df.apply(_calculate_correction, axis=1)`: the first failing row stops it. */
  function Corrections(s: Settings, skip: bool, kind: string, isMc: bool, phys: Physics, rows: seq<Record>): (r: Result<seq<Record>>)
    ensures r.Ok? ==> |r.value| == |rows|
    decreases |rows|
  {
    if rows == [] then Ok([])
    else
      var init :- Corrections(s, skip, kind, isMc, phys, rows[..|rows| - 1]);
      var last :- EventCorrection(s, skip, kind, isMc, phys, rows[|rows| - 1]);
      Ok(init + [last])
  }

  /** Suffix, event and run numbers and NaN filling, row by row. */
  function FinishAll(out: seq<Record>, rows: seq<Record>, suffix: Option<string>): (r: Result<seq<Record>>)
    requires |out| == |rows|
    ensures r.Ok? ==> |r.value| == |rows| && forall i | 0 <= i < |rows| :: Finish(out[i], rows[i], suffix) == Ok(r.value[i])
    ensures r.Err? ==> exists i | 0 <= i < |rows| :: Finish(out[i], rows[i], suffix).Err?
  {
    var outs := seq(|rows|, i requires 0 <= i < |rows| => Finish(out[i], rows[i], suffix));
    GatherRows(outs);
    Gather(outs)
  }

  class MassBiasCorrector {
    const isMc: bool
    /** The candidates, one record per row of the input dataframe. */
    const rows: seq<Record>
    const skipCorrection: bool
    const nthreads: int
    const ecorrKind: string
    const physics: Physics
    const ebc: ElectronBiasCorrector

    ghost predicate Valid()
      reads this, ebc
    {
      ebc.Valid() && !ebc.skipCorrection
    }

    /** `MassBiasCorrector(rdf, skip_correction, nthreads, brem_energy_threshold, ecorr_kind)`:
        the electron corrector gets the threshold but never the skip flag. */
    constructor (columns: seq<string>, rows: seq<Record>, services: Services, physics: Physics,
                 skipCorrection: bool := false, nthreads: int := 1,
                 bremEnergyThreshold: real := DEFAULT_THRESHOLD, ecorrKind: string := DEFAULT_KIND)
      ensures Valid() && fresh(ebc)
      ensures isMc <==> exists i | 0 <= i < |columns| :: EndsWith(columns[i], "_TRUEID")
      ensures this.rows == rows && this.skipCorrection == skipCorrection && this.nthreads == nthreads
      ensures this.ecorrKind == ecorrKind && this.physics == physics
      ensures ebc.Config() == Settings(false, bremEnergyThreshold, true, services)
    {
      var mc := RdfIsMc(columns);
      isMc := mc;
      this.rows := rows;
      this.skipCorrection := skipCorrection;
      this.nthreads := nthreads;
      this.ecorrKind := ecorrKind;
      this.physics := physics;
      ebc := new ElectronBiasCorrector(false, bremEnergyThreshold, services);
    }

    /** `_correct_electron`: with the skip switch the row is left untouched. */
    method CorrectElectron(lepton: string, row: Series) returns (r: Result<()>)
      requires Valid()
      modifies ebc, row
      ensures Valid() && ebc.Config() == old(ebc.Config())
      ensures skipCorrection ==> r == Ok(()) && row.data == old(row.data)
      ensures !skipCorrection ==>
                var expected := Corrected(ebc.Config(), old(row.data), lepton, ecorrKind);
                && (r.Ok? <==> expected.Ok?)
                && (expected.Ok? ==> row.data == expected.value)
                && (expected.Err? ==> r == Err(expected.error))
    {
      if skipCorrection {
        return Ok(());
      }
      r := ebc.Correct(row, lepton, ecorrKind);
    }

    /** `_calculate_correction`: L1, then L2, then the variables of the corrected row. */
    method CalculateCorrection(row: Series) returns (r: Result<Record>)
      requires Valid()
      modifies ebc, row
      ensures Valid() && ebc.Config() == old(ebc.Config())
      ensures r == EventCorrection(ebc.Config(), skipCorrection, ecorrKind, isMc, physics, old(row.data))
    {
      var _ :- CorrectElectron("L1", row);
      var _ :- CorrectElectron("L2", row);
      r := CalculateVariables(isMc, row.data, physics);
    }

    /** The `apply` of `get_rdf`: `_calculate_correction` on a fresh copy of
        every row, in order; the first failure stops it. */
    method CorrectAll() returns (r: Result<seq<Record>>)
      requires Valid()
      modifies ebc
      ensures Valid() && ebc.Config() == old(ebc.Config())
      ensures r == Corrections(ebc.Config(), skipCorrection, ecorrKind, isMc, physics, rows)
    {
      ghost var config := ebc.Config();
      var out: seq<Record> := [];
      for i := 0 to |rows|
        invariant Valid() && ebc.Config() == config
        invariant Corrections(config, skipCorrection, ecorrKind, isMc, physics, rows[..i]) == Ok(out)
      {
        CorrectionsStep(config, skipCorrection, ecorrKind, isMc, physics, rows, i);
        var row := new Series(rows[i]);
        var corrected := CalculateCorrection(row);
        if corrected.Err? {
          CorrectionsStop(config, skipCorrection, ecorrKind, isMc, physics, rows, i + 1);
          return Err(corrected.error);
        }
        out := out + [corrected.value];
      }
      assert rows[..|rows|] == rows;
      r := Ok(out);
    }

    /** `get_rdf(suffix)` */
    method GetRdf(suffix: Option<string>) returns (r: Result<seq<Record>>)
      requires Valid()
      modifies ebc
      ensures Valid() && ebc.Config() == old(ebc.Config())
      ensures r == (var out :- Corrections(ebc.Config(), skipCorrection, ecorrKind, isMc, physics, rows);
                    FinishAll(out, rows, suffix))
    {
      var out := CorrectAll();
      if out.Err? {
        return Err(out.error);
      }
      r := FinishAll(out.value, rows, suffix);
    }
  }

  /** The per-row outcomes in order, with the first failure stopping the run. */
  function Gather(outs: seq<Result<Record>>): Result<seq<Record>>
    decreases |outs|
  {
    if outs == [] then Ok([])
    else
      var init :- Gather(outs[..|outs| - 1]);
      var last :- outs[|outs| - 1];
      Ok(init + [last])
  }

  /** Gathering succeeds iff every outcome does, and then lists their values in order. */
  lemma {:induction false} GatherRows(outs: seq<Result<Record>>)
    ensures Gather(outs).Ok? <==> forall i | 0 <= i < |outs| :: outs[i].Ok?
    ensures Gather(outs).Ok? ==> |Gather(outs).value| == |outs|
    ensures Gather(outs).Ok? ==> forall i | 0 <= i < |outs| :: Ok(Gather(outs).value[i]) == outs[i]
    decreases |outs|
  {
    if outs != [] {
      var n := |outs| - 1;
      var init := outs[..n];
      GatherRows(init);
      assert forall i | 0 <= i < n :: init[i] == outs[i];
      if Gather(init).Ok? && outs[n].Ok? {
        var r := Gather(outs).value;
        assert r == Gather(init).value + [outs[n].value];
        forall i | 0 <= i < |outs| ensures Ok(r[i]) == outs[i] {
          if i < n {
            assert r[i] == Gather(init).value[i];
          }
        }
      }
    }
  }

  /** The outcome of `_calculate_correction` on each row. */
  function Outcomes(s: Settings, skip: bool, kind: string, isMc: bool, phys: Physics, rows: seq<Record>): (r: seq<Result<Record>>)
    ensures |r| == |rows| && forall i | 0 <= i < |rows| :: r[i] == EventCorrection(s, skip, kind, isMc, phys, rows[i])
  {
    seq(|rows|, i requires 0 <= i < |rows| => EventCorrection(s, skip, kind, isMc, phys, rows[i]))
  }

  lemma OutcomesLast(s: Settings, skip: bool, kind: string, isMc: bool, phys: Physics, rows: seq<Record>)
    requires rows != []
    ensures var outs, n := Outcomes(s, skip, kind, isMc, phys, rows), |rows| - 1;
            && outs[..n] == Outcomes(s, skip, kind, isMc, phys, rows[..n])
            && outs[n] == EventCorrection(s, skip, kind, isMc, phys, rows[n])
  {
    var n := |rows| - 1;
    assert Outcomes(s, skip, kind, isMc, phys, rows)[..n] == Outcomes(s, skip, kind, isMc, phys, rows[..n]);
  }

  lemma {:induction false} CorrectionsGather(s: Settings, skip: bool, kind: string, isMc: bool, phys: Physics, rows: seq<Record>)
    ensures Corrections(s, skip, kind, isMc, phys, rows) == Gather(Outcomes(s, skip, kind, isMc, phys, rows))
    decreases |rows|
  {
    if rows != [] {
      var init := rows[..|rows| - 1];
      CorrectionsGather(s, skip, kind, isMc, phys, init);
      OutcomesLast(s, skip, kind, isMc, phys, rows);
    }
  }

  /** Every row is corrected on its own: the run succeeds iff every row
      does, and then its i-th output is the correction of the i-th row. */
  lemma CorrectionsRows(s: Settings, skip: bool, kind: string, isMc: bool, phys: Physics, rows: seq<Record>)
    ensures var r := Corrections(s, skip, kind, isMc, phys, rows);
            && (r.Ok? <==> forall i | 0 <= i < |rows| :: EventCorrection(s, skip, kind, isMc, phys, rows[i]).Ok?)
            && (r.Ok? ==> forall i | 0 <= i < |rows| :: Ok(r.value[i]) == EventCorrection(s, skip, kind, isMc, phys, rows[i]))
  {
    CorrectionsGather(s, skip, kind, isMc, phys, rows);
    GatherRows(Outcomes(s, skip, kind, isMc, phys, rows));
  }

  lemma CorrectionsStep(s: Settings, skip: bool, kind: string, isMc: bool, phys: Physics, rows: seq<Record>, i: nat)
    requires i < |rows|
    ensures Corrections(s, skip, kind, isMc, phys, rows[..i + 1])
            == (var init :- Corrections(s, skip, kind, isMc, phys, rows[..i]);
                var last :- EventCorrection(s, skip, kind, isMc, phys, rows[i]);
                Ok(init + [last]))
  {
    assert rows[..i + 1][..i] == rows[..i];
  }

  /** Once a prefix of the rows fails, so does every longer prefix, with the same error. */
  lemma {:induction false} CorrectionsStop(s: Settings, skip: bool, kind: string, isMc: bool, phys: Physics, rows: seq<Record>, n: nat)
    requires n <= |rows|
    requires Corrections(s, skip, kind, isMc, phys, rows[..n]).Err?
    ensures Corrections(s, skip, kind, isMc, phys, rows) == Corrections(s, skip, kind, isMc, phys, rows[..n])
    decreases |rows| - n
  {
    if n < |rows| {
      CorrectionsStep(s, skip, kind, isMc, phys, rows, n);
      CorrectionsStop(s, skip, kind, isMc, phys, rows, n + 1);
    } else {
      assert rows[..n] == rows;
    }
  }

  /** The L1 entries of the output record are L1 columns that neither the
      L2 correction nor the calibration writes. */
  lemma L1CopiedColumn(s: Settings, k: string)
    requires k in L1_COPIED
    ensures k in COPIED
    ensures k !in CalibrationColumns(s) && k !in Touched(s, "L2")
  {
    assert k == Col("L1", k[3..]);
    NotCalibrationColumn("L1", k[3..]);
    ColumnOfOtherLepton(s, "L2", "L1", k[3..]);
  }

  /** L1 is corrected first and L2 second, and the output carries L1's
      correction of the L1 columns and L2's correction of the rest. */
  lemma OutputCarriesBothCorrections(s: Settings, kind: string, isMc: bool, phys: Physics, row: Record)
    requires EventCorrection(s, false, kind, isMc, phys, row).Ok?
    ensures var afterL1 := Corrected(s, row, "L1", kind);
            && afterL1.Ok?
            && var afterL2 := Corrected(s, afterL1.value, "L2", kind);
               && afterL2.Ok?
               && var out := EventCorrection(s, false, kind, isMc, phys, row).value;
                  && out.Keys == COPIED + DERIVED
                  && (forall k | k in COPIED :: k in afterL2.value && out[k] == afterL2.value[k])
                  && (forall k | k in L1_COPIED :: k in afterL1.value && out[k] == afterL1.value[k])
                  // every derived variable is computed from the row after both corrections
                  && EventCorrection(s, false, kind, isMc, phys, row) == CalculateVariables(isMc, afterL2.value, phys)
  {
    var c1 := Corrected(s, row, "L1", kind);
    assert c1.Ok?;
    var c2 := Corrected(s, c1.value, "L2", kind);
    assert c2.Ok?;
    var out := CalculateVariables(isMc, c2.value, phys);
    assert EventCorrection(s, false, kind, isMc, phys, row) == out;
    forall k | k in L1_COPIED
      ensures k in c1.value && out.value[k] == c1.value[k]
    {
      L1CopiedColumn(s, k);
    }
  }
}
