/**
  The helpers of `rx_data.utilities`: the sample and trigger classifiers,
  the dispatch of `info_from_path`, the per-lepton column rewrites applied
  before a ROOT dataframe is turned into pandas, and the rule cascade that
  decides which columns are kept.

  The regular expressions `Data.dt_rgx` and `Data.mc_rgx` are not
  interpreted: matching a file name against one of them is a parameter that
  yields the (sample, line) groups or nothing.
*/
module Utilities {
  import opened PyBase
  import opened Strings

  // ---------------------------------------------------------------------
  // is_mc

  /** `is_mc(sample)`: every sample is simulation unless its name starts with `DATA`. */
  function IsMc(sample: string): (r: bool)
    ensures !r <==> |sample| >= 4 && sample[..4] == "DATA"
  {
    !StartsWith(sample, "DATA")
  }

  // ---------------------------------------------------------------------
  // is_ee

  /** HLT2 lines of the electron channel. */
  const EE_TRIGGERS: seq<string> := [
    "Hlt2RD_BuToKpEE_MVA",
    "Hlt2RD_BuToKpEE_SameSign_MVA",
    "Hlt2RD_BuToKpEE_MVA_misid",
    "Hlt2RD_BuToKpEE_MVA_cal",
    "Hlt2RD_B0ToKpPimEE_MVA",
    "Hlt2RD_B0ToKpPimEE_SameSign_MVA",
    "Hlt2RD_B0ToKpPimEE_MVA_misid",
    "Hlt2RD_B0ToKpPimEE_MVA_cal",
    "Hlt2RD_LbTopKEE_MVA",
    "Hlt2RD_LbTopKEE_SameSign_MVA",
    "Hlt2RD_LbTopKEE_MVA_misid",
    "Hlt2RD_BsToPhiEE_MVA",
    "Hlt2RD_BsToPhiEE_SameSign_MVA",
    "Hlt2RD_BsToPhiEE_MVA_misid"]

  /** HLT2 lines of the muon channel. */
  const MM_TRIGGERS: seq<string> := [
    "Hlt2RD_BuToKpMuMu_MVA",
    "Hlt2RD_BuToKpMuMu_SameSign_MVA",
    "Hlt2RD_B0ToKpPimMuMu_MVA",
    "Hlt2RD_B0ToKpPimMuMu_SameSign_MVA",
    "Hlt2RD_LbTopKMuMu_SameSign_MVA",
    "Hlt2RD_LbTopKMuMu_MVA",
    "Hlt2RD_BsToPhiMuMu_MVA",
    "Hlt2RD_BsToPhiMuMu_SameSign_MVA"]

  /** HLT2 lines of the lepton-flavour-violating muon-electron channel. */
  const EM_TRIGGERS: seq<string> := [
    "Hlt2RD_BuToKpMuE_MVA",
    "Hlt2RD_B0ToKpPimMuE_MVA",
    "Hlt2RD_LbTopKMuE_MVA",
    "Hlt2RD_BsToPhiMuE_MVA"]

  /** `is_ee(trigger)`: true on an electron line, false on a muon or
      muon-electron line, ValueError on a line it does not know. */
  function IsEe(trigger: string): (r: Result<bool>)
    ensures r == Ok(true) <==> trigger in EE_TRIGGERS
    ensures r == Ok(false) <==> trigger in MM_TRIGGERS + EM_TRIGGERS
    ensures r.Err? <==> trigger !in EE_TRIGGERS + MM_TRIGGERS + EM_TRIGGERS
    ensures r.Err? ==> r == Err(ValueError("Trigger " + trigger + " not found"))
  {
    ChannelsDisjoint();
    if trigger in EE_TRIGGERS then Ok(true)
    else if trigger in MM_TRIGGERS + EM_TRIGGERS then Ok(false)
    else Err(ValueError("Trigger " + trigger + " not found"))
  }

  /** No line is listed both as an electron line and as a non-electron line. */
  lemma ChannelsDisjoint()
    ensures forall t | t in MM_TRIGGERS + EM_TRIGGERS :: t !in EE_TRIGGERS
  {
  }

  /** The cases of `test_is_ee`. */
  lemma IsEeExamples()
    ensures IsEe("Hlt2RD_BuToKpEE_MVA") == Ok(true)
    ensures IsEe("Hlt2RD_BuToKpEE_SameSign_MVA") == Ok(true)
    ensures IsEe("Hlt2RD_BuToKpEE_MVA_misid") == Ok(true)
    ensures IsEe("Hlt2RD_BuToKpMuMu_MVA") == Ok(false)
    ensures IsEe("Hlt2RD_BuToKpMuMu_SameSign_MVA") == Ok(false)
    ensures IsEe("Hlt2RD_B0ToKpPimMuMu_MVA") == Ok(false)
    ensures IsEe("Hlt2RD_B0ToKpPimMuMu_SameSign_MVA") == Ok(false)
  {
    assert EE_TRIGGERS[0] == "Hlt2RD_BuToKpEE_MVA";
    assert EE_TRIGGERS[1] == "Hlt2RD_BuToKpEE_SameSign_MVA";
    assert EE_TRIGGERS[2] == "Hlt2RD_BuToKpEE_MVA_misid";
    assert (MM_TRIGGERS + EM_TRIGGERS)[0] == "Hlt2RD_BuToKpMuMu_MVA";
    assert (MM_TRIGGERS + EM_TRIGGERS)[1] == "Hlt2RD_BuToKpMuMu_SameSign_MVA";
    assert (MM_TRIGGERS + EM_TRIGGERS)[2] == "Hlt2RD_B0ToKpPimMuMu_MVA";
    assert (MM_TRIGGERS + EM_TRIGGERS)[3] == "Hlt2RD_B0ToKpPimMuMu_SameSign_MVA";
  }

  // ---------------------------------------------------------------------
  // info_from_path

  const DT_RGX: string := "(data_\\d{2}_.*c\\d)_(Hlt2RD_.*(?:EE|MuMu|misid|cal|MVA|LL|DD))_?(\\d{3}_\\d{3}|[a-z0-9]{10})?\\.root"
  const MC_RGX: string := "mc_.*_\\d{8}_(.*)_(\\w+RD_.*)_(\\d{3}_\\d{3}|\\w{10}).root"

  /** `re.match(pattern, name)` reduced to the first two of its three groups
      (sample, line), or nothing when the name does not match. */
  type Matcher = (string, string) -> Option<(string, string)>

  /** The sample name of a data file: `_turbo_`, then `_full_`, becomes `_`. */
  function DataSample(sample: string): string {
    ReplaceAll(ReplaceAll(sample, "_turbo_", "_"), "_full_", "_")
  }

  /** `_info_from_data_path` */
  function InfoFromDataPath(path: string, rematch: Matcher): (r: Result<(string, string)>)
    ensures var m := rematch(DT_RGX, Basename(path));
            && (r.Ok? <==> m.Some?)
            && (r.Ok? ==> r.value == (DataSample(m.value.0), m.value.1))
  {
    var name := Basename(path);
    match rematch(DT_RGX, name)
    case None => Err(ValueError("Cannot find kind in:\n\n" + name + "\n\nusing\n\n" + DT_RGX))
    case Some((sample, line)) => Ok((DataSample(sample), line))
  }

  /** `_info_from_mc_path` */
  function InfoFromMcPath(path: string, rematch: Matcher): (r: Result<(string, string)>)
    ensures var m := rematch(MC_RGX, Basename(path));
            && (r.Ok? <==> m.Some?)
            && (r.Ok? ==> r.value == m.value)
  {
    var name := Basename(path);
    match rematch(MC_RGX, name)
    case None => Err(ValueError("Cannot extract information from MC file:\n\n" + name + "\n\nUsing " + MC_RGX))
    case Some(groups) => Ok(groups)
  }

  /** `info_from_path(path)`: the file name decides between data and simulation. */
  function InfoFromPath(path: string, rematch: Matcher): (r: Result<(string, string)>)
    ensures var name := Basename(path);
            && (StartsWith(name, "dt_") || StartsWith(name, "data_") ==> r == InfoFromDataPath(path, rematch))
            && (!StartsWith(name, "dt_") && !StartsWith(name, "data_") && StartsWith(name, "mc_") ==>
                  r == InfoFromMcPath(path, rematch))
            && (!StartsWith(name, "dt_") && !StartsWith(name, "data_") && !StartsWith(name, "mc_") ==>
                  r == Err(ValueError("")))
  {
    var name := Basename(path);
    if StartsWith(name, "dt_") || StartsWith(name, "data_") then InfoFromDataPath(path, rematch)
    else if StartsWith(name, "mc_") then InfoFromMcPath(path, rematch)
    else Err(ValueError(""))
  }

  /** A file name never both looks like data and like simulation, so the
      order of the two tests does not matter. */
  lemma DataAndMcPrefixesExclusive(name: string)
    ensures StartsWith(name, "mc_") ==> !StartsWith(name, "dt_") && !StartsWith(name, "data_")
  {
    if StartsWith(name, "mc_") {
      assert name[..3][0] == 'm';
    }
  }

  /** A data sample name without `_turbo_` and `_full_` is kept as it is. */
  lemma DataSampleUnchanged(sample: string)
    requires !Contains(sample, "_turbo_") && !Contains(sample, "_full_")
    ensures DataSample(sample) == sample
  {
    ReplaceAllAbsent(sample, "_turbo_", "_");
    ReplaceAllAbsent(sample, "_full_", "_");
  }

  // ---------------------------------------------------------------------
  // _preprocess_lepton

  /** C++ `int(x)`: truncation toward zero. */
  function TruncateReal(x: real): (n: int)
    ensures x >= 0.0 ==> 0 <= n && n as real <= x < n as real + 1.0
    ensures x < 0.0 ==> n <= 0 && n as real - 1.0 < x <= n as real
  {
    if x >= 0.0 then x.Floor else -((-x).Floor)
  }

  /** `int(x)` of a column value (NaN has no integer value; it is kept). */
  function Truncate(v: Value): (r: Value)
    ensures v.NaN? <==> r.NaN?
    ensures v.Num? ==> r == Num(TruncateReal(v.x) as real)
  {
    match v
    case NaN => NaN
    case Num(x) => Num(TruncateReal(x) as real)
  }

  /** An integral value is its own truncation. */
  lemma TruncateIdempotent(v: Value)
    ensures Truncate(Truncate(v)) == Truncate(v)
  {
    if v.Num? {
      var n := TruncateReal(v.x);
      assert TruncateReal(n as real) == n;
    }
  }

  /** The three columns `_preprocess_lepton` redefines. */
  function PreprocessedColumns(lep: string): set<string> {
    {lep + "_HASBREMADDED", lep + "_BREMHYPOENERGY", lep + "_BREMTRACKBASEDENERGY"}
  }

  /** `_preprocess_lepton(rdf, lep)` on one entry: the brem flag becomes an
      int, the brem energy is zeroed unless the flag is 1, and a NaN
      track-based brem energy becomes 0.  `Redefine` of a column that does
      not exist fails. */
  function PreprocessLepton(row: Record, lep: string): (r: Result<Record>)
    ensures r.Ok? <==> PreprocessedColumns(lep) <= row.Keys
    ensures r.Err? ==> r.error.KeyError?
    ensures r.Ok? ==> r.value.Keys == row.Keys
    ensures r.Ok? ==>
              var flag := r.value[lep + "_HASBREMADDED"];
              && flag == Truncate(row[lep + "_HASBREMADDED"])
              && r.value[lep + "_BREMHYPOENERGY"]
                   == (if flag == Num(1.0) then row[lep + "_BREMHYPOENERGY"] else Num(0.0))
              && r.value[lep + "_BREMTRACKBASEDENERGY"]
                   == (if row[lep + "_BREMTRACKBASEDENERGY"].NaN? then Num(0.0) else row[lep + "_BREMTRACKBASEDENERGY"])
    ensures r.Ok? ==> forall k | k in row && k !in PreprocessedColumns(lep) :: r.value[k] == row[k]
  {
    var flagCol, energyCol, trackCol := lep + "_HASBREMADDED", lep + "_BREMHYPOENERGY", lep + "_BREMTRACKBASEDENERGY";
    PrefixedDistinct(lep, "_HASBREMADDED", "_BREMHYPOENERGY");
    PrefixedDistinct(lep, "_HASBREMADDED", "_BREMTRACKBASEDENERGY");
    PrefixedDistinct(lep, "_BREMHYPOENERGY", "_BREMTRACKBASEDENERGY");
    var flag0 :- GetItem(row, flagCol);
    var flag := Truncate(flag0);
    var row1 := row[flagCol := flag];
    var energy :- GetItem(row1, energyCol);
    var row2 := row1[energyCol := if flag == Num(1.0) then energy else Num(0.0)];
    var track :- GetItem(row2, trackCol);
    // `x == x` is false only for NaN
    Ok(row2[trackCol := if track.NaN? then Num(0.0) else track])
  }

  /** Running the rewrite twice is the same as running it once. */
  lemma PreprocessLeptonIdempotent(row: Record, lep: string)
    requires PreprocessLepton(row, lep).Ok?
    ensures PreprocessLepton(PreprocessLepton(row, lep).value, lep) == PreprocessLepton(row, lep)
  {
    var once := PreprocessLepton(row, lep).value;
    var twice := PreprocessLepton(once, lep).value;
    var flagCol, energyCol, trackCol := lep + "_HASBREMADDED", lep + "_BREMHYPOENERGY", lep + "_BREMTRACKBASEDENERGY";
    TruncateIdempotent(row[flagCol]);
    assert twice[flagCol] == once[flagCol];
    assert twice[energyCol] == once[energyCol];
    assert twice[trackCol] == once[trackCol];
    assert twice.Keys == once.Keys;
    forall k | k in once ensures twice[k] == once[k] {
    }
    assert twice == once;
  }

  /** Every column `_preprocess_rdf` redefines. */
  function AllPreprocessed(): set<string> {
    PreprocessedColumns("L1") + PreprocessedColumns("L2") + PreprocessedColumns("H")
  }

  /** The columns of `lep` in `out` are those the rewrite of `lep` alone gives `row`. */
  predicate Redefined(out: Record, row: Record, lep: string) {
    var single := PreprocessLepton(row, lep);
    single.Ok? && forall k | k in PreprocessedColumns(lep) :: k in out && out[k] == single.value[k]
  }

  /** Every column redefined for `lep` starts with `lep`. */
  lemma PreprocessedPrefix(lep: string, k: string)
    requires k in PreprocessedColumns(lep)
    ensures |lep| <= |k| && k[..|lep|] == lep
  {
  }

  /** The rewrites of L1, L2 and H touch disjoint columns. */
  lemma PreprocessedApart(a: string, b: string)
    requires a in {"L1", "L2", "H"} && b in {"L1", "L2", "H"} && a != b
    ensures PreprocessedColumns(a) !! PreprocessedColumns(b)
  {
    forall k | k in PreprocessedColumns(a) && k in PreprocessedColumns(b) ensures false {
      PreprocessedPrefix(a, k);
      PreprocessedPrefix(b, k);
    }
  }

  /** The rewrite of one particle does not change what the rewrite of
      another particle computes. */
  lemma PreprocessCommutes(row: Record, first: string, lep: string)
    requires first in {"L1", "L2", "H"} && lep in {"L1", "L2", "H"} && first != lep
    requires PreprocessLepton(row, first).Ok?
    ensures var moved := PreprocessLepton(row, first).value;
            && (PreprocessLepton(moved, lep).Ok? <==> PreprocessLepton(row, lep).Ok?)
            && (PreprocessLepton(moved, lep).Ok? ==>
                  forall k | k in PreprocessedColumns(lep) :: PreprocessLepton(moved, lep).value[k] == PreprocessLepton(row, lep).value[k])
  {
    PreprocessedApart(first, lep);
    var moved := PreprocessLepton(row, first).value;
    var flagCol, energyCol, trackCol := lep + "_HASBREMADDED", lep + "_BREMHYPOENERGY", lep + "_BREMTRACKBASEDENERGY";
    assert flagCol in PreprocessedColumns(lep) && energyCol in PreprocessedColumns(lep) && trackCol in PreprocessedColumns(lep);
    assert PreprocessedColumns(lep) <= moved.Keys <==> PreprocessedColumns(lep) <= row.Keys;
    if PreprocessLepton(moved, lep).Ok? {
      assert moved[flagCol] == row[flagCol] && moved[energyCol] == row[energyCol] && moved[trackCol] == row[trackCol];
    }
  }

  /** `_preprocess_rdf`: the rewrite for L1, L2 and the hadron H. */
  function PreprocessRdf(row: Record): (r: Result<Record>)
    ensures r.Ok? <==> AllPreprocessed() <= row.Keys
    ensures r.Ok? ==> r.value.Keys == row.Keys
    ensures r.Ok? ==> forall k | k in row && k !in AllPreprocessed() :: r.value[k] == row[k]
    ensures r.Ok? ==> Redefined(r.value, row, "L1") && Redefined(r.value, row, "L2") && Redefined(r.value, row, "H")
    ensures r.Err? ==> r.error.KeyError?
  {
    PreprocessedApart("L1", "L2"); PreprocessedApart("L1", "H"); PreprocessedApart("L2", "H");
    var row1 :- PreprocessLepton(row, "L1");
    PreprocessCommutes(row, "L1", "L2");
    PreprocessCommutes(row, "L1", "H");
    var row2 :- PreprocessLepton(row1, "L2");
    PreprocessCommutes(row1, "L2", "H");
    var row3 :- PreprocessLepton(row2, "H");
    Ok(row3)
  }

  // ---------------------------------------------------------------------
  // _pick_column

  /** Columns kept whatever the other rules say: event alignment, q2
      smearing and the vertices the DIRA is recomputed from. */
  const TO_KEEP: seq<string> := [
    "EVENTNUMBER", "RUNNUMBER",
    "nbrem", "block", "Jpsi_TRUEM", "B_TRUEM",
    "Jpsi_BPVX", "Jpsi_BPVY", "Jpsi_BPVZ",
    "B_BPVX", "B_BPVY", "B_BPVZ",
    "Jpsi_END_VX", "Jpsi_END_VY", "Jpsi_END_VZ",
    "B_END_VX", "B_END_VY", "B_END_VZ"]

  /** Names rejected before the particle test. */
  predicate Vetoed(name: string) {
    EndsWith(name, "MC_ISPROMPT") || StartsWith(name, "H_BREM") || StartsWith(name, "H_TRACK_P") || Contains(name, "_TRUE")
  }

  /** Names of a lepton or of the hadron. */
  predicate OfParticle(name: string) {
    StartsWith(name, "L1") || StartsWith(name, "L2") || StartsWith(name, "H")
  }

  /** Brem information kept for every particle. */
  predicate BremInfo(name: string) {
    Contains(name, "BREMTRACKBASEDENERGY") || Contains(name, "HASBREMADDED")
  }

  /** Track and calorimeter quality variables that are dropped. */
  predicate Quality(name: string) {
    Contains(name, "NVPHITS") || Contains(name, "CHI2") || Contains(name, "HYPOID") || Contains(name, "HYPODELTA")
  }

  /** Kinematic and brem-hypothesis variables that are kept. */
  predicate Kinematic(name: string) {
    Contains(name, "PT") || Contains(name, "ETA") || Contains(name, "PHI")
    || Contains(name, "PX") || Contains(name, "PY") || Contains(name, "PZ") || Contains(name, "BREMHYPO")
  }

  /** `_pick_column(name)`: the rules are tried in order and the first that
      applies decides. */
  function PickColumn(name: string): (r: bool)
    ensures name in TO_KEEP ==> r
    ensures name !in TO_KEEP && Vetoed(name) ==> !r
    ensures name !in TO_KEEP && !OfParticle(name) ==> !r
    ensures r <==> name in TO_KEEP
                   || (!Vetoed(name) && OfParticle(name) && (BremInfo(name) || (!Quality(name) && Kinematic(name))))
  {
    if name in TO_KEEP then true
    else if EndsWith(name, "MC_ISPROMPT") then false
    else if StartsWith(name, "H_BREM") then false
    else if StartsWith(name, "H_TRACK_P") then false
    else if Contains(name, "_TRUE") then false
    else if !StartsWith(name, "L1") && !StartsWith(name, "L2") && !StartsWith(name, "H") then false
    else if Contains(name, "BREMTRACKBASEDENERGY") then true
    else if Contains(name, "HASBREMADDED") then true
    else if Contains(name, "NVPHITS") then false
    else if Contains(name, "CHI2") then false
    else if Contains(name, "HYPOID") then false
    else if Contains(name, "HYPODELTA") then false
    else if Contains(name, "PT") then true
    else if Contains(name, "ETA") then true
    else if Contains(name, "PHI") then true
    else if Contains(name, "PX") then true
    else if Contains(name, "PY") then true
    else if Contains(name, "PZ") then true
    else Contains(name, "BREMHYPO")
  }

  /** The true masses are kept for the smearing although `_TRUE` names are
      otherwise dropped: the keep list comes first. */
  lemma TrueMassesKept()
    ensures Contains("Jpsi_TRUEM", "_TRUE") && PickColumn("Jpsi_TRUEM")
    ensures Contains("B_TRUEM", "_TRUE") && PickColumn("B_TRUEM")
  {
    assert OccursAt("Jpsi_TRUEM", "_TRUE", 4);
    assert OccursAt("B_TRUEM", "_TRUE", 1);
    assert TO_KEEP[4] == "Jpsi_TRUEM" && TO_KEEP[5] == "B_TRUEM";
  }
}
