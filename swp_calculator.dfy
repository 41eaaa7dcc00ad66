/**
  `SWPCalculator` (src/rx_data/swp_calculator.py): for every candidate, the
  invariant mass of the hadron paired with one lepton, once with the PDG ids
  stored in the row (`org`) and once with the ids the caller asks to swap in
  (`swp`).  The lepton paired with the hadron is the first one, in the order
  of the lepton dictionary, whose charge is opposite to the hadron's, or
  equal to it in same-sign mode; with none the mass is the sentinel -999.

  Python dictionaries of particle name to PDG id are sequences of pairs with
  distinct names, in insertion order.  The particle table
  (`Particle.from_pdgid`) and the `vector` library's geometry are parameters
  the model leaves uninterpreted.
*/
module Swp {
  import opened PyBase
  import opened Strings
  import opened Vectors

  /** What `Particle.from_pdgid(id)` provides about a particle. */
  datatype ParticleInfo = ParticleInfo(mass: real, charge: real)

  /** `Particle.from_pdgid`, applied to an id as it is stored (a row cell or an integer). */
  type PdgTable = Value -> Option<ParticleInfo>

  datatype Setup = Setup(table: PdgTable, geo: Geometry)

  /** An integer PDG id as the particle table receives it. */
  function Id(n: int): Value {
    Num(n as real)
  }

  function FromPdgid(table: PdgTable, id: Value): (r: Result<ParticleInfo>)
    ensures r.Ok? <==> table(id).Some?
    ensures r.Ok? ==> r.value == table(id).value
    ensures r.Err? ==> r.error == ParticleNotFound(id)
  {
    match table(id)
    case Some(p) => Ok(p)
    case None => Err(ParticleNotFound(id))
  }

  /** A Python dict: names are distinct. */
  predicate IsDict<T>(d: seq<(string, T)>) {
    forall i, j | 0 <= i < j < |d| :: d[i].0 != d[j].0
  }

  /** `list(d)`: the names, in order. */
  function Names<T>(d: seq<(string, T)>): (r: seq<string>)
    ensures |r| == |d|
    ensures forall i | 0 <= i < |d| :: r[i] == d[i].0
  {
    if d == [] then [] else [d[0].0] + Names(d[1..])
  }

  /** `d.values()`: the ids, in order. */
  function Ids(d: seq<(string, int)>): (r: seq<int>)
    ensures |r| == |d|
    ensures forall i | 0 <= i < |d| :: r[i] == d[i].1
  {
    if d == [] then [] else [d[0].1] + Ids(d[1..])
  }

  // ---------------------------------------------------------------------
  // _pick_column

  const SUFFIXES: seq<string> := ["_PX", "_PY", "_PZ", "_PE", "_ID"]

  /** `name` is one of the kinematic columns of one of `particles`. */
  predicate IsKinematicColumn(name: string, particles: seq<string>) {
    exists i, j | 0 <= i < |particles| && 0 <= j < |SUFFIXES| :: name == particles[i] + SUFFIXES[j]
  }

  /** `_pick_column(name)`: the list of the `_PX/_PY/_PZ/_PE/_ID` columns of
      every lepton and hadron is built, then `name` is looked up in it. */
  method PickColumn(name: string, leptons: seq<(string, int)>, hadrons: seq<(string, int)>) returns (r: bool)
    ensures r <==> IsKinematicColumn(name, Names(leptons) + Names(hadrons))
  {
    var particles := Names(leptons) + Names(hadrons);
    var kin: seq<string> := [];
    for i := 0 to |particles|
      invariant forall c :: c in kin <==> IsKinematicColumn(c, particles[..i])
    {
      var par := particles[i];
      var added := [par + "_PX", par + "_PY", par + "_PZ", par + "_PE", par + "_ID"];
      assert forall j | 0 <= j < |SUFFIXES| :: added[j] == par + SUFFIXES[j];
      forall c ensures c in kin + added <==> IsKinematicColumn(c, particles[..i + 1]) {
        if IsKinematicColumn(c, particles[..i + 1]) {
          var i', j :| 0 <= i' < i + 1 && 0 <= j < |SUFFIXES| && c == particles[..i + 1][i'] + SUFFIXES[j];
          if i' < i {
            assert c == particles[..i][i'] + SUFFIXES[j];
          } else {
            assert c == added[j];
          }
        }
        if c in added {
          var j :| 0 <= j < |added| && added[j] == c;
          assert c == particles[..i + 1][i] + SUFFIXES[j];
        }
        if c in kin {
          var i', j :| 0 <= i' < i && 0 <= j < |SUFFIXES| && c == particles[..i][i'] + SUFFIXES[j];
          assert c == particles[..i + 1][i'] + SUFFIXES[j];
        }
      }
      kin := kin + added;
    }
    assert particles[..|particles|] == particles;
    r := name in kin;
  }

  /** The row as `_pnd_from_root` keeps it: only the picked columns. */
  function PickedRow(row: Record, particles: seq<string>): (r: Record)
    ensures forall k :: k in r <==> k in row && IsKinematicColumn(k, particles)
    ensures forall k | k in r :: r[k] == row[k]
  {
    map k | k in row && IsKinematicColumn(k, particles) :: row[k]
  }

  // ---------------------------------------------------------------------
  // _check_particle

  /** The position of the first id the particle table does not know, or
      `|ids|` when it knows them all. */
  function FirstUnknown(ids: seq<int>, table: PdgTable): (k: nat)
    ensures k <= |ids|
    ensures forall j | 0 <= j < k :: table(Id(ids[j])).Some?
    ensures k < |ids| ==> table(Id(ids[k])).None?
  {
    if ids == [] || table(Id(ids[0])).None? then 0
    else
      var k := FirstUnknown(ids[1..], table);
      assert forall j | 1 <= j < k + 1 :: ids[j] == ids[1..][j - 1];
      k + 1
  }

  lemma {:induction false} FirstUnknownAt(ids: seq<int>, table: PdgTable, i: nat)
    requires i < |ids| && table(Id(ids[i])).None?
    requires forall j | 0 <= j < i :: table(Id(ids[j])).Some?
    ensures FirstUnknown(ids, table) == i
  {
    if i > 0 {
      assert forall j | 0 <= j < i - 1 :: ids[1..][j] == ids[j + 1];
      FirstUnknownAt(ids[1..], table, i - 1);
    }
  }

  /** `_check_particle(d_part)`: every id must be known to the particle table;
      the first one that is not raises. */
  function CheckIds(ids: seq<int>, table: PdgTable): (r: Result<()>)
    ensures r.Ok? <==> forall k | 0 <= k < |ids| :: table(Id(ids[k])).Some?
    ensures r.Err? ==> r.error == ValueError("Cannot create particle for PDGID: " + IntToString(ids[FirstUnknown(ids, table)]))
  {
    var k := FirstUnknown(ids, table);
    if k == |ids| then Ok(())
    else Err(ValueError("Cannot create particle for PDGID: " + IntToString(ids[k])))
  }

  method CheckParticle(d: seq<(string, int)>, table: PdgTable) returns (r: Result<()>)
    ensures r == CheckIds(Ids(d), table)
  {
    var ids := Ids(d);
    for i := 0 to |ids|
      invariant forall k | 0 <= k < i :: table(Id(ids[k])).Some?
    {
      if table(Id(ids[i])).None? {
        FirstUnknownAt(ids, table, i);
        return Err(ValueError("Cannot create particle for PDGID: " + IntToString(ids[i])));
      }
    }
    r := Ok(());
  }

  // ---------------------------------------------------------------------
  // _get_4vec and _build_mass

  /** `_get_4vec(row, name)` turned into the vector `_build_mass` keeps for
      `name`: momentum from the row, mass first from the stored id, then
      pt, eta and phi kept with the mass of `newId`. */
  function SwappedVector(row: Record, name: string, newId: Value, setup: Setup): (r: Result<Vec4>)
    ensures r.Ok? <==> && name + "_PX" in row && name + "_PY" in row && name + "_PZ" in row
                       && name + "_ID" in row
                       && setup.table(row[name + "_ID"]).Some? && setup.table(newId).Some?
    ensures r.Ok? ==>
              var geo := setup.geo;
              var p3 := Vec3(row[name + "_PX"], row[name + "_PY"], row[name + "_PZ"]);
              var stored := geo.fromPtEtaPhiM(geo.pt(p3), geo.eta(p3), geo.phi(p3), setup.table(row[name + "_ID"]).value.mass);
              r.value == geo.fromPtEtaPhiM(geo.pt(stored.P3()), geo.eta(stored.P3()), geo.phi(stored.P3()), setup.table(newId).value.mass)
  {
    var px :- GetItem(row, name + "_PX");
    var py :- GetItem(row, name + "_PY");
    var pz :- GetItem(row, name + "_PZ");
    var storedId :- GetItem(row, name + "_ID");
    var par :- FromPdgid(setup.table, storedId);
    var geo := setup.geo;
    var p3 := Vec3(px, py, pz);
    var stored := geo.fromPtEtaPhiM(geo.pt(p3), geo.eta(p3), geo.phi(p3), par.mass);
    var swapped :- FromPdgid(setup.table, newId);
    Ok(geo.fromPtEtaPhiM(geo.pt(stored.P3()), geo.eta(stored.P3()), geo.phi(stored.P3()), swapped.mass))
  }

  /** The vectors of all particles of `parts`, in order; the first failure raises. */
  function SwappedVectors(row: Record, parts: seq<(string, Value)>, setup: Setup): (r: Result<seq<Vec4>>)
    ensures r.Ok? <==> forall k | 0 <= k < |parts| :: SwappedVector(row, parts[k].0, parts[k].1, setup).Ok?
    ensures r.Ok? ==> |r.value| == |parts|
                      && forall k | 0 <= k < |parts| :: r.value[k] == SwappedVector(row, parts[k].0, parts[k].1, setup).value
    decreases |parts|
  {
    if parts == [] then Ok([])
    else
      var init := parts[..|parts| - 1];
      var last := parts[|parts| - 1];
      assert forall k | 0 <= k < |init| :: init[k] == parts[k];
      var vecs :- SwappedVectors(row, init, setup);
      var v :- SwappedVector(row, last.0, last.1, setup);
      Ok(vecs + [v])
  }

  lemma SwappedVectorsStep(row: Record, parts: seq<(string, Value)>, i: nat, setup: Setup)
    requires i < |parts|
    ensures SwappedVectors(row, parts[..i + 1], setup)
            == (var vecs :- SwappedVectors(row, parts[..i], setup);
                var v :- SwappedVector(row, parts[i].0, parts[i].1, setup);
                Ok(vecs + [v]))
  {
    assert parts[..i + 1][..i] == parts[..i];
  }

  lemma {:induction false} SwappedVectorsErrExtends(row: Record, parts: seq<(string, Value)>, j: nat, setup: Setup)
    requires j <= |parts| && SwappedVectors(row, parts[..j], setup).Err?
    ensures SwappedVectors(row, parts, setup) == SwappedVectors(row, parts[..j], setup)
    decreases |parts| - j
  {
    if j < |parts| {
      var init := parts[..|parts| - 1];
      assert init[..j] == parts[..j];
      SwappedVectorsErrExtends(row, init, j, setup);
    } else {
      assert parts[..j] == parts;
    }
  }

  /** The mass of the two particles of `parts`, `float(vec.mass)`; any other
      number of particles raises once all vectors are built. */
  function BuildMassSpec(row: Record, parts: seq<(string, Value)>, setup: Setup): (r: Result<Value>)
  {
    var vecs :- SwappedVectors(row, parts, setup);
    if |vecs| != 2 then Err(ValueError("Not found two and only two particles"))
    else Ok(setup.geo.mass(Add(vecs[0], vecs[1])))
  }

  /** The arity check of `_build_mass`: a mass exists only for exactly two
      particles, and then it is the mass of the sum of their swapped vectors. */
  lemma BuildMassArity(row: Record, parts: seq<(string, Value)>, setup: Setup)
    ensures BuildMassSpec(row, parts, setup).Ok? <==>
              |parts| == 2 && SwappedVector(row, parts[0].0, parts[0].1, setup).Ok?
              && SwappedVector(row, parts[1].0, parts[1].1, setup).Ok?
    ensures BuildMassSpec(row, parts, setup).Ok? ==>
              BuildMassSpec(row, parts, setup).value
              == setup.geo.mass(Add(SwappedVector(row, parts[0].0, parts[0].1, setup).value,
                                    SwappedVector(row, parts[1].0, parts[1].1, setup).value))
    ensures |parts| != 2 && SwappedVectors(row, parts, setup).Ok? ==>
              BuildMassSpec(row, parts, setup) == Err(ValueError("Not found two and only two particles"))
  {
    if |parts| == 2 && SwappedVector(row, parts[0].0, parts[0].1, setup).Ok?
       && SwappedVector(row, parts[1].0, parts[1].1, setup).Ok? {
      assert parts == [parts[0], parts[1]];
    }
  }

  /** The dict literal `{had_name: had_id, lep_name: lep_id}`: with equal
      names it collapses to one entry holding the later value. */
  function Pair(hadName: string, hadId: Value, lepName: string, lepId: Value): (r: seq<(string, Value)>)
    ensures IsDict(r)
    ensures hadName == lepName ==> r == [(hadName, lepId)]
    ensures hadName != lepName ==> r == [(hadName, hadId), (lepName, lepId)]
  {
    if hadName == lepName then [(hadName, lepId)] else [(hadName, hadId), (lepName, lepId)]
  }

  /** A hadron and a lepton of the same name give a one-entry dict, which
      `_build_mass` rejects once the vector is built. */
  lemma CollapsedPairRaises(row: Record, name: string, hadId: Value, lepId: Value, setup: Setup)
    requires SwappedVector(row, name, lepId, setup).Ok?
    ensures BuildMassSpec(row, Pair(name, hadId, name, lepId), setup) == Err(ValueError("Not found two and only two particles"))
  {
    BuildMassArity(row, Pair(name, hadId, name, lepId), setup);
  }

  // ---------------------------------------------------------------------
  // _combine

  /** The hadron of `_combine`: its name, the id stored in the row, its
      charge, and the id to swap in. */
  datatype Hadron = Hadron(name: string, storedId: Value, charge: real, newId: int)

  /** The charge rule: opposite-sign pairs unless same-sign mode is on, and
      then only same-sign pairs. */
  predicate ChargeSelected(lepCharge: real, hadCharge: real, useSs: bool) {
    lepCharge == hadCharge <==> useSs
  }

  /** The pair `_build_mass` is given: the new ids for `swp`, the stored ones otherwise. */
  function PairFor(row: Record, had: Hadron, kind: string, lep: (string, int)): seq<(string, Value)>
    requires lep.0 + "_ID" in row
  {
    var lepId := if kind == "swp" then Id(lep.1) else row[lep.0 + "_ID"];
    var hadId := if kind == "swp" then Id(had.newId) else had.storedId;
    Pair(had.name, hadId, lep.0, lepId)
  }

  /** The lepton `_combine` pairs with the hadron: its id must be known and
      its charge must pass the sign rule. */
  predicate Selected(row: Record, hadCharge: real, lep: (string, int), useSs: bool, table: PdgTable) {
    lep.0 + "_ID" in row && table(row[lep.0 + "_ID"]).Some?
    && ChargeSelected(table(row[lep.0 + "_ID"]).value.charge, hadCharge, useSs)
  }

  /** One turn of the loop of `_combine`: None when the lepton is skipped,
      otherwise the mass of the pair. */
  function LeptonMass(row: Record, had: Hadron, kind: string, lep: (string, int), useSs: bool, setup: Setup): Result<Option<Value>>
  {
    var storedLepId :- GetItem(row, lep.0 + "_ID");
    var particle :- FromPdgid(setup.table, storedLepId);
    if particle.charge == had.charge && !useSs then Ok(None)
    else if particle.charge != had.charge && useSs then Ok(None)
    else
      var mass :- BuildMassSpec(row, PairFor(row, had, kind, lep), setup);
      Ok(Some(mass))
  }

  /** A lepton whose id is known but whose charge fails the sign rule is
      skipped; one that passes it contributes the mass of its pair, built
      with the ids `kind` chooses; an unknown id or a missing column raises. */
  lemma LeptonMassRule(row: Record, had: Hadron, kind: string, lep: (string, int), useSs: bool, setup: Setup)
    ensures LeptonMass(row, had, kind, lep, useSs, setup).Ok? ==> lep.0 + "_ID" in row && setup.table(row[lep.0 + "_ID"]).Some?
    ensures LeptonMass(row, had, kind, lep, useSs, setup) == Ok(None) <==>
              lep.0 + "_ID" in row && setup.table(row[lep.0 + "_ID"]).Some?
              && !ChargeSelected(setup.table(row[lep.0 + "_ID"]).value.charge, had.charge, useSs)
    ensures Selected(row, had.charge, lep, useSs, setup.table) ==>
              LeptonMass(row, had, kind, lep, useSs, setup)
              == (var m :- BuildMassSpec(row, PairFor(row, had, kind, lep), setup); Ok(Some(m)))
  {
  }

  /** `l_mass` once the loop has gone through `leps`. */
  function Masses(row: Record, had: Hadron, kind: string, leps: seq<(string, int)>, useSs: bool, setup: Setup): (r: Result<seq<Value>>)
    decreases |leps|
  {
    if leps == [] then Ok([])
    else
      var masses :- Masses(row, had, kind, leps[..|leps| - 1], useSs, setup);
      var m :- LeptonMass(row, had, kind, leps[|leps| - 1], useSs, setup);
      Ok(masses + if m.Some? then [m.value] else [])
  }

  lemma MassesStep(row: Record, had: Hadron, kind: string, leps: seq<(string, int)>, i: nat, useSs: bool, setup: Setup)
    requires i < |leps|
    ensures Masses(row, had, kind, leps[..i + 1], useSs, setup)
            == (var masses :- Masses(row, had, kind, leps[..i], useSs, setup);
                var m :- LeptonMass(row, had, kind, leps[i], useSs, setup);
                Ok(masses + if m.Some? then [m.value] else []))
  {
    assert leps[..i + 1][..i] == leps[..i];
  }

  lemma {:induction false} MassesErrExtends(row: Record, had: Hadron, kind: string, leps: seq<(string, int)>, j: nat, useSs: bool, setup: Setup)
    requires j <= |leps| && Masses(row, had, kind, leps[..j], useSs, setup).Err?
    ensures Masses(row, had, kind, leps, useSs, setup) == Masses(row, had, kind, leps[..j], useSs, setup)
    decreases |leps| - j
  {
    if j < |leps| {
      var init := leps[..|leps| - 1];
      assert init[..j] == leps[..j];
      MassesErrExtends(row, had, kind, init, j, useSs, setup);
    } else {
      assert leps[..j] == leps;
    }
  }

  /** `l_mass` built from the outcomes of the loop's turns, in order: the
      first failing turn raises, skipped turns add nothing. */
  function Collect(outs: seq<Result<Option<Value>>>): Result<seq<Value>>
  {
    if outs == [] then Ok([])
    else
      var ms :- Collect(outs[..|outs| - 1]);
      var m :- outs[|outs| - 1];
      Ok(ms + if m.Some? then [m.value] else [])
  }

  /** A successful collection: every turn succeeded, nothing is collected iff
      every turn skipped, and the first entry comes from the first turn that
      did not skip. */
  lemma {:induction false} CollectSelect(outs: seq<Result<Option<Value>>>)
    requires Collect(outs).Ok?
    ensures forall k | 0 <= k < |outs| :: outs[k].Ok?
    ensures var ms := Collect(outs).value;
            && (ms == [] <==> forall k | 0 <= k < |outs| :: outs[k] == Ok(None))
            && (ms != [] ==> exists k | 0 <= k < |outs| ::
                               outs[k] == Ok(Some(ms[0])) && forall j | 0 <= j < k :: outs[j] == Ok(None))
    decreases |outs|
  {
    if outs != [] {
      var init, last := outs[..|outs| - 1], outs[|outs| - 1];
      CollectSelect(init);
      assert forall k | 0 <= k < |init| :: init[k] == outs[k];
      var prev := Collect(init).value;
      var ms := Collect(outs).value;
      if prev != [] {
        var k :| 0 <= k < |init| && init[k] == Ok(Some(prev[0])) && forall j | 0 <= j < k :: init[j] == Ok(None);
        assert ms[0] == prev[0];
      } else if last.value.Some? {
        assert ms[0] == last.value.value;
      }
    }
  }

  /** The outcomes of the loop's turns over `leps`. */
  function Turns(row: Record, had: Hadron, kind: string, leps: seq<(string, int)>, useSs: bool, setup: Setup): (r: seq<Result<Option<Value>>>)
    ensures |r| == |leps| && forall k | 0 <= k < |leps| :: r[k] == LeptonMass(row, had, kind, leps[k], useSs, setup)
  {
    seq(|leps|, k requires 0 <= k < |leps| => LeptonMass(row, had, kind, leps[k], useSs, setup))
  }

  lemma {:induction false} MassesCollect(row: Record, had: Hadron, kind: string, leps: seq<(string, int)>, useSs: bool, setup: Setup)
    ensures Masses(row, had, kind, leps, useSs, setup) == Collect(Turns(row, had, kind, leps, useSs, setup))
    decreases |leps|
  {
    if leps != [] {
      var init := leps[..|leps| - 1];
      MassesCollect(row, had, kind, init, useSs, setup);
      var turns := Turns(row, had, kind, leps, useSs, setup);
      assert turns[..|turns| - 1] == Turns(row, had, kind, init, useSs, setup);
    }
  }

  /** The masses are those of the selected leptons, in order: none at all
      when no lepton is selected, and first the first selected one's. */
  lemma MassesSelect(row: Record, had: Hadron, kind: string, leps: seq<(string, int)>, useSs: bool, setup: Setup)
    requires Masses(row, had, kind, leps, useSs, setup).Ok?
    ensures forall k | 0 <= k < |leps| :: LeptonMass(row, had, kind, leps[k], useSs, setup).Ok?
    ensures var ms := Masses(row, had, kind, leps, useSs, setup).value;
            && (ms == [] <==> forall k | 0 <= k < |leps| :: LeptonMass(row, had, kind, leps[k], useSs, setup) == Ok(None))
            && (ms != [] ==> exists k | 0 <= k < |leps| ::
                               && LeptonMass(row, had, kind, leps[k], useSs, setup) == Ok(Some(ms[0]))
                               && forall j | 0 <= j < k :: LeptonMass(row, had, kind, leps[j], useSs, setup) == Ok(None))
  {
    MassesCollect(row, had, kind, leps, useSs, setup);
    CollectSelect(Turns(row, had, kind, leps, useSs, setup));
  }

  /** `_combine(row, had_name, kind, new_had_id)` with the calculator's
      lepton dict and sign mode: the first mass found, or -999. */
  function CombineSpec(row: Record, hadName: string, kind: string, newHadId: int, leps: seq<(string, int)>, useSs: bool, setup: Setup): (r: Result<Value>)
  {
    var stored :- GetItem(row, hadName + "_ID");
    var particle :- FromPdgid(setup.table, stored);
    var masses :- Masses(row, Hadron(hadName, stored, particle.charge, newHadId), kind, leps, useSs, setup);
    if masses == [] then Ok(Num(-999.0)) else Ok(masses[0])
  }

  /** The combination rule: with no lepton passing the sign rule the result
      is -999; otherwise it is the mass built from the first lepton that
      passes, in the lepton dict's order, with the ids `kind` chooses. */
  lemma CombineRule(row: Record, hadName: string, kind: string, newHadId: int, leps: seq<(string, int)>, useSs: bool, setup: Setup)
    requires CombineSpec(row, hadName, kind, newHadId, leps, useSs, setup).Ok?
    ensures hadName + "_ID" in row && setup.table(row[hadName + "_ID"]).Some?
    ensures var v := CombineSpec(row, hadName, kind, newHadId, leps, useSs, setup).value;
            var had := Hadron(hadName, row[hadName + "_ID"], setup.table(row[hadName + "_ID"]).value.charge, newHadId);
            && ((forall k | 0 <= k < |leps| :: !Selected(row, had.charge, leps[k], useSs, setup.table)) ==> v == Num(-999.0))
            && forall k | 0 <= k < |leps| && Selected(row, had.charge, leps[k], useSs, setup.table)
                          && (forall j | 0 <= j < k :: !Selected(row, had.charge, leps[j], useSs, setup.table)) ::
                 Ok(v) == BuildMassSpec(row, PairFor(row, had, kind, leps[k]), setup)
  {
    var had := Hadron(hadName, row[hadName + "_ID"], setup.table(row[hadName + "_ID"]).value.charge, newHadId);
    var v := CombineSpec(row, hadName, kind, newHadId, leps, useSs, setup).value;
    MassesSelect(row, had, kind, leps, useSs, setup);
    var ms := Masses(row, had, kind, leps, useSs, setup).value;
    assert v == if ms == [] then Num(-999.0) else ms[0];
    if forall k | 0 <= k < |leps| :: !Selected(row, had.charge, leps[k], useSs, setup.table) {
      forall k | 0 <= k < |leps| ensures LeptonMass(row, had, kind, leps[k], useSs, setup) == Ok(None) {
        LeptonMassRule(row, had, kind, leps[k], useSs, setup);
      }
    }
    forall k | 0 <= k < |leps| && Selected(row, had.charge, leps[k], useSs, setup.table)
                 && (forall j | 0 <= j < k :: !Selected(row, had.charge, leps[j], useSs, setup.table))
      ensures Ok(v) == BuildMassSpec(row, PairFor(row, had, kind, leps[k]), setup)
    {
      FirstSelected(row, had, kind, leps, useSs, setup, k);
    }
  }

  /** The first lepton that passes the sign rule is the one whose mass comes
      first. */
  lemma FirstSelected(row: Record, had: Hadron, kind: string, leps: seq<(string, int)>, useSs: bool, setup: Setup, k: nat)
    requires Masses(row, had, kind, leps, useSs, setup).Ok?
    requires k < |leps| && Selected(row, had.charge, leps[k], useSs, setup.table)
    requires forall j | 0 <= j < k :: !Selected(row, had.charge, leps[j], useSs, setup.table)
    ensures var ms := Masses(row, had, kind, leps, useSs, setup).value;
            ms != [] && Ok(ms[0]) == BuildMassSpec(row, PairFor(row, had, kind, leps[k]), setup)
  {
    MassesSelect(row, had, kind, leps, useSs, setup);
    var ms := Masses(row, had, kind, leps, useSs, setup).value;
    LeptonMassRule(row, had, kind, leps[k], useSs, setup);
    assert LeptonMass(row, had, kind, leps[k], useSs, setup) != Ok(None);
    var k' :| 0 <= k' < |leps| && LeptonMass(row, had, kind, leps[k'], useSs, setup) == Ok(Some(ms[0]))
              && forall j | 0 <= j < k' :: LeptonMass(row, had, kind, leps[j], useSs, setup) == Ok(None);
    LeptonMassRule(row, had, kind, leps[k'], useSs, setup);
    assert k' == k;
  }

  /** `org` masses use only the ids stored in the row: the ids asked for
      (the hadron's and the leptons') make no difference. */
  lemma {:induction false} OrgIgnoresNewIds(row: Record, had: Hadron, newHadId: int, leps: seq<(string, int)>, leps': seq<(string, int)>, useSs: bool, setup: Setup)
    requires Names(leps) == Names(leps')
    ensures Masses(row, had, "org", leps, useSs, setup) == Masses(row, had.(newId := newHadId), "org", leps', useSs, setup)
    decreases |leps|
  {
    if leps != [] {
      var n := |leps|;
      var init, init' := leps[..n - 1], leps'[..n - 1];
      assert forall k | 0 <= k < n - 1 :: init[k].0 == Names(leps)[k] == Names(leps')[k] == init'[k].0;
      assert Names(init) == Names(init');
      OrgIgnoresNewIds(row, had, newHadId, init, init', useSs, setup);
      assert leps[n - 1].0 == Names(leps)[n - 1] == leps'[n - 1].0;
      LeptonMassOrg(row, had, newHadId, leps[n - 1], leps'[n - 1], useSs, setup);
    }
  }

  /** One lepton's `org` mass does not depend on the ids asked for. */
  lemma LeptonMassOrg(row: Record, had: Hadron, newHadId: int, lep: (string, int), lep': (string, int), useSs: bool, setup: Setup)
    requires lep.0 == lep'.0
    ensures LeptonMass(row, had, "org", lep, useSs, setup) == LeptonMass(row, had.(newId := newHadId), "org", lep', useSs, setup)
  {
    if lep.0 + "_ID" in row {
      assert PairFor(row, had, "org", lep) == PairFor(row, had.(newId := newHadId), "org", lep');
    }
  }

  /** `swp` masses use the ids asked for and never the stored lepton ids. */
  lemma SwpUsesNewIds(row: Record, had: Hadron, lep: (string, int))
    requires lep.0 + "_ID" in row && had.name != lep.0
    ensures PairFor(row, had, "swp", lep) == [(had.name, Id(had.newId)), (lep.0, Id(lep.1))]
    ensures PairFor(row, had, "org", lep) == [(had.name, had.storedId), (lep.0, row[lep.0 + "_ID"])]
  {
  }

  /** The column `_calculate_mass` produces: `_combine` on every row, in
      order; the first failing row raises. */
  function MassColumn(rows: seq<Record>, hadName: string, kind: string, newHadId: int, leps: seq<(string, int)>, useSs: bool, setup: Setup): (r: Result<seq<Value>>)
    ensures r.Ok? ==> |r.value| == |rows|
    ensures r.Ok? ==> forall i | 0 <= i < |rows| :: CombineSpec(rows[i], hadName, kind, newHadId, leps, useSs, setup) == Ok(r.value[i])
    ensures r.Ok? <==> forall i | 0 <= i < |rows| :: CombineSpec(rows[i], hadName, kind, newHadId, leps, useSs, setup).Ok?
    decreases |rows|
  {
    if rows == [] then Ok([])
    else
      var init := rows[..|rows| - 1];
      assert forall i | 0 <= i < |init| :: init[i] == rows[i];
      var column :- MassColumn(init, hadName, kind, newHadId, leps, useSs, setup);
      var v :- CombineSpec(rows[|rows| - 1], hadName, kind, newHadId, leps, useSs, setup);
      Ok(column + [v])
  }

  lemma {:induction false} MassColumnErrExtends(rows: seq<Record>, hadName: string, kind: string, newHadId: int, leps: seq<(string, int)>, useSs: bool, setup: Setup, j: nat)
    requires j <= |rows| && MassColumn(rows[..j], hadName, kind, newHadId, leps, useSs, setup).Err?
    ensures MassColumn(rows, hadName, kind, newHadId, leps, useSs, setup) == MassColumn(rows[..j], hadName, kind, newHadId, leps, useSs, setup)
    decreases |rows| - j
  {
    if j < |rows| {
      var init := rows[..|rows| - 1];
      assert init[..j] == rows[..j];
      MassColumnErrExtends(init, hadName, kind, newHadId, leps, useSs, setup, j);
    } else {
      assert rows[..j] == rows;
    }
  }

  // ---------------------------------------------------------------------
  // get_rdf

  function MassName(prefix: string, kind: string): string {
    prefix + "_mass_" + kind
  }

  /** The mass columns of `get_rdf` for `hadrons`: `org` then `swp` for each
      hadron in turn, under names without the hadron's, so the last hadron's
      columns are the ones left. */
  function MassColumns(rows: seq<Record>, hadrons: seq<(string, int)>, prefix: string, leps: seq<(string, int)>, useSs: bool, setup: Setup): (r: Result<map<string, seq<Value>>>)
    ensures r.Ok? && hadrons == [] ==> r.value == map[]
    ensures r.Ok? && hadrons != [] ==>
              var had := hadrons[|hadrons| - 1];
              && r.value.Keys == {MassName(prefix, "org"), MassName(prefix, "swp")}
              && Ok(r.value[MassName(prefix, "org")]) == MassColumn(rows, had.0, "org", had.1, leps, useSs, setup)
              && Ok(r.value[MassName(prefix, "swp")]) == MassColumn(rows, had.0, "swp", had.1, leps, useSs, setup)
    decreases |hadrons|
  {
    if hadrons == [] then Ok(map[])
    else
      var data :- MassColumns(rows, hadrons[..|hadrons| - 1], prefix, leps, useSs, setup);
      var had := hadrons[|hadrons| - 1];
      var org :- MassColumn(rows, had.0, "org", had.1, leps, useSs, setup);
      var swp :- MassColumn(rows, had.0, "swp", had.1, leps, useSs, setup);
      assert MassName(prefix, "org") != MassName(prefix, "swp") by {
        assert MassName(prefix, "org")[|prefix| + 6] == 'o';
        assert MassName(prefix, "swp")[|prefix| + 6] == 's';
      }
      Ok(data[MassName(prefix, "org") := org][MassName(prefix, "swp") := swp])
  }

  /** A ROOT dataframe: its column names and its entries, every entry
      holding every column. */
  datatype Frame = Frame(columns: set<string>, rows: seq<Record>) {
    predicate Valid() {
      forall i | 0 <= i < |rows| :: rows[i].Keys == columns
    }
  }

  /** The values of column `c` over all rows. */
  function Column(rows: seq<Record>, c: string): (r: seq<Value>)
    requires forall i | 0 <= i < |rows| :: c in rows[i]
    ensures |r| == |rows| && forall i | 0 <= i < |rows| :: r[i] == rows[i][c]
  {
    if rows == [] then [] else [rows[0][c]] + Column(rows[1..], c)
  }

  const EXTRA_BRANCHES: seq<string> := ["EVENTNUMBER", "RUNNUMBER"]

  /** `rdf.AsNumpy(names)`: the named columns; a missing one raises. */
  function AsNumpy(rdf: Frame, names: seq<string>): (r: Result<map<string, seq<Value>>>)
    requires rdf.Valid()
    ensures r.Ok? <==> forall k | 0 <= k < |names| :: names[k] in rdf.columns
    ensures r.Ok? ==> r.value.Keys == set k | 0 <= k < |names| :: names[k]
    ensures r.Ok? ==> forall c | c in r.value :: r.value[c] == Column(rdf.rows, c)
  {
    match FirstAbsent(names, rdf.columns)
    case None => Ok(map c | c in names :: Column(rdf.rows, c))
    case Some(c) => Err(KeyError(c))
  }

  /** The first of `names` that is not a column. */
  function FirstAbsent(names: seq<string>, columns: set<string>): (r: Option<string>)
    ensures r.None? <==> forall k | 0 <= k < |names| :: names[k] in columns
    ensures r.Some? ==> r.value in names && r.value !in columns
  {
    if names == [] then None
    else if names[0] !in columns then Some(names[0])
    else
      assert forall k | 1 <= k < |names| :: names[k] == names[1..][k - 1];
      FirstAbsent(names[1..], columns)
  }

  /** The output of `get_rdf` once the calculator is initialised: the mass
      columns, then `EVENTNUMBER` and `RUNNUMBER` from the input dataframe. */
  function Output(rdf: Frame, rows: seq<Record>, hadrons: seq<(string, int)>, prefix: string, leps: seq<(string, int)>, useSs: bool, setup: Setup): (r: Result<map<string, seq<Value>>>)
    requires rdf.Valid()
  {
    var masses :- MassColumns(rows, hadrons, prefix, leps, useSs, setup);
    var extra :- AsNumpy(rdf, EXTRA_BRANCHES);
    Ok(masses + extra)
  }

  /** The columns `get_rdf` writes: `{preffix}_mass_org`, `{preffix}_mass_swp`
      (those of the last hadron), `EVENTNUMBER` and `RUNNUMBER` copied from
      the input. */
  lemma OutputColumns(rdf: Frame, rows: seq<Record>, hadrons: seq<(string, int)>, prefix: string, leps: seq<(string, int)>, useSs: bool, setup: Setup)
    requires rdf.Valid() && hadrons != []
    requires Output(rdf, rows, hadrons, prefix, leps, useSs, setup).Ok?
    ensures var out := Output(rdf, rows, hadrons, prefix, leps, useSs, setup).value;
            var had := hadrons[|hadrons| - 1];
            && out.Keys == {MassName(prefix, "org"), MassName(prefix, "swp"), "EVENTNUMBER", "RUNNUMBER"}
            && Ok(out[MassName(prefix, "org")]) == MassColumn(rows, had.0, "org", had.1, leps, useSs, setup)
            && Ok(out[MassName(prefix, "swp")]) == MassColumn(rows, had.0, "swp", had.1, leps, useSs, setup)
            && out["EVENTNUMBER"] == Column(rdf.rows, "EVENTNUMBER")
            && out["RUNNUMBER"] == Column(rdf.rows, "RUNNUMBER")
  {
    var org, swp := MassName(prefix, "org"), MassName(prefix, "swp");
    var masses := MassColumns(rows, hadrons, prefix, leps, useSs, setup).value;
    var extra := AsNumpy(rdf, EXTRA_BRANCHES).value;
    var out := Output(rdf, rows, hadrons, prefix, leps, useSs, setup).value;
    assert out == masses + extra;
    assert masses.Keys == {org, swp};
    assert extra.Keys == {"EVENTNUMBER", "RUNNUMBER"} by {
      assert (set k | 0 <= k < |EXTRA_BRANCHES| :: EXTRA_BRANCHES[k]) == {"EVENTNUMBER", "RUNNUMBER"} by {
        assert EXTRA_BRANCHES[0] == "EVENTNUMBER" && EXTRA_BRANCHES[1] == "RUNNUMBER";
      }
    }
    // the mass names end in "g" or "p", the copied ones in "R"
    assert org[|org| - 1] == 'g' && swp[|swp| - 1] == 'p';
    assert "EVENTNUMBER"[10] == 'R' && "RUNNUMBER"[8] == 'R';
    assert org !in extra && swp !in extra;
    assert out[org] == masses[org] && out[swp] == masses[swp];
    assert out["EVENTNUMBER"] == extra["EVENTNUMBER"] && out["RUNNUMBER"] == extra["RUNNUMBER"];
  }

  /** The calculator object: the dataframe it was built from, the lepton and
      hadron dicts, and the two fields `get_rdf` and `_initialize` set. */
  class SwpCalculator {
    const rdf: Frame
    const leptons: seq<(string, int)>
    const hadrons: seq<(string, int)>
    const setup: Setup
    /** `self._df`: the entries with the picked columns only */
    const df: seq<Record>
    var useSs: bool
    var initialized: bool

    constructor (rdf: Frame, leptons: seq<(string, int)>, hadrons: seq<(string, int)>, setup: Setup)
      requires rdf.Valid() && IsDict(leptons) && IsDict(hadrons)
      ensures this.rdf == rdf && this.leptons == leptons && this.hadrons == hadrons && this.setup == setup
      ensures |df| == |rdf.rows|
      ensures forall i | 0 <= i < |df| :: df[i] == PickedRow(rdf.rows[i], Names(leptons) + Names(hadrons))
      ensures !initialized
    {
      this.rdf := rdf;
      this.leptons := leptons;
      this.hadrons := hadrons;
      this.setup := setup;
      var particles := Names(leptons) + Names(hadrons);
      this.df := seq(|rdf.rows|, i requires 0 <= i < |rdf.rows| => PickedRow(rdf.rows[i], particles));
      // `self._use_ss` is only declared; `get_rdf` sets it before any use
      this.useSs := false;
      this.initialized := false;
    }

    /** `_initialize()`: the particle checks run on the first successful
        call only; later calls do nothing. */
    method Initialize() returns (r: Result<()>)
      modifies this`initialized
      ensures old(initialized) ==> r == Ok(()) && initialized
      ensures !old(initialized) ==>
                && (CheckIds(Ids(leptons), setup.table).Err? ==> r == CheckIds(Ids(leptons), setup.table))
                && (CheckIds(Ids(leptons), setup.table).Ok? ==> r == CheckIds(Ids(hadrons), setup.table))
                && (initialized <==> r.Ok?)
    {
      if initialized {
        return Ok(());
      }
      r := CheckParticle(leptons, setup.table);
      if r.Err? {
        return;
      }
      r := CheckParticle(hadrons, setup.table);
      if r.Err? {
        return;
      }
      initialized := true;
    }

    /** The loop of `_build_mass`: the vector of every particle, in order. */
    method BuildVectors(row: Record, parts: seq<(string, Value)>) returns (r: Result<seq<Vec4>>)
      ensures r == SwappedVectors(row, parts, setup)
    {
      var vecs: seq<Vec4> := [];
      for i := 0 to |parts|
        invariant SwappedVectors(row, parts[..i], setup) == Ok(vecs)
      {
        SwappedVectorsStep(row, parts, i, setup);
        var v := SwappedVector(row, parts[i].0, parts[i].1, setup);
        if v.Err? {
          SwappedVectorsErrExtends(row, parts, i + 1, setup);
          return Err(v.error);
        }
        vecs := vecs + [v.value];
      }
      assert parts[..|parts|] == parts;
      r := Ok(vecs);
    }

    /** `_build_mass(row, d_part)` */
    method BuildMass(row: Record, parts: seq<(string, Value)>) returns (r: Result<Value>)
      ensures r == BuildMassSpec(row, parts, setup)
    {
      var vecs := BuildVectors(row, parts);
      if vecs.Err? {
        return Err(vecs.error);
      }
      if |vecs.value| != 2 {
        return Err(ValueError("Not found two and only two particles"));
      }
      r := Ok(setup.geo.mass(Add(vecs.value[0], vecs.value[1])));
    }

    /** The loop of `_combine`: the masses of the leptons that pass the sign
        rule, in the lepton dict's order. */
    method CombineMasses(row: Record, had: Hadron, kind: string) returns (r: Result<seq<Value>>)
      ensures r == Masses(row, had, kind, leptons, useSs, setup)
    {
      var masses: seq<Value> := [];
      for i := 0 to |leptons|
        invariant Masses(row, had, kind, leptons[..i], useSs, setup) == Ok(masses)
      {
        var lep := leptons[i];
        MassesStep(row, had, kind, leptons, i, useSs, setup);
        var storedLep := GetItem(row, lep.0 + "_ID");
        if storedLep.Err? {
          MassesErrExtends(row, had, kind, leptons, i + 1, useSs, setup);
          return Err(storedLep.error);
        }
        var particle := FromPdgid(setup.table, storedLep.value);
        if particle.Err? {
          MassesErrExtends(row, had, kind, leptons, i + 1, useSs, setup);
          return Err(particle.error);
        }
        if particle.value.charge == had.charge && !useSs {
          assert masses + [] == masses;
          continue;
        }
        if particle.value.charge != had.charge && useSs {
          assert masses + [] == masses;
          continue;
        }
        var lepId := if kind == "swp" then Id(lep.1) else storedLep.value;
        var hadId := if kind == "swp" then Id(had.newId) else had.storedId;
        var mass := BuildMass(row, Pair(had.name, hadId, lep.0, lepId));
        if mass.Err? {
          MassesErrExtends(row, had, kind, leptons, i + 1, useSs, setup);
          return Err(mass.error);
        }
        masses := masses + [mass.value];
      }
      assert leptons[..|leptons|] == leptons;
      r := Ok(masses);
    }

    /** `_combine(row, had_name, kind, new_had_id)` */
    method Combine(row: Record, hadName: string, kind: string, newHadId: int) returns (r: Result<Value>)
      ensures r == CombineSpec(row, hadName, kind, newHadId, leptons, useSs, setup)
    {
      var stored := GetItem(row, hadName + "_ID");
      if stored.Err? {
        return Err(stored.error);
      }
      var hadron := FromPdgid(setup.table, stored.value);
      if hadron.Err? {
        return Err(hadron.error);
      }
      var masses := CombineMasses(row, Hadron(hadName, stored.value, hadron.value.charge, newHadId), kind);
      if masses.Err? {
        return Err(masses.error);
      }
      if |masses.value| == 0 {
        return Ok(Num(-999.0));
      }
      r := Ok(masses.value[0]);
    }

    /** `_calculate_mass(progress_bar, had_name, kind, new_had_id)`: `_combine`
        applied to every row of the dataframe. */
    method CalculateMass(hadName: string, kind: string, newHadId: int) returns (r: Result<seq<Value>>)
      ensures r == MassColumn(df, hadName, kind, newHadId, leptons, useSs, setup)
    {
      var column: seq<Value> := [];
      for i := 0 to |df|
        invariant MassColumn(df[..i], hadName, kind, newHadId, leptons, useSs, setup) == Ok(column)
      {
        assert df[..i + 1][..i] == df[..i];
        var v := Combine(df[i], hadName, kind, newHadId);
        if v.Err? {
          MassColumnErrExtends(df, hadName, kind, newHadId, leptons, useSs, setup, i + 1);
          return Err(v.error);
        }
        column := column + [v.value];
      }
      assert df[..|df|] == df;
      r := Ok(column);
    }

    /** `get_rdf(preffix, progress_bar, use_ss)`: sets the sign mode,
        initialises once, then builds the mass columns hadron by hadron and
        adds the two event-identifying columns. */
    method GetRdf(prefix: string, useSs: bool) returns (r: Result<map<string, seq<Value>>>)
      requires rdf.Valid()
      modifies this
      ensures this.useSs == useSs
      ensures initialized <==> old(initialized) || (CheckIds(Ids(leptons), setup.table).Ok? && CheckIds(Ids(hadrons), setup.table).Ok?)
      ensures !initialized ==> r.Err? && r.error.ValueError?
      ensures initialized ==> r == Output(rdf, df, hadrons, prefix, leptons, useSs, setup)
    {
      this.useSs := useSs;
      var init := Initialize();
      if init.Err? {
        return Err(init.error);
      }
      var data: map<string, seq<Value>> := map[];
      for h := 0 to |hadrons|
        invariant this.useSs == useSs && initialized
        invariant MassColumns(df, hadrons[..h], prefix, leptons, useSs, setup) == Ok(data)
      {
        var had := hadrons[h];
        assert hadrons[..h + 1][..h] == hadrons[..h] && hadrons[..h + 1][h] == had;
        var org := CalculateMass(had.0, "org", had.1);
        if org.Err? {
          MassColumnsErrExtends(df, hadrons, prefix, leptons, useSs, setup, h + 1);
          return Err(org.error);
        }
        data := data[MassName(prefix, "org") := org.value];
        var swp := CalculateMass(had.0, "swp", had.1);
        if swp.Err? {
          MassColumnsErrExtends(df, hadrons, prefix, leptons, useSs, setup, h + 1);
          return Err(swp.error);
        }
        data := data[MassName(prefix, "swp") := swp.value];
      }
      assert hadrons[..|hadrons|] == hadrons;
      var extra := AsNumpy(rdf, EXTRA_BRANCHES);
      if extra.Err? {
        return Err(extra.error);
      }
      r := Ok(data + extra.value);
    }
  }

  lemma {:induction false} MassColumnsErrExtends(rows: seq<Record>, hadrons: seq<(string, int)>, prefix: string, leps: seq<(string, int)>, useSs: bool, setup: Setup, j: nat)
    requires j <= |hadrons| && MassColumns(rows, hadrons[..j], prefix, leps, useSs, setup).Err?
    ensures MassColumns(rows, hadrons, prefix, leps, useSs, setup) == MassColumns(rows, hadrons[..j], prefix, leps, useSs, setup)
    decreases |hadrons| - j
  {
    if j < |hadrons| {
      var init := hadrons[..|hadrons| - 1];
      assert init[..j] == hadrons[..j];
      MassColumnsErrExtends(rows, init, prefix, leps, useSs, setup, j);
    } else {
      assert hadrons[..j] == hadrons;
    }
  }
}
