# rx_data: corrections, classifiers and batch planning in Dafny

This project models the decision and bookkeeping core of the `rx_data` package. The package post-processes LHCb ntuples for the R(X) analyses. The model covers five pieces:

- **ElectronBias**: the electron brem decision engine.
  - For one lepton slot (`L1`/`L2`) of a candidate row it runs one of three strategies: `ecalo_bias`, `brem_track_1` or `brem_track_2`.
  - Each strategy sets a brem status (-1 untouched, 0 no brem added, 1 brem added) and yields a corrected electron or nothing.
  - `correct` then writes the electron kinematics and the brem flag back into the row in place.
  - Modules: `ElectronBiasSpec` holds the reference functions, `ElectronBias` the imperative class, `ElectronBiasProperties` the lemmas.
- **MassBias**: the event-level glue.
  - It corrects L1, then L2, then recomputes the dilepton and B masses, the smeared masses and the DIRA values.
  - It also covers MC detection, the NaN sentinels, output suffixes and the event-id columns.
- **Utilities**: the sample and column classifiers.
  - `is_mc`, `is_ee`, `info_from_path` and its `_turbo_`/`_full_` rewrite;
  - the per-lepton preprocessing;
  - the `_pick_column` rule cascade.
- **BranchCalculator**: the batch-planning helpers of the `branch_calculator` script.
  - the greedy partition of files into groups;
  - chunk ranges, path filtering and trigger extraction;
  - the electron/MC/smear-skip classifiers;
  - the dispatch in `_process_rdf`.
- **Swp**: the mass-hypothesis swap calculator.
  - column picking and the once-only particle checks;
  - the two-particle mass, and the same-sign or opposite-sign pairing rule with its -999 sentinel;
  - the output column names.

Shared pieces:

- `PyBase`:
  - `Option` and `Result`;
  - the Python exceptions the code raises;
  - `Value`, a float that is either a real number or NaN;
  - `Record`, a row as `map<string, Value>`;
  - `Series`, a mutable pandas row shared by reference.
- `Strings`: `startswith`, `endswith`, substring search, `replace`, `str(int)` and `os.path.basename`.
- `Vectors`: three- and four-vectors with component-wise addition. pt/eta/phi, energies, invariant masses, unit photons and DIRA are function values in a `Geometry` record.

External services are function-valued parameters:

- the bias-map corrector, the feature builder and the ECAL calibration model;
- the q² smearing `get_mass`;
- the PDG particle table;
- regex extraction, `fnmatch` and file sizes.

Where the source is imperative, the model is too:

- `ElectronBiasCorrector`, `MassBiasCorrector` and `SwpCalculator` are classes whose methods update their fields and the shared `Series` row.
- Loops are `while`/`for` loops (`_rdf_is_mc`, `_get_partition`, `_check_particle`, `_combine`, `_calculate_mass`, `_build_mass`, `_pick_column` of the swap calculator).
- Each method is proved equal to a reference function, and the lemmas state the promised properties about that function.

The class docstring of `ElectronBiasCorrector` speaks of a 50 MeV threshold. The code's default minimum brem energy is 300 MeV (src/rx_data/electron_bias_corrector.py:33,40). The model follows the code.

## Model

| member | source | states |
|---|---|---|
| ElectronBiasSpec.InputErrorIsNotStatusError | src/rx_data/electron_bias_corrector.py:300-304 | an error caused by a bad input row is never one of the two status-check ValueErrors |
| ElectronBiasSpec.FirstMissing | src/rx_data/electron_bias_corrector.py:107-123 | finds a key of the list that the row lacks, and finds none exactly when every key is present |
| ElectronBiasSpec.Assign | src/rx_data/electron_bias_corrector.py:107-123 | list-label assignment keeps the key set, changes only the listed keys and gives each the last value written to it |
| ElectronBiasSpec.LocSet | src/rx_data/electron_bias_corrector.py:107-123 | `row.loc[keys] = values` succeeds iff every key exists, raises KeyError for a missing one, and otherwise behaves as Assign |
| ElectronBiasSpec.Loc3 | src/rx_data/electron_bias_corrector.py:117-121 | the three-column write succeeds iff all three columns exist; it sets exactly those three and leaves the rest alone |
| ElectronBiasSpec.Electron | src/rx_data/electron_bias_corrector.py:57-75 | the electron exists iff its three momentum columns exist; its 3-momentum is read from them and its energy uses the electron mass |
| ElectronBiasSpec.BremPhoton | src/rx_data/electron_bias_corrector.py:77-84 | the brem photon exists iff the full electron does, and track + photon equals the full electron |
| ElectronBiasSpec.BiasMapsStep | src/rx_data/electron_bias_corrector.py:181-221 | ecalo_bias: status 1 iff not skipped and the brem flag is set, in which case it adds the bias-map-corrected brem; otherwise status -1 with track + raw brem; the row is unchanged |
| ElectronBiasSpec.SyntheticPhoton | src/rx_data/electron_bias_corrector.py:237-253 | the photon is a multiple of the unit photon along the track, its energy is the requested energy, and a zero-energy unit photon divides by zero |
| ElectronBiasSpec.TrackBrem1Step | src/rx_data/electron_bias_corrector.py:223-253 | brem_track_1: with skip, status -1 and no electron; strictly below the threshold, status 0 and the track; at or above it, status 1 and track + synthetic photon |
| ElectronBiasSpec.ScaleElectron | src/rx_data/electron_bias_corrector.py:159-179 | without calibration the electron and row pass unchanged; with it, adds `L1_brem`/`L2_brem` copied from the flags, changes nothing else and returns the model's output |
| ElectronBiasSpec.TrackBrem2Step | src/rx_data/electron_bias_corrector.py:255-277 | brem_track_2: an existing brem returns the scaled full electron; no brem and below the threshold gives status -1 and nothing; otherwise the electron is the brem_track_1 electron scaled by the calibration (or left as it is when calibration is off); only the calibration columns may be added |
| ElectronBiasSpec.Dispatch | src/rx_data/electron_bias_corrector.py:293-301 | an unknown kind raises NotImplementedError; a known kind yields the status of an independent decision table, and an electron whenever the status is not -1 |
| ElectronBiasSpec.WriteBrem | src/rx_data/electron_bias_corrector.py:125-134 | status -1 leaves the row alone; 0 and 1 write the flag (KeyError when its column is missing); any other status raises ValueError |
| ElectronBiasSpec.WriteKinematics | src/rx_data/electron_bias_corrector.py:107-123 | writes PX/PY/PZ/PT/ETA/PHI of the lepton from the vector when all exist (KeyError otherwise) and nothing else |
| ElectronBiasSpec.UpdateRow | src/rx_data/electron_bias_corrector.py:102-123 | no electron leaves the row as it is; otherwise it writes the kinematics and the flag with the key set kept, the flag reflecting the status |
| ElectronBiasSpec.Corrected | src/rx_data/electron_bias_corrector.py:279-308 | `correct`: an unknown kind is an error; the status checks never fire; only the lepton's kinematics, its flag and the calibration columns change; the flag is written exactly for status 0 or 1 |
| ElectronBias.ElectronBiasCorrector.constructor | src/rx_data/electron_bias_corrector.py:33-55 | stores the skip flag and the threshold, turns ECAL calibration on, and starts with no status and no loaded corrector |
| ElectronBias.ElectronBiasCorrector.AttrFromRow | src/rx_data/electron_bias_corrector.py:136-143 | returns the column's value iff it exists, and raises ValueError naming it otherwise |
| ElectronBias.ElectronBiasCorrector.GetElectron | src/rx_data/electron_bias_corrector.py:57-75 | equals Electron on the current row |
| ElectronBias.ElectronBiasCorrector.GetEbrem | src/rx_data/electron_bias_corrector.py:77-84 | equals BremPhoton on the current row |
| ElectronBias.ElectronBiasCorrector.GetCorrector | src/rx_data/electron_bias_corrector.py:145-157 | loads the calibration model once, and later calls return the cached one without loading again |
| ElectronBias.ElectronBiasCorrector.ScaleElectron | src/rx_data/electron_bias_corrector.py:159-179 | returns ScaleElectron's electron and leaves the row equal to its row; without calibration, nothing changes |
| ElectronBias.ElectronBiasCorrector.CorrectWithBiasMaps | src/rx_data/electron_bias_corrector.py:181-221 | returns BiasMapsStep's electron and records its status |
| ElectronBias.ElectronBiasCorrector.CorrectWithTrackBrem1 | src/rx_data/electron_bias_corrector.py:223-253 | returns TrackBrem1Step's electron and records its status |
| ElectronBias.ElectronBiasCorrector.CorrectWithTrackBrem2 | src/rx_data/electron_bias_corrector.py:255-277 | returns TrackBrem2Step's electron, records its status and leaves the row as that step leaves it |
| ElectronBias.ElectronBiasCorrector.UpdateBrem | src/rx_data/electron_bias_corrector.py:125-134 | the row becomes WriteBrem of the recorded status, and is untouched on error |
| ElectronBias.ElectronBiasCorrector.UpdateRow | src/rx_data/electron_bias_corrector.py:102-123 | the row becomes UpdateRow of the recorded status and the electron |
| ElectronBias.ElectronBiasCorrector.Strategy | src/rx_data/electron_bias_corrector.py:293-301 | runs the strategy `kind` names and agrees with Dispatch: its electron, its status and its row, or its error |
| ElectronBias.ElectronBiasCorrector.Correct | src/rx_data/electron_bias_corrector.py:279-308 | the row becomes Corrected of the old row, the configuration is kept and a loaded corrector stays cached |
| ElectronBiasProperties.TrackElectron | src/rx_data/electron_bias_corrector.py:57-75 | the TRACK_ electron exists iff the TRACK_ momentum columns exist, and carries that momentum |
| ElectronBiasProperties.FullElectron | src/rx_data/electron_bias_corrector.py:57-75 | the full electron exists iff the lepton's own momentum columns exist, and carries that momentum |
| ElectronBiasProperties.TrackBrem1BelowThreshold | src/rx_data/electron_bias_corrector.py:232-235 | below the threshold, brem_track_1 writes the track momentum into the row and sets the flag to 0 |
| ElectronBiasProperties.TrackBrem1AboveThreshold | src/rx_data/electron_bias_corrector.py:233-253 | at or above the threshold (strict `<`), brem_track_1 gives status 1 and track + photon, or ZeroDivisionError for a zero unit photon |
| ElectronBiasProperties.PhotonAlongTrack | src/rx_data/electron_bias_corrector.py:237-253 | the synthetic photon has the track's eta and phi, and its energy is BREMTRACKBASEDENERGY |
| ElectronBiasProperties.TrackBrem2WithBrem | src/rx_data/electron_bias_corrector.py:259-264 | with an existing brem, brem_track_2 leaves the flag alone and, without calibration, the momentum too |
| ElectronBiasProperties.TrackBrem2BelowThreshold | src/rx_data/electron_bias_corrector.py:266-271 | with no brem and below the threshold, `correct` returns the row unchanged |
| ElectronBiasProperties.TrackBrem2Delegates | src/rx_data/electron_bias_corrector.py:273-277 | with no brem at or above the threshold, the flag becomes 1, or stays as it was with skip_correction; the written momentum is that of the brem_track_1 electron after the calibration scaling |
| ElectronBiasProperties.EcaloBiasSkipped | src/rx_data/electron_bias_corrector.py:186-189 | ecalo_bias with skip leaves momentum and flag as they were |
| ElectronBiasProperties.EcaloBiasApplied | src/rx_data/electron_bias_corrector.py:192-221 | ecalo_bias with a brem and no skip gives status 1 and track + bias-map-corrected brem |
| ElectronBiasProperties.StatusChecksNeverFire | src/rx_data/electron_bias_corrector.py:303-304 | neither status ValueError can ever be raised by `correct` |
| MassBias.RdfIsMc | src/rx_data/mass_bias_corrector.py:60-66 | true iff some column name ends with `_TRUEID` |
| MassBias.Sentinel | src/rx_data/mass_bias_corrector.py:95-96 | a NaN mass becomes -1 and any other mass is kept |
| MassBias.ParticleVector | src/rx_data/mass_bias_corrector.py:88-93 | the 4-vector exists iff the PT/ETA/PHI columns exist, and is built from them with the given mass |
| MassBias.Dilepton | src/rx_data/mass_bias_corrector.py:88-92 | the dilepton exists iff both leptons' PT/ETA/PHI exist, and it is the sum of the two electron-mass four-vectors |
| MassBias.Kinematics | src/rx_data/mass_bias_corrector.py:88-93 | the B vector is the dilepton plus the kaon built with the kaon mass |
| MassBias.DileptonVariables | src/rx_data/mass_bias_corrector.py:87-126 | the J/psi mass, PT and DIRA are those of the sum of the two electron-mass vectors; the B ones add the kaon-mass vector of H to it |
| MassBias.SmearMass | src/rx_data/mass_bias_corrector.py:153-162 | on data the reconstructed mass is returned unchanged; on MC, get_mass receives the sum of the two brem flags, the block and the true mass |
| MassBias.Dira | src/rx_data/mass_bias_corrector.py:132-151 | the DIRA is computed iff the vertex columns exist, else KeyError; it is the DIRA of the momentum between the `BPV` primary vertex and the `END_V` decay vertex of the particle |
| MassBias.CopyColumns | src/rx_data/mass_bias_corrector.py:108-119 | copies exactly the lepton columns, with their values |
| MassBias.Derived | src/rx_data/mass_bias_corrector.py:101-126 | the derived record has exactly the eight derived names with the given values |
| MassBias.CopiedDerivedDisjoint | src/rx_data/mass_bias_corrector.py:101-126 | no derived name is a copied name |
| MassBias.Assemble | src/rx_data/mass_bias_corrector.py:101-128 | the output has the copied and derived columns, each with its value |
| MassBias.SmearBoth | src/rx_data/mass_bias_corrector.py:122-123 | both smeared masses, or the unchanged masses on data |
| MassBias.DiraBoth | src/rx_data/mass_bias_corrector.py:125-126 | both DIRA values, present iff both vertex column sets exist |
| MassBias.CalculateVariables | src/rx_data/mass_bias_corrector.py:87-130 | the record has exactly the copied and derived keys; lepton fields come from the row; masses carry the -1 sentinel; the smeared masses and DIRAs come from those masses and vectors |
| MassBias.AddSuffix | src/rx_data/mass_bias_corrector.py:173-179 | no suffix is the identity; otherwise every column is renamed `<name>_<suffix>` with its value |
| MassBias.WithIds | src/rx_data/mass_bias_corrector.py:196-197 | EVENTNUMBER and RUNNUMBER are copied from the input row, KeyError when absent |
| MassBias.FillNa | src/rx_data/mass_bias_corrector.py:199 | same keys, every NaN replaced by -1 |
| MassBias.Finish | src/rx_data/mass_bias_corrector.py:195-199 | the suffixed columns plus the two unsuffixed event ids, with no NaN left; each suffixed column carries the corrected value and the ids those of the input row, NaN replaced by -1 |
| MassBias.EventCorrection | src/rx_data/mass_bias_corrector.py:164-171 | corrects L1 then L2 and computes the variables; with skip the result is the variables of the input row itself; an error is a bad input or an unknown kind |
| MassBias.FinishAll | src/rx_data/mass_bias_corrector.py:195-199 | every output row is Finish of its input row, and an error comes from some row |
| MassBias.MassBiasCorrector.constructor | src/rx_data/mass_bias_corrector.py:29-58 | detects MC from the columns; skip off, one thread, a 400 MeV threshold and brem_track_2 unless given; builds the electron corrector with the threshold, calibration on and never with the skip flag |
| MassBias.MassBiasCorrector.CorrectElectron | src/rx_data/mass_bias_corrector.py:78-85 | with skip the row is untouched; otherwise it becomes Corrected for the lepton and kind |
| MassBias.MassBiasCorrector.CalculateCorrection | src/rx_data/mass_bias_corrector.py:164-171 | equals EventCorrection of the row |
| MassBias.MassBiasCorrector.CorrectAll | src/rx_data/mass_bias_corrector.py:186-193 | the loop over the rows gives Corrections (one corrected row per input row, each the event correction of its input row, or the first failing row's error; see CorrectionsRows) |
| MassBias.MassBiasCorrector.GetRdf | src/rx_data/mass_bias_corrector.py:181-202 | the first failing row's error, or every row corrected by CorrectAll and then finished |
| MassBias.CorrectionsStop | src/rx_data/mass_bias_corrector.py:186-193 | once a prefix of the rows fails, the whole run fails with that error |
| MassBias.CorrectionsRows | src/rx_data/mass_bias_corrector.py:186-193 | the run succeeds iff every row's event correction succeeds, and then row i of the output is the event correction of input row i |
| MassBias.L1CopiedColumn | src/rx_data/mass_bias_corrector.py:108-119 | L1 output columns are copied columns that the L2 correction cannot touch |
| MassBias.OutputCarriesBothCorrections | src/rx_data/mass_bias_corrector.py:164-171 | the output's lepton columns are those of the row after the L1 and then the L2 correction, and the whole output is the variables computed from that doubly corrected row |
| Utilities.IsMc | src/rx_data/utilities.py:27-35 | false iff the sample starts with `DATA` |
| Utilities.IsEe | src/rx_data/utilities.py:37-90 | true for the electron triggers, false for the muon and mixed ones, ValueError naming any other trigger |
| Utilities.ChannelsDisjoint | src/rx_data/utilities.py:44-80 | no non-electron trigger is in the electron list |
| Utilities.IsEeExamples | tests/test_utilities.py:51-62 | the seven trigger names of the test get the expected answers |
| Utilities.InfoFromDataPath | src/rx_data/utilities.py:126-143 | fails iff the pattern does not match; otherwise gives the rewritten sample and the trigger |
| Utilities.InfoFromMcPath | src/rx_data/utilities.py:110-124 | fails iff the pattern does not match; otherwise gives the sample and the trigger |
| Utilities.InfoFromPath | src/rx_data/utilities.py:92-108 | `dt_`/`data_` basenames go to the data parser, `mc_` to the MC parser, anything else raises ValueError |
| Utilities.DataAndMcPrefixesExclusive | src/rx_data/utilities.py:99-106 | an `mc_` name never starts with `dt_` or `data_`, so the dispatch order does not matter |
| Utilities.DataSampleUnchanged | src/rx_data/utilities.py:140-141 | a sample without `_turbo_` or `_full_` is not changed |
| Strings.ReplaceAllFirst | src/rx_data/utilities.py:140-141 | `str.replace` replaces the first occurrence and then continues after it, leaving the text before it as it was |
| Utilities.TruncateReal | src/rx_data/utilities.py:183 | truncation toward zero: the integer lies within 1 of the value, on the zero side |
| Utilities.Truncate | src/rx_data/utilities.py:183 | a number becomes its truncation and NaN stays NaN |
| Utilities.TruncateIdempotent | src/rx_data/utilities.py:183 | truncating twice is truncating once |
| Utilities.PreprocessLepton | src/rx_data/utilities.py:181-189 | the flag becomes an integer; BREMHYPOENERGY becomes 0 unless the flag is 1; NaN BREMTRACKBASEDENERGY becomes 0; nothing else changes |
| Utilities.PreprocessLeptonIdempotent | src/rx_data/utilities.py:181-189 | preprocessing a preprocessed row changes nothing |
| Utilities.PreprocessRdf | src/rx_data/utilities.py:174-179 | succeeds iff every preprocessed column of L1, L2 and H exists, else KeyError; keeps the key set, changes no other column, and each lepton's columns take the values its own rewrite gives the input row |
| Utilities.PreprocessedApart | src/rx_data/utilities.py:174-189 | the columns rewritten for two different particles are disjoint |
| Utilities.PreprocessCommutes | src/rx_data/utilities.py:174-179 | rewriting one particle neither adds nor removes the inputs of another and leaves the values its rewrite computes unchanged |
| Utilities.PickColumn | src/rx_data/utilities.py:191-263 | kept-list names first; then the vetoes; then brem information; then quality rejections; then kinematics |
| Utilities.TrueMassesKept | src/rx_data/utilities.py:193-215 | `Jpsi_TRUEM` and `B_TRUEM` are kept despite containing `_TRUE` |
| BranchCalculator.Keep | src/rx_data_scripts/branch_calculator.py:129-142 | an order-preserving filter: membership is input membership and the predicate, and nothing is duplicated |
| BranchCalculator.KeepSingle | src/rx_data_scripts/branch_calculator.py:129-142 | one element is kept exactly when the predicate holds |
| BranchCalculator.KeepAppend | src/rx_data_scripts/branch_calculator.py:129-142 | filtering a concatenation is concatenating the filtered parts, so the input order is kept |
| BranchCalculator.KeepKeep | src/rx_data_scripts/branch_calculator.py:132-140 | two filters in a row equal one filter on the conjunction |
| BranchCalculator.FilterPaths | src/rx_data_scripts/branch_calculator.py:129-142 | keeps exactly the paths that pass the MuMu veto for electron corrections and the wildcard match; no filter gives the input back |
| BranchCalculator.FilterPathsSingle | src/rx_data_scripts/branch_calculator.py:129-142 | one path is kept exactly when it passes the MuMu veto (electron corrections only) and the wildcard match |
| BranchCalculator.FilterPathsAppend | src/rx_data_scripts/branch_calculator.py:129-142 | filtering distributes over concatenation: the paths kept come out in input order |
| BranchCalculator.Dedupe | src/rx_data_scripts/branch_calculator.py:92 | the same set of paths, with no repetition |
| BranchCalculator.DedupeOrder | src/rx_data_scripts/branch_calculator.py:92 | the distinct paths appear in the order of their first occurrence, as the keys of the dict comprehension do |
| BranchCalculator.InsertSorted | src/rx_data_scripts/branch_calculator.py:93 | inserting into a size-sorted sequence keeps it sorted and adds exactly the one path |
| BranchCalculator.SortBySize | src/rx_data_scripts/branch_calculator.py:93 | sorted by non-increasing size and a permutation of the input |
| BranchCalculator.SortBySizeStable | src/rx_data_scripts/branch_calculator.py:93 | the sort is stable: the paths of each size keep their input order |
| BranchCalculator.FirstMinimum | src/rx_data_scripts/branch_calculator.py:99 | the group with the smallest total, the lowest index on a tie |
| BranchCalculator.Assign | src/rx_data_scripts/branch_calculator.py:95-106 | greedy assignment yields ngroup groups and ngroup totals |
| BranchCalculator.AssignTotals | src/rx_data_scripts/branch_calculator.py:95-101 | each group's total is the sum of its files' sizes |
| BranchCalculator.AssignCovers | src/rx_data_scripts/branch_calculator.py:95-101 | the groups together hold exactly the input files, with multiplicity |
| BranchCalculator.ExactlyOneGroup | src/rx_data_scripts/branch_calculator.py:95-101 | each distinct file is in exactly one group |
| BranchCalculator.Partition | src/rx_data_scripts/branch_calculator.py:95-106 | fails iff there are files but no groups (`min()` ValueError) or igroup is not a group; otherwise the result is group igroup of the greedy assignment, holding only input files |
| BranchCalculator.Greedy | src/rx_data_scripts/branch_calculator.py:95-101 | the loop builds exactly the groups and totals of Assign |
| BranchCalculator.GetPartition | src/rx_data_scripts/branch_calculator.py:87-112 | returns Partition of the deduplicated files sorted by size |
| BranchCalculator.PartitionProperties | src/rx_data_scripts/branch_calculator.py:93-101 | every input path is in exactly one group, the files are size-sorted, and the totals are the group sums |
| BranchCalculator.Chunks | src/rx_data_scripts/branch_calculator.py:250-258 | non-empty contiguous ranges from start to n, each at most chunk long, every one but the last exactly chunk long |
| BranchCalculator.SplitRdf | src/rx_data_scripts/branch_calculator.py:250-258 | chunk 0 raises, a negative chunk gives no ranges, a positive one gives Chunks(0, n, chunk) |
| BranchCalculator.ContiguousIncreasing | src/rx_data_scripts/branch_calculator.py:253-256 | contiguous ranges come in increasing order |
| BranchCalculator.ContiguousSpan | src/rx_data_scripts/branch_calculator.py:253-256 | a point lies in some contiguous range iff it lies in their span |
| BranchCalculator.ContiguousDisjoint | src/rx_data_scripts/branch_calculator.py:253-256 | no point lies in two contiguous ranges |
| BranchCalculator.ContiguousCover | src/rx_data_scripts/branch_calculator.py:253-256 | contiguous ranges cover their span and overlap nowhere |
| BranchCalculator.ChunksCover | src/rx_data_scripts/branch_calculator.py:250-258 | every entry in [start, n) is in exactly one range, and no other entry is in any |
| BranchCalculator.IsElectron | src/rx_data_scripts/branch_calculator.py:174-181 | `MuMu_` means muon, checked before `EE_`; neither raises ValueError |
| BranchCalculator.IsMcPath | src/rx_data_scripts/branch_calculator.py:183-190 | `/data_24_mag` means data, checked before `/mc_mag`; neither raises ValueError |
| BranchCalculator.SkipQsqSmear | src/rx_data_scripts/branch_calculator.py:192-199 | false iff the path is MC and the trigger is electron; raises iff `_is_mc` raises or, on MC, `_is_electron` raises, with that classifier's error |
| BranchCalculator.HltMvaApart | src/rx_data_scripts/branch_calculator.py:318-329 | an `Hlt2` and an `_MVA` occurrence never overlap |
| BranchCalculator.TriggerFromPath | src/rx_data_scripts/branch_calculator.py:318-329 | succeeds iff the first `Hlt2` comes before the end of the first `_MVA`; the result is the text of the path from the first `Hlt2` up to and including the first `_MVA`, so it starts with `Hlt2` and ends with `_MVA` |
| BranchCalculator.ProcessRdf | src/rx_data_scripts/branch_calculator.py:201-248 | an empty file gives a placeholder; an unknown kind raises; `hop` goes to the HOP calculator; electron corrections raise the `_is_mc` error for an unrecognised path and skip exactly on MC with ecalo_bias; the swap kinds carry their ids and the same-sign switch from the trigger |
| Swp.FromPdgid | src/rx_data/swp_calculator.py:67-75 | the particle table's entry, or ParticleNotFound for an unknown id |
| Swp.PickColumn | src/rx_data/swp_calculator.py:43-54 | true iff the name is `<particle>_PX/PY/PZ/PE/ID` for a lepton or hadron name |
| Swp.PickedRow | src/rx_data/swp_calculator.py:31-41 | keeps exactly the picked columns with their values |
| Swp.FirstUnknown | src/rx_data/swp_calculator.py:67-75 | the position of the first id the table does not know, or the length when all are known |
| Swp.FirstUnknownAt | src/rx_data/swp_calculator.py:67-75 | an unknown id preceded only by known ones is the first unknown |
| Swp.CheckIds | src/rx_data/swp_calculator.py:67-75 | succeeds iff every id is known; otherwise the ValueError names the first unknown id |
| Swp.CheckParticle | src/rx_data/swp_calculator.py:67-75 | the loop equals CheckIds over the dict's ids |
| Swp.SwappedVector | src/rx_data/swp_calculator.py:77-92 | exists iff the momentum and id columns exist and both ids are known; rebuilt first with the stored mass, then with the new mass |
| Swp.SwappedVectors | src/rx_data/swp_calculator.py:96-104 | all vectors of the given particles, in order, failing iff one fails |
| Swp.BuildMassArity | src/rx_data/swp_calculator.py:94-114 | succeeds iff exactly two vectors are built, and gives their invariant mass; another count raises "Not found two and only two particles" |
| Swp.Pair | src/rx_data/swp_calculator.py:133 | the dict literal: two entries, or one when hadron and lepton share a name |
| Swp.CollapsedPairRaises | src/rx_data/swp_calculator.py:96-107 | a collapsed one-entry pair raises the two-particle ValueError |
| Swp.LeptonMassRule | src/rx_data/swp_calculator.py:120-135 | a lepton of the wrong charge relation adds nothing; one of the selected relation adds the mass built with the pair |
| Swp.CollectSelect | src/rx_data/swp_calculator.py:116-146 | when the per-lepton outcomes collect without error, every outcome succeeded, the list is empty iff every lepton was skipped, and its first entry is the mass of the first lepton not skipped |
| Swp.MassesSelect | src/rx_data/swp_calculator.py:116-146 | the list is empty iff no lepton is selected, and its first entry is the first selected lepton's mass |
| Swp.CombineRule | src/rx_data/swp_calculator.py:116-146 | -999 when no lepton is selected, else the mass for the first selected lepton in order |
| Swp.OrgIgnoresNewIds | src/rx_data/swp_calculator.py:130-131 | the `org` masses do not depend on the configured new ids |
| Swp.SwpUsesNewIds | src/rx_data/swp_calculator.py:130-131 | `swp` pairs the configured new ids; `org` pairs the stored ids |
| Swp.MassColumn | src/rx_data/swp_calculator.py:148-154 | one combined mass per row, failing iff some row fails |
| Swp.MassColumns | src/rx_data/swp_calculator.py:177-183 | keys are `<prefix>_mass_org` and `<prefix>_mass_swp`, filled from the last hadron |
| Swp.AsNumpy | src/rx_data/swp_calculator.py:185 | the frame's columns by name, present iff every name is a column |
| Swp.OutputColumns | src/rx_data/swp_calculator.py:177-190 | the output has exactly the two mass columns (of the last hadron), EVENTNUMBER and RUNNUMBER |
| Swp.SwpCalculator.constructor | src/rx_data/swp_calculator.py:20-41 | stores the inputs, keeps each row's picked columns and starts uninitialised |
| Swp.SwpCalculator.Initialize | src/rx_data/swp_calculator.py:56-65 | the first call runs the lepton and then the hadron checks; later calls do nothing |
| Swp.SwpCalculator.BuildVectors | src/rx_data/swp_calculator.py:96-104 | the loop builds SwappedVectors: every particle's vector with its swapped mass hypothesis, or the first error |
| Swp.SwpCalculator.BuildMass | src/rx_data/swp_calculator.py:94-114 | equals BuildMassSpec |
| Swp.SwpCalculator.CombineMasses | src/rx_data/swp_calculator.py:122-135 | the loop over the leptons builds Masses: the selected leptons' masses in order, or the first error |
| Swp.SwpCalculator.Combine | src/rx_data/swp_calculator.py:116-146 | equals CombineSpec under the current same-sign switch |
| Swp.SwpCalculator.CalculateMass | src/rx_data/swp_calculator.py:148-154 | equals MassColumn over the picked rows |
| Swp.SwpCalculator.GetRdf | src/rx_data/swp_calculator.py:156-190 | sets the switch and initialises once; a failed check raises ValueError, otherwise gives the four columns |
| Strings.FirstIndex | src/rx_data_scripts/branch_calculator.py:322-323 | the first occurrence of the pattern, or none iff it does not occur |
| Strings.Basename | src/rx_data/utilities.py:99 | the part after the last `/`: a suffix of the path without `/` |
| Strings.IntToString | src/rx_data/swp_calculator.py:75 | non-empty, led by `-` exactly for negative numbers; the rest is decimal digits whose value is the magnitude |
| Strings.NatToString | src/rx_data/swp_calculator.py:75 | non-empty decimal digits without a leading zero, whose value is the number |
| Strings.IntToStringInjective | src/rx_data/swp_calculator.py:75 | different numbers give different strings |

## Left out

- Floating-point vector algebra is not modelled: v3d/v4d construction, pt/eta/phi conversion, invariant masses, DIRA and `isclose` are `Geometry` function values.
- The massless-electron check (src/rx_data/electron_bias_corrector.py:86-100) only logs, so it is not modelled.
- The external services are function parameters with no behaviour of their own: `BremBiasCorrector.correct`, `Corrector.run` and its config load, `PreProcessor.build_features`, `Q2SmearCorrector.get_mass` and `Particle.from_pdgid`.
- ROOT and pandas I/O are not modelled: `df_from_rdf`, `RDF.FromPandas`/`FromNumpy`, `Snapshot` and file merging. A data frame is a sequence of rows.
- Parallel application (`pandarallel`, `parallel_apply`) is concurrency. The model applies the row function row by row in order.
- Regex extraction with the data and MC patterns is an opaque `Matcher` parameter. Only the `_turbo_`/`_full_` rewrite is modelled.
- `fnmatch` is an opaque predicate parameter.
- File sizes (`_get_path_size`) are an input function.
- Logging, `_silence_logger`, tqdm progress bars, argparse, the `ANADIR` environment read, `_create_file`, `main` and `_print_groups` are I/O.
- ProcessRdf: the MisCalculator and HOPCalculator passes are not part of this model. The `Plan` result records which calculator runs with which settings, not the columns they add.
- Utilities.Truncate: the `int(...)` is a C++ cast inside a ROOT expression, and its result on NaN is undefined. The model keeps NaN as NaN.
- ElectronBias.ElectronBiasCorrector.Correct: the source formats the offending status into the ValueError messages. The model uses fixed messages, and the lemmas prove those errors never occur.
- Swp.PickedRow: `_pnd_from_root` reads the picked columns through ROOT. The model keeps those columns of each row.
- Swp.AsNumpy: ROOT's error for a missing column is modelled as a KeyError naming the column.
- Swp.FromPdgid: a particle whose mass is `None` in the table is not modelled; the table returns the mass as a number.
- The swap calculator's PDG ids are kept as `Value`s when read from the row, and as integers when configured.
- The `isinstance(d, dict)` checks in the swap calculator always hold for the dict arguments, so the constructor takes the dicts as key-distinct pair lists.
- Swp.SwpCalculator.constructor: `_use_ss` is only annotated in the source's `__init__`, so it does not exist until `get_rdf` sets it. The model's field has a value from the start, and `GetRdf` sets it before any use.
- Swp.CheckIds: the source catches `from_pdgid`'s exception and raises its own ValueError. The model represents an unknown id as the table returning None.
- Utilities.PreprocessLepton: a missing input column is modelled as a KeyError. In the source, ROOT's `Redefine` fails with its own runtime error when the expression names an unknown column.
- PyBase.Divide: a zero divisor raises ZeroDivisionError as Python float division does. With numpy float64 operands it would give inf or NaN instead. The only division in the core is by the unit photon's energy, which is at least 1, so the case does not arise.
- BranchCalculator.IsElectron: mixed `MuE` triggers fall through to the `EE_` test as in the source; no separate case is modelled.
- `copy_samples.py`, `is_reso`, and the ROOT-based tests of the getter and swap calculator are not part of this model.
