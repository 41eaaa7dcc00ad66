/**
  The decisions of the `branch_calculator` script: which input files a job
  processes (filtering, then a greedy partition by file size), how a
  dataframe is cut into chunks, how trigger, channel and sample type are
  read off a path, and which calculator a dataframe is handed to.

  File sizes, `fnmatch` and the calculators themselves are parameters or
  plain values: nothing here touches the file system.
*/
module BranchCalculator {
  import opened PyBase
  import opened Strings

  /** `Data.l_kind`: the kinds of branches the script can create. */
  const L_KIND: seq<string> := ["hop", "swp_jpsi_misid", "swp_cascade", "ecalo_bias", "brem_track_1", "brem_track_2"]
  /** `Data.l_ecorr`: the kinds that are electron corrections. */
  const L_ECORR: seq<string> := ["ecalo_bias", "brem_track_1", "brem_track_2"]

  // ---------------------------------------------------------------------
  // _filter_paths

  /** The entries of `s` that satisfy `keep`, in their order. */
  function Keep(s: seq<string>, keep: string -> bool): (r: seq<string>)
    ensures forall p :: p in r <==> p in s && keep(p)
    ensures multiset(r) <= multiset(s)
    ensures (forall p | p in s :: keep(p)) ==> r == s
  {
    if s == [] then []
    else
      assert s == [s[0]] + s[1..];
      if keep(s[0]) then [s[0]] + Keep(s[1..], keep) else Keep(s[1..], keep)
  }

  /** A single entry is kept exactly when it passes. */
  lemma KeepSingle(x: string, keep: string -> bool)
    ensures Keep([x], keep) == if keep(x) then [x] else []
  {
    assert [x][1..] == [];
  }

  /** Filtering a concatenation filters each part in turn: with KeepSingle,
      `Keep` is the comprehension `[p for p in s if keep(p)]`, the passing
      entries in their input order. */
  lemma {:induction false} KeepAppend(a: seq<string>, b: seq<string>, keep: string -> bool)
    ensures Keep(a + b, keep) == Keep(a, keep) + Keep(b, keep)
  {
    if a == [] {
      assert a + b == b;
    } else {
      assert (a + b)[0] == a[0];
      assert (a + b)[1..] == a[1..] + b;
      KeepAppend(a[1..], b, keep);
    }
  }

  /** Filtering twice is filtering once by both conditions. */
  lemma {:induction false} KeepKeep(s: seq<string>, a: string -> bool, b: string -> bool)
    ensures Keep(Keep(s, a), b) == Keep(s, p => a(p) && b(p))
  {
    if s != [] {
      KeepKeep(s[1..], a, b);
    }
  }

  /** `_filter_paths(l_path)`: electron corrections drop the muon files, and
      a wild card keeps the paths that match `*wild_card*`. */
  function FilterPaths(paths: seq<string>, kind: string, wildCard: Option<string>,
                       fnmatch: (string, string) -> bool): (r: seq<string>)
    ensures forall p :: p in r <==>
              && p in paths
              && (kind in L_ECORR ==> !Contains(p, "MuMu"))
              && (wildCard.Some? ==> fnmatch(p, "*" + wildCard.value + "*"))
    ensures multiset(r) <= multiset(paths)
    ensures kind !in L_ECORR && wildCard.None? ==> r == paths
  {
    var electrons := if kind in L_ECORR then Keep(paths, p => !Contains(p, "MuMu")) else paths;
    match wildCard
    case None => electrons
    case Some(wc) => Keep(electrons, p => fnmatch(p, "*" + wc + "*"))
  }

  /** `_filter_paths` is a comprehension: the paths it keeps stay in their
      input order, one part of the input after the other. */
  lemma FilterPathsAppend(a: seq<string>, b: seq<string>, kind: string, wildCard: Option<string>,
                          fnmatch: (string, string) -> bool)
    ensures FilterPaths(a + b, kind, wildCard, fnmatch)
            == FilterPaths(a, kind, wildCard, fnmatch) + FilterPaths(b, kind, wildCard, fnmatch)
  {
    var veto := (p: string) => !Contains(p, "MuMu");
    if kind in L_ECORR {
      KeepAppend(a, b, veto);
    }
    var electrons := if kind in L_ECORR then Keep(a, veto) else a;
    var electronsB := if kind in L_ECORR then Keep(b, veto) else b;
    if wildCard.Some? {
      KeepAppend(electrons, electronsB, p => fnmatch(p, "*" + wildCard.value + "*"));
    }
  }

  /** One path is kept exactly when it passes both filters. */
  lemma FilterPathsSingle(p: string, kind: string, wildCard: Option<string>, fnmatch: (string, string) -> bool)
    ensures FilterPaths([p], kind, wildCard, fnmatch)
            == if (kind in L_ECORR ==> !Contains(p, "MuMu")) && (wildCard.Some? ==> fnmatch(p, "*" + wildCard.value + "*"))
               then [p] else []
  {
    var veto := (q: string) => !Contains(q, "MuMu");
    KeepSingle(p, veto);
    if wildCard.Some? {
      var wild := (q: string) => fnmatch(q, "*" + wildCard.value + "*");
      KeepSingle(p, wild);
      assert Keep([], wild) == [];
    }
  }

  // ---------------------------------------------------------------------
  // _get_partition

  /** `_get_path_size`: file size in MiB, rounded down. */
  type SizeOf = string -> nat

  predicate Distinct(s: seq<string>) {
    forall i, j | 0 <= i < j < |s| :: s[i] != s[j]
  }

  /** The keys of `{path: size for path in l_path}`: each path once, first
      occurrences first. */
  function Dedupe(paths: seq<string>): (r: seq<string>)
    ensures forall p :: p in r <==> p in paths
    ensures Distinct(r)
    decreases |paths|
  {
    if paths == [] then []
    else
      var init := Dedupe(paths[..|paths| - 1]);
      var last := paths[|paths| - 1];
      assert paths == paths[..|paths| - 1] + [last];
      if last in init then init else init + [last]
  }

  /** Position of the first occurrence of `p` in `s`. */
  function FirstAt(s: seq<string>, p: string): (i: nat)
    requires p in s
    ensures i < |s| && s[i] == p && p !in s[..i]
  {
    if s[0] == p then 0
    else
      assert s == [s[0]] + s[1..];
      var i := 1 + FirstAt(s[1..], p);
      assert s[..i] == [s[0]] + s[1..][..i - 1];
      i
  }

  /** A path found in a prefix is first found there. */
  lemma FirstAtPrefix(s: seq<string>, t: seq<string>, p: string)
    requires p in s
    ensures FirstAt(s + t, p) == FirstAt(s, p)
  {
    var k := FirstAt(s, p);
    assert (s + t)[k] == p;
  }

  /** The keys of the dict keep the order in which the paths first occur. */
  lemma {:induction false} DedupeOrder(paths: seq<string>)
    ensures forall i, j | 0 <= i < j < |Dedupe(paths)| :: FirstAt(paths, Dedupe(paths)[i]) < FirstAt(paths, Dedupe(paths)[j])
    decreases |paths|
  {
    if paths != [] {
      var init, last := paths[..|paths| - 1], paths[|paths| - 1];
      assert paths == init + [last];
      DedupeOrder(init);
      var prev := Dedupe(init);
      forall k | 0 <= k < |prev| ensures FirstAt(paths, prev[k]) == FirstAt(init, prev[k]) < |init| {
        FirstAtPrefix(init, [last], prev[k]);
      }
      var r := Dedupe(paths);
      if last !in init {
        var f := FirstAt(paths, last);
        assert r == prev + [last];
        forall i, j | 0 <= i < j < |r| ensures FirstAt(paths, r[i]) < FirstAt(paths, r[j]) {
          assert r[i] == prev[i] && FirstAt(paths, prev[i]) == FirstAt(init, prev[i]) < |init|;
          if j < |prev| {
            assert r[j] == prev[j] && FirstAt(paths, prev[j]) == FirstAt(init, prev[j]);
            assert FirstAt(init, prev[i]) < FirstAt(init, prev[j]);
          } else {
            assert r[j] == last && f >= |init|;
            assert FirstAt(paths, r[j]) == f;
          }
        }
      } else {
        assert r == prev;
      }
    }
  }

  predicate SortedBySize(s: seq<string>, size: SizeOf) {
    forall i, j | 0 <= i < j < |s| :: size(s[i]) >= size(s[j])
  }

  /** The entries of `s` of size `v`, in their order. */
  function OfSize(s: seq<string>, v: nat, size: SizeOf): seq<string> {
    if s == [] then []
    else (if size(s[0]) == v then [s[0]] else []) + OfSize(s[1..], v, size)
  }

  lemma {:induction false} OfSizeAppend(a: seq<string>, b: seq<string>, v: nat, size: SizeOf)
    ensures OfSize(a + b, v, size) == OfSize(a, v, size) + OfSize(b, v, size)
  {
    if a == [] {
      assert a + b == b;
    } else {
      var head := if size(a[0]) == v then [a[0]] else [];
      assert (a + b)[0] == a[0];
      assert (a + b)[1..] == a[1..] + b;
      assert OfSize(a + b, v, size) == head + OfSize(a[1..] + b, v, size);
      OfSizeAppend(a[1..], b, v, size);
      assert OfSize(a, v, size) == head + OfSize(a[1..], v, size);
    }
  }

  lemma OfSizeLast(s: seq<string>, v: nat, size: SizeOf)
    requires s != []
    ensures OfSize(s, v, size)
            == OfSize(s[..|s| - 1], v, size) + (if size(s[|s| - 1]) == v then [s[|s| - 1]] else [])
  {
    var init, last := s[..|s| - 1], s[|s| - 1];
    assert s == init + [last];
    OfSizeAppend(init, [last], v, size);
    assert OfSize([last], v, size) == (if size(last) == v then [last] else []) + OfSize([], v, size);
  }

  lemma {:induction false} OfSizeNone(s: seq<string>, v: nat, size: SizeOf)
    requires forall p | p in s :: size(p) != v
    ensures OfSize(s, v, size) == []
  {
    if s != [] {
      OfSizeNone(s[1..], v, size);
    }
  }

  lemma SortedCons(x: string, t: seq<string>, size: SizeOf)
    requires SortedBySize(t, size)
    requires forall q | q in t :: size(q) <= size(x)
    ensures SortedBySize([x] + t, size)
  {
    forall i, j | 0 <= i < j < |[x] + t|
      ensures size(([x] + t)[i]) >= size(([x] + t)[j])
    {
      assert ([x] + t)[j] == t[j - 1];
      if i > 0 {
        assert ([x] + t)[i] == t[i - 1];
      }
    }
  }

  /** Places `p` after every entry at least as large as it is. */
  function Insert(p: string, s: seq<string>, size: SizeOf): seq<string>
    decreases |s|
  {
    if s == [] then [p]
    else if size(s[0]) >= size(p) then [s[0]] + Insert(p, s[1..], size)
    else [p] + s
  }

  /** Every entry of a multiset union of `t` and `p` is bounded when those are. */
  lemma BoundedBy(r: seq<string>, t: seq<string>, p: string, bound: nat, size: SizeOf)
    requires multiset(r) == multiset(t) + multiset{p}
    requires size(p) <= bound && forall q | q in t :: size(q) <= bound
    ensures forall q | q in r :: size(q) <= bound
  {
    forall q | q in r ensures size(q) <= bound {
      assert q in multiset(r);
      if q != p {
        assert q in multiset(t);
      }
    }
  }

  /** Inserting into a size-sorted sequence keeps it sorted and adds exactly `p`. */
  lemma {:induction false} InsertSorted(p: string, s: seq<string>, size: SizeOf)
    requires SortedBySize(s, size)
    ensures SortedBySize(Insert(p, s, size), size)
    ensures multiset(Insert(p, s, size)) == multiset(s) + multiset{p}
    decreases |s|
  {
    if s != [] {
      assert s == [s[0]] + s[1..];
      if size(s[0]) >= size(p) {
        var rest := Insert(p, s[1..], size);
        InsertSorted(p, s[1..], size);
        assert forall k | 0 <= k < |s| :: size(s[k]) <= size(s[0]);
        BoundedBy(rest, s[1..], p, size(s[0]), size);
        SortedCons(s[0], rest, size);
      } else {
        SortedCons(p, s, size);
      }
    }
  }

  /** Entries of the size of `p` keep their order, `p` coming last. */
  lemma {:induction false} InsertOfSize(p: string, s: seq<string>, v: nat, size: SizeOf)
    requires SortedBySize(s, size)
    ensures OfSize(Insert(p, s, size), v, size) == OfSize(s, v, size) + (if size(p) == v then [p] else [])
    decreases |s|
  {
    var tail := if size(p) == v then [p] else [];
    if s == [] {
      calc {
        OfSize(Insert(p, s, size), v, size);
        OfSize([p] + [], v, size);
        { OfSizeCons(p, [], v, size); }
        tail + OfSize([], v, size);
      }
    } else if size(s[0]) >= size(p) {
      var head := if size(s[0]) == v then [s[0]] else [];
      calc {
        OfSize(Insert(p, s, size), v, size);
        OfSize([s[0]] + Insert(p, s[1..], size), v, size);
        { OfSizeCons(s[0], Insert(p, s[1..], size), v, size); }
        head + OfSize(Insert(p, s[1..], size), v, size);
        { SortedTail(s, size); InsertOfSize(p, s[1..], v, size); }
        head + (OfSize(s[1..], v, size) + tail);
        (head + OfSize(s[1..], v, size)) + tail;
        OfSize(s, v, size) + tail;
      }
    } else {
      calc {
        OfSize(Insert(p, s, size), v, size);
        OfSize([p] + s, v, size);
        { OfSizeCons(p, s, v, size); }
        tail + OfSize(s, v, size);
        { if size(p) == v { SmallerNone(s, v, size); } }
        OfSize(s, v, size) + tail;
      }
    }
  }

  lemma SortedTail(s: seq<string>, size: SizeOf)
    requires s != [] && SortedBySize(s, size)
    ensures SortedBySize(s[1..], size)
  {
    forall i, j | 0 <= i < j < |s| - 1 ensures size(s[1..][i]) >= size(s[1..][j]) {
      assert s[1..][i] == s[i + 1] && s[1..][j] == s[j + 1];
    }
  }

  /** A sorted sequence led by an entry smaller than `v` has no entry of size `v`. */
  lemma SmallerNone(s: seq<string>, v: nat, size: SizeOf)
    requires s != [] && SortedBySize(s, size) && size(s[0]) < v
    ensures OfSize(s, v, size) == []
  {
    assert forall k | 0 <= k < |s| :: size(s[k]) <= size(s[0]);
    OfSizeNone(s, v, size);
  }

  lemma OfSizeCons(x: string, t: seq<string>, v: nat, size: SizeOf)
    ensures OfSize([x] + t, v, size) == (if size(x) == v then [x] else []) + OfSize(t, v, size)
  {
    assert ([x] + t)[0] == x && ([x] + t)[1..] == t;
  }

  /** `sorted(d_path.items(), key=size, reverse=True)`: largest first; Python's
      sort is stable, so files of equal size keep their order. */
  function SortBySize(s: seq<string>, size: SizeOf): (r: seq<string>)
    ensures SortedBySize(r, size)
    ensures multiset(r) == multiset(s)
    decreases |s|
  {
    if s == [] then []
    else
      assert s == s[..|s| - 1] + [s[|s| - 1]];
      var init := SortBySize(s[..|s| - 1], size);
      InsertSorted(s[|s| - 1], init, size);
      Insert(s[|s| - 1], init, size)
  }

  /** The sort is stable: the files of any one size come out in input order. */
  lemma {:induction false} SortBySizeStable(s: seq<string>, v: nat, size: SizeOf)
    ensures OfSize(SortBySize(s, size), v, size) == OfSize(s, v, size)
    decreases |s|
  {
    if s != [] {
      var init, last := s[..|s| - 1], s[|s| - 1];
      SortBySizeStable(init, v, size);
      InsertOfSize(last, SortBySize(init, size), v, size);
      OfSizeLast(s, v, size);
    }
  }

  /** `min(group_sizes, key=group_sizes.get)`: the first group with the smallest total. */
  function FirstMinimum(totals: seq<int>): (g: nat)
    requires |totals| > 0
    ensures g < |totals|
    ensures forall h | 0 <= h < |totals| :: totals[g] <= totals[h]
    ensures forall h | 0 <= h < g :: totals[h] > totals[g]
  {
    if |totals| == 1 then 0
    else
      var g := FirstMinimum(totals[..|totals| - 1]);
      if totals[|totals| - 1] < totals[g] then |totals| - 1 else g
  }

  /** `groups` and `group_sizes`, indexed by group number. */
  datatype Groups = Groups(members: seq<seq<string>>, totals: seq<int>)

  /** The greedy assignment of `files`, in order, each to the group with
      the smallest total so far. */
  function Assign(files: seq<string>, ngroup: nat, size: SizeOf): (r: Groups)
    requires ngroup > 0 || files == []
    ensures |r.members| == ngroup && |r.totals| == ngroup
    decreases |files|
  {
    if files == [] then Groups(seq(ngroup, _ => []), seq(ngroup, _ => 0))
    else
      var prev := Assign(files[..|files| - 1], ngroup, size);
      var g := FirstMinimum(prev.totals);
      var p := files[|files| - 1];
      Groups(prev.members[g := prev.members[g] + [p]], prev.totals[g := prev.totals[g] + size(p)])
  }

  /** The sum of the sizes of `s`. */
  function Total(s: seq<string>, size: SizeOf): nat {
    if s == [] then 0 else Total(s[..|s| - 1], size) + size(s[|s| - 1])
  }

  /** All groups one after the other. */
  function Flatten(groups: seq<seq<string>>): seq<string> {
    if groups == [] then [] else groups[0] + Flatten(groups[1..])
  }

  lemma {:induction false} FlattenAppend(groups: seq<seq<string>>, g: nat, p: string)
    requires g < |groups|
    ensures multiset(Flatten(groups[g := groups[g] + [p]])) == multiset(Flatten(groups)) + multiset{p}
  {
    if g > 0 {
      FlattenAppend(groups[1..], g - 1, p);
      assert groups[g := groups[g] + [p]][1..] == groups[1..][g - 1 := groups[1..][g - 1] + [p]];
    } else {
      assert groups[g := groups[g] + [p]][1..] == groups[1..];
    }
  }

  lemma {:induction false} FlattenEmpty(n: nat)
    ensures Flatten(seq(n, _ => [])) == []
  {
    if n > 0 {
      var empty: seq<seq<string>> := seq(n, _ => []);
      assert empty[1..] == seq(n - 1, _ => []);
      FlattenEmpty(n - 1);
    }
  }

  /** Each group is part of the concatenation of all groups. */
  lemma {:induction false} FlattenHolds(groups: seq<seq<string>>, g: nat)
    requires g < |groups|
    ensures multiset(groups[g]) <= multiset(Flatten(groups))
  {
    if g > 0 {
      FlattenHolds(groups[1..], g - 1);
    }
  }

  /** The `ngroup` totals of `r` are the sums of the sizes in their groups. */
  predicate TotalsMatch(r: Groups, ngroup: nat, size: SizeOf) {
    && |r.members| == ngroup && |r.totals| == ngroup
    && forall g | 0 <= g < ngroup :: r.totals[g] == Total(r.members[g], size)
  }

  /** Every total is the sum of the sizes in its group. */
  lemma {:induction false} AssignTotals(files: seq<string>, ngroup: nat, size: SizeOf)
    requires ngroup > 0 || files == []
    ensures TotalsMatch(Assign(files, ngroup, size), ngroup, size)
    decreases |files|
  {
    var r := Assign(files, ngroup, size);
    if files != [] {
      var init := files[..|files| - 1];
      AssignTotals(init, ngroup, size);
      var prev := Assign(init, ngroup, size);
      var g := FirstMinimum(prev.totals);
      var p := files[|files| - 1];
      assert r.members == prev.members[g := prev.members[g] + [p]];
      assert r.totals == prev.totals[g := prev.totals[g] + size(p)];
      assert (prev.members[g] + [p])[..|prev.members[g]|] == prev.members[g];
      assert (prev.members[g] + [p])[|prev.members[g]|] == p;
      assert Total(prev.members[g] + [p], size) == Total(prev.members[g], size) + size(p);
      assert TotalsMatch(prev, ngroup, size);
      forall h | 0 <= h < ngroup ensures r.totals[h] == Total(r.members[h], size) {
        assert prev.totals[h] == Total(prev.members[h], size);
        if h != g {
          assert r.totals[h] == prev.totals[h] && r.members[h] == prev.members[h];
        } else {
          assert r.totals[h] == prev.totals[g] + size(p) && r.members[h] == prev.members[g] + [p];
        }
      }
    } else {
      forall h | 0 <= h < ngroup ensures r.totals[h] == Total(r.members[h], size) {
        assert r.members[h] == [];
      }
    }
  }

  /** Together the groups hold exactly the files. */
  lemma {:induction false} AssignCovers(files: seq<string>, ngroup: nat, size: SizeOf)
    requires ngroup > 0 || files == []
    ensures multiset(Flatten(Assign(files, ngroup, size).members)) == multiset(files)
    decreases |files|
  {
    if files == [] {
      FlattenEmpty(ngroup);
    } else {
      var init := files[..|files| - 1];
      AssignCovers(init, ngroup, size);
      var prev := Assign(init, ngroup, size);
      FlattenAppend(prev.members, FirstMinimum(prev.totals), files[|files| - 1]);
      assert files == init + [files[|files| - 1]];
    }
  }

  lemma {:induction false} InFlatten(groups: seq<seq<string>>, p: string)
    ensures p in Flatten(groups) <==> exists g | 0 <= g < |groups| :: p in groups[g]
  {
    if groups != [] {
      InFlatten(groups[1..], p);
      if p in groups[0] {
        assert p in groups[0];
      }
      assert forall g | 1 <= g < |groups| :: groups[g] == groups[1..][g - 1];
    }
  }

  lemma {:induction false} TwoGroups(groups: seq<seq<string>>, g1: nat, g2: nat, p: string)
    requires g1 < g2 < |groups| && p in groups[g1] && p in groups[g2]
    ensures multiset(Flatten(groups))[p] >= 2
  {
    if g1 == 0 {
      InFlatten(groups[1..], p);
      assert groups[1..][g2 - 1] == groups[g2];
      assert multiset(Flatten(groups)) == multiset(groups[0]) + multiset(Flatten(groups[1..]));
    } else {
      TwoGroups(groups[1..], g1 - 1, g2 - 1, p);
    }
  }

  lemma {:induction false} DistinctOnce(s: seq<string>, p: string)
    requires Distinct(s)
    ensures multiset(s)[p] <= 1
  {
    if s != [] {
      DistinctOnce(s[1..], p);
      assert s == [s[0]] + s[1..];
      if s[0] == p {
        assert p !in s[1..];
      }
    }
  }

  /** Two equal entries count twice. */
  lemma TwiceCounted(s: seq<string>, i: nat, j: nat)
    requires i < j < |s|
    ensures s[i] == s[j] ==> multiset(s)[s[i]] >= 2
  {
    assert s == s[..j] + s[j..];
    assert s[..j][i] == s[i] && s[j..][0] == s[j];
    assert multiset(s) == multiset(s[..j]) + multiset(s[j..]);
    assert s[i] in multiset(s[..j]) && s[j] in multiset(s[j..]);
  }

  lemma OnceDistinct(s: seq<string>)
    requires forall q :: multiset(s)[q] <= 1
    ensures Distinct(s)
  {
    forall i, j | 0 <= i < j < |s| ensures s[i] != s[j] {
      TwiceCounted(s, i, j);
    }
  }

  /** With distinct files, every file lands in exactly one group. */
  lemma ExactlyOneGroup(files: seq<string>, ngroup: nat, size: SizeOf, p: string)
    requires ngroup > 0 && Distinct(files)
    ensures var groups := Assign(files, ngroup, size).members;
            && (p in files <==> exists g | 0 <= g < ngroup :: p in groups[g])
            && forall g1, g2 | 0 <= g1 < ngroup && 0 <= g2 < ngroup && p in groups[g1] && p in groups[g2] :: g1 == g2
  {
    var groups := Assign(files, ngroup, size).members;
    AssignCovers(files, ngroup, size);
    InFlatten(groups, p);
    assert p in files <==> p in multiset(files);
    assert p in Flatten(groups) <==> p in multiset(Flatten(groups));
    DistinctOnce(files, p);
    forall g1, g2 | 0 <= g1 < ngroup && 0 <= g2 < ngroup && p in groups[g1] && p in groups[g2]
      ensures g1 == g2
    {
      if g1 < g2 {
        TwoGroups(groups, g1, g2, p);
      } else if g2 < g1 {
        TwoGroups(groups, g2, g1, p);
      }
    }
  }

  /** The result of `_get_partition` for the sorted, distinct `files`:
      `min()` refuses an empty dict of group sizes, and a group number
      outside `range(ngroup)` is not a key of `groups`. */
  function Partition(files: seq<string>, size: SizeOf, igroup: int, ngroup: int): (r: Result<seq<string>>)
    ensures r.Err? <==> (ngroup <= 0 && files != []) || !(0 <= igroup < ngroup)
    ensures ngroup <= 0 && files != [] ==> r == Err(ValueError("min() arg is an empty sequence"))
    ensures r.Ok? ==> multiset(r.value) <= multiset(files)
    // the group `igroup` of the greedy assignment
    ensures r.Ok? && ngroup > 0 ==> r.value == Assign(files, ngroup, size).members[igroup]
  {
    if ngroup <= 0 && files != [] then Err(ValueError("min() arg is an empty sequence"))
    else if !(0 <= igroup < ngroup) then Err(IndexKeyError(igroup))
    else
      var groups := Assign(files, ngroup, size).members;
      AssignCovers(files, ngroup, size);
      FlattenHolds(groups, igroup);
      Ok(groups[igroup])
  }

  /** One step of the greedy loop: the next file joins the first smallest group. */
  lemma AssignStep(files: seq<string>, i: nat, ngroup: nat, size: SizeOf)
    requires i < |files| && ngroup > 0
    ensures var prev := Assign(files[..i], ngroup, size);
            var g := FirstMinimum(prev.totals);
            Assign(files[..i + 1], ngroup, size)
              == Groups(prev.members[g := prev.members[g] + [files[i]]], prev.totals[g := prev.totals[g] + size(files[i])])
  {
    assert files[..i + 1][..i] == files[..i];
  }

  /** The loop of `_get_partition`: each file, largest first, is appended to
      the first group with the smallest total, and that total grows by its size. */
  method Greedy(files: seq<string>, n: nat, size: SizeOf) returns (groups: seq<seq<string>>, totals: seq<int>)
    requires n > 0 || files == []
    ensures Groups(groups, totals) == Assign(files, n, size)
  {
    groups := seq(n, _ => []);
    totals := seq(n, _ => 0);
    var i := 0;
    while i < |files|
      invariant 0 <= i <= |files|
      invariant Groups(groups, totals) == Assign(files[..i], n, size)
    {
      AssignStep(files, i, n, size);
      var g := FirstMinimum(totals);
      groups := groups[g := groups[g] + [files[i]]];
      totals := totals[g := totals[g] + size(files[i])];
      i := i + 1;
    }
    assert files[..i] == files;
  }

  /** `_get_partition(l_path)` with `Data.part == (igroup, ngroup)`: the
      files of group `igroup`. */
  method GetPartition(paths: seq<string>, size: SizeOf, igroup: int, ngroup: int) returns (r: Result<seq<string>>)
    ensures r == Partition(SortBySize(Dedupe(paths), size), size, igroup, ngroup)
  {
    var files := SortBySize(Dedupe(paths), size);
    if ngroup <= 0 && files != [] {
      return Err(ValueError("min() arg is an empty sequence"));
    }
    var n: nat := if ngroup > 0 then ngroup else 0;
    var groups, totals := Greedy(files, n, size);
    if !(0 <= igroup < n) {
      return Err(IndexKeyError(igroup));
    }
    return Ok(groups[igroup]);
  }

  /** What the partition promises: each input path in exactly one group,
      group totals the sums of their sizes, groups filled largest file first. */
  lemma PartitionProperties(paths: seq<string>, size: SizeOf, ngroup: nat, p: string)
    requires ngroup > 0
    ensures var files := SortBySize(Dedupe(paths), size);
            var r := Assign(files, ngroup, size);
            && SortedBySize(files, size)
            && (p in paths <==> exists g | 0 <= g < ngroup :: p in r.members[g])
            && (forall g1, g2 | 0 <= g1 < ngroup && 0 <= g2 < ngroup && p in r.members[g1] && p in r.members[g2] :: g1 == g2)
            && (forall g | 0 <= g < ngroup :: r.totals[g] == Total(r.members[g], size))
  {
    var unique := Dedupe(paths);
    var files := SortBySize(unique, size);
    forall q ensures multiset(files)[q] <= 1 {
      DistinctOnce(unique, q);
    }
    OnceDistinct(files);
    assert forall q :: q in files <==> q in multiset(files);
    assert forall q :: q in unique <==> q in multiset(unique);
    ExactlyOneGroup(files, ngroup, size, p);
    AssignTotals(files, ngroup, size);
  }

  // ---------------------------------------------------------------------
  // _split_rdf

  function Min(a: int, b: int): int {
    if a <= b then a else b
  }

  /** `[(s, min(s + chunk, n)) for s in range(start, n, chunk)]` */
  function Chunks(start: nat, n: nat, chunk: nat): (r: seq<(nat, nat)>)
    requires chunk > 0
    ensures start >= n <==> r == []
    ensures r != [] ==> r[0].0 == start && r[|r| - 1].1 == n
    ensures forall i | 0 <= i < |r| :: r[i].0 < r[i].1 && r[i].1 - r[i].0 <= chunk
    ensures forall i | 0 <= i < |r| - 1 :: r[i].1 == r[i + 1].0 && r[i].1 - r[i].0 == chunk
    decreases n - start
  {
    if start >= n then []
    else [(start, Min(start + chunk, n))] + Chunks(start + chunk, n, chunk)
  }

  /** `_split_rdf(rdf)` for a dataframe of `n` entries: contiguous, non-empty
      ranges of `chunk` entries (the last one possibly shorter) covering
      `[0, n)`; `range` refuses a zero step and a negative one yields nothing. */
  function SplitRdf(n: nat, chunk: int): (r: Result<seq<(nat, nat)>>)
    ensures r.Err? <==> chunk == 0
    ensures chunk < 0 ==> r == Ok([])
    ensures chunk > 0 ==> r == Ok(Chunks(0, n, chunk))
  {
    if chunk == 0 then Err(ValueError("range() arg 3 must not be zero"))
    else if chunk < 0 then Ok([])
    else Ok(Chunks(0, n, chunk))
  }

  predicate InRange(c: (nat, nat), k: int) {
    c.0 <= k < c.1
  }

  /** Half-open ranges, each non-empty, each starting where the previous ends. */
  predicate Contiguous(r: seq<(nat, nat)>) {
    && (forall i | 0 <= i < |r| :: r[i].0 < r[i].1)
    && (forall i | 0 <= i < |r| - 1 :: r[i].1 == r[i + 1].0)
  }

  lemma {:induction false} ContiguousIncreasing(r: seq<(nat, nat)>)
    requires Contiguous(r)
    ensures forall i, j | 0 <= i < j < |r| :: r[i].1 <= r[j].0
  {
    if |r| > 1 {
      var init := r[..|r| - 1];
      ContiguousIncreasing(init);
      forall i, j | 0 <= i < j < |r| ensures r[i].1 <= r[j].0 {
        if j < |r| - 1 {
          assert init[i] == r[i] && init[j] == r[j];
        } else if i < |r| - 2 {
          assert init[i] == r[i] && init[|r| - 2] == r[|r| - 2];
        }
      }
    }
  }

  /** No point lies in two different contiguous ranges. */
  lemma ContiguousDisjoint(r: seq<(nat, nat)>, k: int)
    requires Contiguous(r)
    ensures forall i, j | 0 <= i < |r| && 0 <= j < |r| && InRange(r[i], k) && InRange(r[j], k) :: i == j
  {
    ContiguousIncreasing(r);
  }

  /** A point lies in some contiguous range iff it lies in their span. */
  lemma {:induction false} ContiguousSpan(r: seq<(nat, nat)>, k: int)
    requires Contiguous(r) && r != []
    ensures r[0].0 <= k < r[|r| - 1].1 <==> exists i | 0 <= i < |r| :: InRange(r[i], k)
    decreases |r|
  {
    ContiguousIncreasing(r);
    if r[0].0 <= k < r[|r| - 1].1 {
      if k < r[0].1 {
        assert InRange(r[0], k);
      } else {
        var rest := r[1..];
        assert forall i | 0 <= i < |rest| :: rest[i] == r[i + 1];
        ContiguousSpan(rest, k);
        var i :| 0 <= i < |rest| && InRange(rest[i], k);
        assert InRange(r[i + 1], k);
      }
    }
    forall i | 0 <= i < |r| && InRange(r[i], k) ensures r[0].0 <= k < r[|r| - 1].1 {
      if i > 0 {
        assert r[0].1 <= r[i].0;
      }
      if i < |r| - 1 {
        assert r[i].1 <= r[|r| - 1].0;
      }
    }
  }

  /** The ranges `r` hold `k` exactly when it lies in `[lo, hi)`, and then
      only one of them does. */
  predicate CoveredOnce(r: seq<(nat, nat)>, lo: int, hi: int, k: int) {
    && (lo <= k < hi <==> exists i | 0 <= i < |r| :: InRange(r[i], k))
    && forall i, j | 0 <= i < |r| && 0 <= j < |r| && InRange(r[i], k) && InRange(r[j], k) :: i == j
  }

  /** Contiguous ranges cover the span from the first start to the last end,
      each point exactly once. */
  lemma ContiguousCover(r: seq<(nat, nat)>, k: int)
    requires Contiguous(r) && r != []
    ensures CoveredOnce(r, r[0].0, r[|r| - 1].1, k)
  {
    ContiguousSpan(r, k);
    ContiguousDisjoint(r, k);
  }

  /** Every entry of `[start, n)` falls in exactly one chunk, and no other does. */
  lemma ChunksCover(start: nat, n: nat, chunk: nat, k: int)
    requires chunk > 0
    ensures CoveredOnce(Chunks(start, n, chunk), start, n, k)
  {
    var r := Chunks(start, n, chunk);
    if start >= n {
      assert r == [];
    } else {
      ChunksContiguous(start, n, chunk);
      ContiguousCover(r, k);
    }
  }

  lemma ChunksContiguous(start: nat, n: nat, chunk: nat)
    requires chunk > 0 && start < n
    ensures var r := Chunks(start, n, chunk); Contiguous(r) && r != [] && r[0].0 == start && r[|r| - 1].1 == n
  {
  }

  // ---------------------------------------------------------------------
  // _is_electron, _is_mc, _skip_qsq_smear, _trigger_from_path

  /** `_is_electron(trigger)` */
  function IsElectron(trigger: string): (r: Result<bool>)
    ensures r == Ok(false) <==> Contains(trigger, "MuMu_")
    ensures r == Ok(true) <==> !Contains(trigger, "MuMu_") && Contains(trigger, "EE_")
    ensures r.Err? ==> r == Err(ValueError("Cannot determine if trigger is muon or electron: " + trigger))
  {
    if Contains(trigger, "MuMu_") then Ok(false)
    else if Contains(trigger, "EE_") then Ok(true)
    else Err(ValueError("Cannot determine if trigger is muon or electron: " + trigger))
  }

  /** `_is_mc(path)` */
  function IsMcPath(path: string): (r: Result<bool>)
    ensures r == Ok(false) <==> Contains(path, "/data_24_mag")
    ensures r == Ok(true) <==> !Contains(path, "/data_24_mag") && Contains(path, "/mc_mag")
    ensures r.Err? ==> r == Err(ValueError("Cannot determine if MC or data for: " + path))
  {
    if Contains(path, "/data_24_mag") then Ok(false)
    else if Contains(path, "/mc_mag") then Ok(true)
    else Err(ValueError("Cannot determine if MC or data for: " + path))
  }

  /** `_skip_qsq_smear(trigger, path)`: only electron simulation is smeared;
      the channel is not looked at for data. */
  function SkipQsqSmear(trigger: string, path: string): (r: Result<bool>)
    ensures r == Ok(false) <==> IsMcPath(path) == Ok(true) && IsElectron(trigger) == Ok(true)
    ensures IsMcPath(path) == Ok(false) ==> r == Ok(true)
    ensures IsMcPath(path) == Ok(true) && IsElectron(trigger) == Ok(false) ==> r == Ok(true)
    ensures r.Err? ==> r == IsMcPath(path) || (IsMcPath(path) == Ok(true) && r == IsElectron(trigger))
    // it raises exactly when `_is_mc` does, or, on simulation, when `_is_electron` does
    ensures r.Err? <==> IsMcPath(path).Err? || (IsMcPath(path) == Ok(true) && IsElectron(trigger).Err?)
  {
    var mc :- IsMcPath(path);
    if !mc then Ok(true)
    else
      var electron :- IsElectron(trigger);
      Ok(!electron)
  }

  /** "Hlt2" and "_MVA" cannot overlap: no character of one is in the other. */
  lemma HltMvaApart(path: string, i: nat, j: nat)
    requires OccursAt(path, "Hlt2", i) && OccursAt(path, "_MVA", j)
    ensures i + 4 <= j || j + 4 <= i
  {
    var h, m := path[i..i + 4], path[j..j + 4];
    assert h == "Hlt2" && m == "_MVA";
    assert forall k | i <= k < i + 4 :: path[k] == h[k - i];
    assert forall k | j <= k < j + 4 :: path[k] == m[k - j];
    assert path[i] == 'H' && path[j] == '_';
  }

  /** `_trigger_from_path(path)`: from the first `Hlt2` to the end of the
      first `_MVA`; `str.index` raises when either is missing. */
  function TriggerFromPath(path: string): (r: Result<string>)
    ensures r.Ok? <==> match (FirstIndex(path, "Hlt2"), FirstIndex(path, "_MVA"))
                       case (Some(i), Some(j)) => i < j + 4
                       case _ => false
    ensures r.Ok? ==> StartsWith(r.value, "Hlt2") && EndsWith(r.value, "_MVA") && |r.value| >= 8
    ensures r.Ok? ==> Contains(path, r.value)
    // the text from the first `Hlt2` up to and including the first `_MVA`
    ensures r.Ok? ==> var i, j := FirstIndex(path, "Hlt2").value, FirstIndex(path, "_MVA").value;
                      i <= j + 4 <= |path| && r.value == path[i..j + 4]
  {
    match FirstIndex(path, "Hlt2")
    case None => Err(ValueError("substring not found"))
    case Some(ichar) =>
      match FirstIndex(path, "_MVA")
      case None => Err(ValueError("substring not found"))
      case Some(j) =>
        var fchar := j + 4;
        if ichar >= fchar then Err(ValueError("Cannot extract trigger name from: " + path))
        else
          TriggerShape(path, ichar, j);
          Ok(path[ichar..fchar])
  }

  /** The text from an `Hlt2` to the end of a later `_MVA` starts with the one
      and ends with the other. */
  lemma TriggerShape(path: string, i: nat, j: nat)
    requires OccursAt(path, "Hlt2", i) && OccursAt(path, "_MVA", j) && i < j + 4
    ensures i + 8 <= j + 4 <= |path|
    ensures var trigger := path[i..j + 4];
            && StartsWith(trigger, "Hlt2") && EndsWith(trigger, "_MVA") && |trigger| >= 8
            && Contains(path, trigger)
  {
    HltMvaApart(path, i, j);
    var trigger := path[i..j + 4];
    assert trigger[..4] == path[i..i + 4];
    assert trigger[|trigger| - 4..] == path[j..j + 4];
    assert OccursAt(path, trigger, i);
  }

  // ---------------------------------------------------------------------
  // _process_rdf

  /** The calculator `_process_rdf` hands a non-empty dataframe to (after
      the misidentification columns of MisCalculator are added). */
  datatype Plan =
    /** an empty input: a frame with no entries whose only column is `fake_column` */
    | Placeholder
    | Hop(prefix: string)
    | MassBias(skipCorrection: bool, ecorrKind: string, suffix: string)
    /** SWPCalculator with PDG ids for the leptons and the hadron */
    | Swp(leptonId: int, hadronId: int, prefix: string, useSs: bool)

  /** `_process_rdf(rdf, trigger, path)` for a dataframe of `nentries` entries. */
  function ProcessRdf(nentries: nat, kind: string, trigger: string, path: string): (r: Result<Plan>)
    ensures nentries == 0 ==> r == Ok(Placeholder)
    ensures nentries > 0 && kind !in L_KIND ==> r == Err(ValueError("Invalid kind: " + kind))
    ensures nentries > 0 && kind == "hop" ==> r == Ok(Hop(kind))
    // ecalo_bias is switched off on simulation, the track-based corrections never are
    ensures nentries > 0 && kind in L_ECORR ==>
              (r.Ok? <==> IsMcPath(path).Ok?)
              && (r.Ok? ==> r.value == MassBias(IsMcPath(path).value && kind == "ecalo_bias", kind, kind))
    ensures nentries > 0 && kind in L_ECORR && IsMcPath(path).Err? ==> r == Err(IsMcPath(path).error)
    ensures nentries > 0 && kind in ["swp_jpsi_misid", "swp_cascade"] ==>
              r.Ok? && r.value.Swp? && r.value.prefix == kind && (r.value.useSs <==> Contains(trigger, "SameSign"))
    ensures r.Ok? && r.value.Swp? ==>
              (r.value.leptonId, r.value.hadronId) == (if kind == "swp_jpsi_misid" then (13, 13) else (211, 321))
  {
    if nentries == 0 then Ok(Placeholder)
    else
      var isSs := Contains(trigger, "SameSign");
      if kind == "hop" then Ok(Hop(kind))
      else if kind in L_ECORR then
        var mc :- IsMcPath(path);
        Ok(MassBias(mc && kind == "ecalo_bias", kind, kind))
      else if kind == "swp_jpsi_misid" then Ok(Swp(13, 13, kind, isSs))
      else if kind == "swp_cascade" then Ok(Swp(211, 321, kind, isSs))
      else Err(ValueError("Invalid kind: " + kind))
  }
}
