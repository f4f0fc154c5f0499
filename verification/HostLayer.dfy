/**
 Transactional creation of ephemeral layers (host/host.go).

 Directories are lists of path components. Nobody else touches them, and RemoveAll succeeds.
 A call carries which of its checks and directory creations fail.
 */
module HostLayer {
  import opened Strings
  import opened Paths
  import opened Patterns

  type Path = seq<string>

  datatype Faults = Faults(
    cancelled: bool, baseRootBad: bool, rootBad: bool, parentFails: bool, upperFails: bool, workFails: bool,
    parentBad: bool, upperBad: bool, workBad: bool)

  datatype Result = Layer(cageID: string, upper: Path, work: Path) | AlreadyExists | Refused

  /** `validCageID` of the host package. */
  predicate ValidCageID(s: string) {
    "cage-" <= s && 8 <= |s| <= 68 && AllLowerAlnumOrDash(s)
  }

  function Parent(root: Path, cageID: string): Path {
    root + [cageID]
  }

  function Upper(root: Path, cageID: string): Path {
    root + [cageID] + ["upper"]
  }

  function Work(root: Path, cageID: string): Path {
    root + [cageID] + ["work"]
  }

  function LayerDirs(root: Path, cageID: string): set<Path> {
    {Parent(root, cageID), Upper(root, cageID), Work(root, cageID)}
  }

  /** Every directory but the root of the tree has its parent. */
  ghost predicate Tree(dirs: set<Path>) {
    forall p :: p in dirs && p != [] ==> p[..|p| - 1] in dirs
  }

  function RemoveAll(dirs: set<Path>, p: Path): set<Path> {
    set q | q in dirs && !(p <= q)
  }

  /** What the file system and the inspections let a call complete. */
  predicate Completes(faults: Faults) {
    !faults.upperFails && !faults.workFails && !faults.parentBad && !faults.upperBad && !faults.workBad
  }

  predicate Admitted(cageID: string, faults: Faults) {
    !faults.cancelled && ValidCageID(cageID) && !faults.baseRootBad && !faults.rootBad
  }

  /** `PrepareLayer`: all three directories, or the tree exactly as found. */
  function PrepareResult(dirs: set<Path>, root: Path, cageID: string, faults: Faults): (set<Path>, Result) {
    if !Admitted(cageID, faults) then (dirs, Refused)
    else if Parent(root, cageID) in dirs then (dirs, AlreadyExists)
    else if faults.parentFails || !Completes(faults) then (dirs, Refused)
    else (dirs + LayerDirs(root, cageID), Layer(cageID, Upper(root, cageID), Work(root, cageID)))
  }

  class BaseRootAuthority {
    const root: Path
    var dirs: set<Path>

    constructor (root: Path, dirs: set<Path>)
      ensures this.root == root && this.dirs == dirs
    {
      this.root := root;
      this.dirs := dirs;
    }

    /** `os.Mkdir`: refused when the directory exists or its parent does not. */
    method Mkdir(p: Path, fails: bool) returns (ok: bool)
      requires p != []
      modifies this
      ensures ok <==> !fails && p !in old(dirs) && p[..|p| - 1] in old(dirs)
      ensures dirs == if ok then old(dirs) + {p} else old(dirs)
    {
      ok := !fails && p !in dirs && p[..|p| - 1] in dirs;
      if ok {
        dirs := dirs + {p};
      }
    }

    /** The three Mkdir calls and the three inspections; what they leave is within the layer. */
    method MakeLayer(cageID: string, faults: Faults) returns (made: bool)
      requires root in dirs && Parent(root, cageID) !in dirs && Upper(root, cageID) !in dirs && Work(root, cageID) !in dirs
      modifies this
      ensures old(dirs) <= dirs <= old(dirs) + LayerDirs(root, cageID)
      ensures made <==> !faults.parentFails && Completes(faults)
      ensures made ==> dirs == old(dirs) + LayerDirs(root, cageID)
    {
      LayerPaths(root, cageID);
      made := Mkdir(Parent(root, cageID), faults.parentFails);
      if !made {
        return;
      }
      made := Mkdir(Upper(root, cageID), faults.upperFails);
      if !made {
        return;
      }
      made := Mkdir(Work(root, cageID), faults.workFails);
      made := made && !faults.parentBad && !faults.upperBad && !faults.workBad;
    }

    /** `PrepareLayer`, with its deferred RemoveAll. */
    method PrepareLayer(cageID: string, faults: Faults) returns (result: Result)
      requires Tree(dirs) && root in dirs
      modifies this
      ensures (dirs, result) == PrepareResult(old(dirs), root, cageID, faults)
      ensures result.Layer? <==>
        Admitted(cageID, faults) && Parent(root, cageID) !in old(dirs) && !faults.parentFails && Completes(faults)
      ensures dirs == old(dirs) + if result.Layer? then LayerDirs(root, cageID) else {}
      ensures result.Layer? ==>
        result.cageID == cageID && result.upper == root + [cageID] + ["upper"] && result.work == root + [cageID] + ["work"]
      ensures Tree(dirs) && root in dirs
    {
      TreeGrows(dirs, root, cageID);
      if faults.cancelled || !ValidCageID(cageID) || faults.baseRootBad || faults.rootBad {
        return Refused;
      }
      if Parent(root, cageID) in dirs {
        return AlreadyExists;
      }
      NoDescendants(dirs, Parent(root, cageID));
      LayerPaths(root, cageID);
      var made := MakeLayer(cageID, faults);
      if !made {
        RemovesOnlyLayer(old(dirs), dirs, root, cageID);
        dirs := RemoveAll(dirs, Parent(root, cageID));
        return Refused;
      }
      return Layer(cageID, Upper(root, cageID), Work(root, cageID));
    }
  }

  // ----- The tree

  lemma LayerPaths(root: Path, cageID: string)
    ensures var p, u, w := Parent(root, cageID), Upper(root, cageID), Work(root, cageID);
            && p[..|p| - 1] == root && u[..|u| - 1] == p && w[..|w| - 1] == p
            && p <= u && p <= w && u != w && p != u && p != w
  {
    var p, u, w := Parent(root, cageID), Upper(root, cageID), Work(root, cageID);
    assert u[|u| - 1] == "upper" && w[|w| - 1] == "work";
  }

  /** In a tree, a missing directory has nothing below it. */
  lemma {:induction false} NothingBelow(dirs: set<Path>, p: Path, q: Path)
    requires Tree(dirs) && p !in dirs && p <= q
    ensures q !in dirs
    decreases |q|
  {
    if |q| > |p| {
      NothingBelow(dirs, p, q[..|q| - 1]);
    } else {
      assert q == p;
    }
  }

  lemma NoDescendants(dirs: set<Path>, p: Path)
    requires Tree(dirs) && p !in dirs
    ensures forall q :: q in dirs ==> !(p <= q)
  {
    forall q | q in dirs
      ensures !(p <= q)
    {
      if p <= q {
        NothingBelow(dirs, p, q);
      }
    }
  }

  /** The deferred removal restores the tree that the call found. */
  lemma RemovesOnlyLayer(before: set<Path>, now: set<Path>, root: Path, cageID: string)
    requires Tree(before) && Parent(root, cageID) !in before
    requires before <= now <= before + LayerDirs(root, cageID)
    ensures RemoveAll(now, Parent(root, cageID)) == before
  {
    NoDescendants(before, Parent(root, cageID));
    LayerPaths(root, cageID);
  }

  lemma TreeGrows(dirs: set<Path>, root: Path, cageID: string)
    requires Tree(dirs) && root in dirs
    ensures Tree(dirs + LayerDirs(root, cageID))
  {
    LayerPaths(root, cageID);
  }

  // ----- Sequences of calls

  datatype Call = Call(cageID: string, faults: Faults)

  /** The directories and results of a sequence of calls. */
  function Dirs(dirs: set<Path>, root: Path, calls: seq<Call>, n: nat): set<Path>
    requires n <= |calls|
  {
    if n == 0 then dirs
    else PrepareResult(Dirs(dirs, root, calls, n - 1), root, calls[n - 1].cageID, calls[n - 1].faults).0
  }

  function ResultOf(dirs: set<Path>, root: Path, calls: seq<Call>, n: nat): Result
    requires n < |calls|
  {
    PrepareResult(Dirs(dirs, root, calls, n), root, calls[n].cageID, calls[n].faults).1
  }

  /** Directories only ever grow, and each granted layer stays. */
  lemma {:induction false} LayersStay(dirs: set<Path>, root: Path, calls: seq<Call>, i: nat, n: nat)
    requires i < n <= |calls| && ResultOf(dirs, root, calls, i).Layer?
    ensures Parent(root, calls[i].cageID) in Dirs(dirs, root, calls, n)
  {
    if i < n - 1 {
      LayersStay(dirs, root, calls, i, n - 1);
    }
  }

  /** Each cage ID gets at most one layer, over every sequence of calls and every fault pattern. */
  lemma OneLayerPerCage(dirs: set<Path>, root: Path, calls: seq<Call>, i: nat, j: nat)
    requires i < j < |calls| && ResultOf(dirs, root, calls, i).Layer? && ResultOf(dirs, root, calls, j).Layer?
    ensures calls[i].cageID != calls[j].cageID
  {
    LayersStay(dirs, root, calls, i, j);
  }

  /** The cages granted a layer in the first `n` calls. */
  function Granted(dirs: set<Path>, root: Path, calls: seq<Call>, n: nat): set<string>
    requires n <= |calls|
  {
    if n == 0 then {}
    else
      Granted(dirs, root, calls, n - 1)
      + if ResultOf(dirs, root, calls, n - 1).Layer? then {calls[n - 1].cageID} else {}
  }

  function LayersOf(root: Path, cages: set<string>): set<Path> {
    set c, p | c in cages && p in LayerDirs(root, c) :: p
  }

  lemma LayersOfOneMore(root: Path, cages: set<string>, c: string)
    ensures LayersOf(root, cages + {c}) == LayersOf(root, cages) + LayerDirs(root, c)
  {
  }

  lemma Regroup(a: set<Path>, b: set<Path>, c: set<Path>)
    ensures (a + b) + c == a + (b + c)
  {
  }

  /** After any calls the directories are the ones they found plus the granted layers, whole, and nothing else. */
  lemma {:induction false} TreeIsInitialPlusLayers(dirs: set<Path>, root: Path, calls: seq<Call>, n: nat)
    requires n <= |calls|
    ensures Dirs(dirs, root, calls, n) == dirs + LayersOf(root, Granted(dirs, root, calls, n))
  {
    if n == 0 {
      assert LayersOf(root, {}) == {};
    } else {
      var m, cage := n - 1, calls[n - 1].cageID;
      var cages := Granted(dirs, root, calls, m);
      TreeIsInitialPlusLayers(dirs, root, calls, m);
      if ResultOf(dirs, root, calls, m).Layer? {
        LayersOfOneMore(root, cages, cage);
        Regroup(dirs, LayersOf(root, cages), LayerDirs(root, cage));
      } else {
        assert cages + {} == cages;
      }
    }
  }

  /** A call that grants no layer leaves the tree as found; a refused duplicate keeps the existing layer. */
  lemma FailuresLeaveNoTrace(dirs: set<Path>, root: Path, calls: seq<Call>, n: nat)
    requires n < |calls| && !ResultOf(dirs, root, calls, n).Layer?
    ensures Dirs(dirs, root, calls, n + 1) == Dirs(dirs, root, calls, n)
    ensures ResultOf(dirs, root, calls, n) == AlreadyExists ==>
      Parent(root, calls[n].cageID) in Dirs(dirs, root, calls, n + 1)
  {
  }

  /** The first `n` calls without those that granted nothing. */
  function Fruitful(dirs: set<Path>, root: Path, calls: seq<Call>, n: nat): seq<Call>
    requires n <= |calls|
  {
    if n == 0 then []
    else
      Fruitful(dirs, root, calls, n - 1) + if ResultOf(dirs, root, calls, n - 1).Layer? then [calls[n - 1]] else []
  }

  /** Calls still to come do not matter. */
  lemma {:induction false} DirsPrefix(dirs: set<Path>, root: Path, calls: seq<Call>, more: seq<Call>, n: nat)
    requires n <= |calls|
    ensures Dirs(dirs, root, calls + more, n) == Dirs(dirs, root, calls, n)
  {
    if n > 0 {
      DirsPrefix(dirs, root, calls, more, n - 1);
    }
  }

  /** Every call of a run grants a layer. */
  ghost predicate AllGrant(dirs: set<Path>, root: Path, calls: seq<Call>) {
    forall i :: 0 <= i < |calls| ==> ResultOf(dirs, root, calls, i).Layer?
  }

  lemma OneMoreGrant(dirs: set<Path>, root: Path, kept: seq<Call>, call: Call)
    requires AllGrant(dirs, root, kept)
    requires PrepareResult(Dirs(dirs, root, kept, |kept|), root, call.cageID, call.faults).1.Layer?
    ensures AllGrant(dirs, root, kept + [call])
    ensures Dirs(dirs, root, kept + [call], |kept| + 1)
         == PrepareResult(Dirs(dirs, root, kept, |kept|), root, call.cageID, call.faults).0
  {
    var all := kept + [call];
    DirsPrefix(dirs, root, kept, [call], |kept|);
    forall i | 0 <= i < |all|
      ensures ResultOf(dirs, root, all, i).Layer?
    {
      if i < |kept| {
        DirsPrefix(dirs, root, kept, [call], i);
        assert ResultOf(dirs, root, kept, i).Layer?;
      }
    }
  }

  /** Failed calls are invisible: the run without them grants every call it keeps and ends with the same directories. */
  lemma {:induction false} FailuresAreInvisible(dirs: set<Path>, root: Path, calls: seq<Call>, n: nat)
    requires n <= |calls|
    ensures var kept := Fruitful(dirs, root, calls, n);
            AllGrant(dirs, root, kept) && Dirs(dirs, root, kept, |kept|) == Dirs(dirs, root, calls, n)
  {
    if n > 0 {
      var m := n - 1;
      FailuresAreInvisible(dirs, root, calls, m);
      var kept := Fruitful(dirs, root, calls, m);
      if ResultOf(dirs, root, calls, m).Layer? {
        OneMoreGrant(dirs, root, kept, calls[m]);
      } else {
        FailuresLeaveNoTrace(dirs, root, calls, m);
        assert kept + [] == kept;
      }
    }
  }

  // ----- Paths

  lemma CageIDIsProper(id: string)
    requires ValidCageID(id)
    ensures Proper(id)
  {
    forall i | 0 <= i < |id|
      ensures id[i] != SLASH
    {
    }
  }

  /** Neither of two directories is the other or lies below it. */
  ghost predicate Apart(a: string, b: string) {
    !AtOrBelow(a, b) && !AtOrBelow(b, a)
  }

  /** `filepath.Join(filepath.Join(root, cageID), leaf)`. */
  function LayerPath(root: string, cageID: string, leaf: string): string
    requires Rooted(root)
  {
    JoinPath(JoinPath(root, cageID), leaf)
  }

  /** The joined strings name the component lists that the tree uses. */
  lemma LayerPathComponents(root: string, cageID: string)
    requires SafeAbsolutePath(root) && ValidCageID(cageID)
    ensures SafeAbsolutePath(LayerPath(root, cageID, "upper")) && SafeAbsolutePath(LayerPath(root, cageID, "work"))
    ensures Components(LayerPath(root, cageID, "upper")) == Upper(Components(root), cageID)
    ensures Components(LayerPath(root, cageID, "work")) == Work(Components(root), cageID)
  {
    CageIDIsProper(cageID);
    assert Proper("upper") && Proper("work");
    JoinAppends(root, cageID);
    JoinAppends(root + "/" + cageID, "upper");
    JoinAppends(root + "/" + cageID, "work");
  }

  lemma ComponentsBySlash(a: string, b: string)
    requires SafeAbsolutePath(a) && SafeAbsolutePath(b)
    ensures AtOrBelow(a, b) <==> Components(b) <= Components(a)
  {
    AtOrBelowIsComponentPrefix(a, b);
    assert a == "" + [SLASH] + a[1..] && b == "" + [SLASH] + b[1..];
    SplitAtSeparator("", a[1..], SLASH);
    SplitAtSeparator("", b[1..], SLASH);
    assert Split("", SLASH) == [""];
    assert Split(a, SLASH) == [""] + Components(a) && Split(b, SLASH) == [""] + Components(b);
    assert Components(a) == Split(a, SLASH)[1..] && Components(b) == Split(b, SLASH)[1..];
  }

  /** Upper and work directories of distinct cages never contain one another, whichever leaves are compared. */
  lemma LayersAreDisjoint(root: string, a: string, b: string, x: string, y: string)
    requires SafeAbsolutePath(root) && ValidCageID(a) && ValidCageID(b) && a != b
    requires x in ["upper", "work"] && y in ["upper", "work"]
    ensures Apart(LayerPath(root, a, x), LayerPath(root, b, y))
  {
    LayerPathComponents(root, a);
    LayerPathComponents(root, b);
    var p, q, n := Components(LayerPath(root, a, x)), Components(LayerPath(root, b, y)), |Components(root)|;
    assert p[n] == a && q[n] == b;
    ComponentsBySlash(LayerPath(root, a, x), LayerPath(root, b, y));
    ComponentsBySlash(LayerPath(root, b, y), LayerPath(root, a, x));
  }
}
