/**
 Path tests written on strings, and what they mean on lists of components
 (lifecycle/authority.go, host/host.go).
 */
module Paths {
  import opened Strings

  const SLASH: char := '/'

  /** A component that names something below its parent. */
  ghost predicate Proper(c: string) {
    c != "" && c != "." && c != ".." && Free(c, SLASH)
  }

  ghost predicate AllProper(cs: seq<string>) {
    forall i :: 0 <= i < |cs| ==> Proper(cs[i])
  }

  /** Lexical resolution: drop empty and "." components, let ".." remove its predecessor. */
  function Resolve(done: seq<string>, cs: seq<string>): seq<string>
    decreases |cs|
  {
    if cs == [] then done
    else if cs[0] == "" || cs[0] == "." then Resolve(done, cs[1..])
    else if cs[0] == ".." then Resolve(if done == [] then [] else done[..|done| - 1], cs[1..])
    else Resolve(done + [cs[0]], cs[1..])
  }

  predicate Rooted(value: string) {
    value != "" && value[0] == SLASH
  }

  /** `path.Clean` on a rooted path. */
  function Clean(value: string): string
    requires Rooted(value)
  {
    "/" + Join(Resolve([], Split(value[1..], SLASH)), SLASH)
  }

  predicate ContainsDoubleSlash(value: string) {
    exists i :: 0 <= i < |value| - 1 && value[i] == SLASH && value[i + 1] == SLASH
  }

  /** `safeAbsolutePath`, as both packages write it. */
  predicate SafeAbsolutePath(value: string) {
    Rooted(value) && Clean(value) == value && value != "/" && !ContainsDoubleSlash(value)
  }

  /** The components of a rooted path; the root itself has none. */
  function Components(value: string): seq<string> {
    if !Rooted(value) || value == "/" then [] else Split(value[1..], SLASH)
  }

  lemma {:induction false} ResolveKeepsProper(done: seq<string>, cs: seq<string>)
    requires AllProper(cs)
    ensures Resolve(done, cs) == done + cs
    decreases |cs|
  {
    if cs != [] {
      ResolveKeepsProper(done + [cs[0]], cs[1..]);
      assert done + [cs[0]] + cs[1..] == done + cs;
    }
  }

  lemma {:induction false} ResolveYieldsProper(done: seq<string>, cs: seq<string>)
    requires AllProper(done) && AllFree(cs, SLASH)
    ensures AllProper(Resolve(done, cs))
    decreases |cs|
  {
    if cs != [] {
      assert AllFree(cs[1..], SLASH);
      if cs[0] == "" || cs[0] == "." {
        ResolveYieldsProper(done, cs[1..]);
      } else if cs[0] == ".." {
        ResolveYieldsProper(if done == [] then [] else done[..|done| - 1], cs[1..]);
      } else {
        ResolveYieldsProper(done + [cs[0]], cs[1..]);
      }
    }
  }

  lemma DoubleSlashLeavesEmptyComponent(value: string)
    requires Rooted(value) && ContainsDoubleSlash(value)
    ensures !AllProper(Split(value[1..], SLASH))
  {
    var i :| 0 <= i < |value| - 1 && value[i] == SLASH && value[i + 1] == SLASH;
    var tail := value[1..];
    if i == 0 {
      assert Split(tail, SLASH)[0] == "";
    } else {
      var a, b := tail[..i - 1], tail[i + 1..];
      assert tail == a + [SLASH] + ([SLASH] + b);
      SplitAtSeparator(a, [SLASH] + b, SLASH);
      SplitAtSeparator("", b, SLASH);
      assert [SLASH] + b == "" + [SLASH] + b;
      assert Split(tail, SLASH)[|Split(a, SLASH)|] == "";
    }
  }

  /** A safe path is exactly a rooted, non-empty list of proper components. */
  lemma SafePathIsProperComponents(value: string)
    ensures SafeAbsolutePath(value) <==>
      Rooted(value) && Components(value) != [] && AllProper(Components(value))
  {
    if Rooted(value) {
      var tail := value[1..];
      var parts := Split(tail, SLASH);
      JoinSplit(tail, SLASH);
      assert value == "/" + tail;
      ResolveYieldsProper([], parts);
      var resolved := Resolve([], parts);
      if Clean(value) == value && value != "/" {
        assert Join(resolved, SLASH) == tail;
        SplitJoin(resolved, SLASH);
      }
      if AllProper(parts) && value != "/" {
        ResolveKeepsProper([], parts);
        assert [] + parts == parts;
        if ContainsDoubleSlash(value) {
          DoubleSlashLeavesEmptyComponent(value);
        }
      }
    }
  }

  /** `value == p || strings.HasPrefix(value, p+"/")`. */
  predicate AtOrBelow(value: string, p: string) {
    value == p || p + "/" <= value
  }

  lemma BelowGivesPrefix(value: string, p: string)
    requires AtOrBelow(value, p)
    ensures Split(p, SLASH) <= Split(value, SLASH)
  {
    if value != p {
      var rest := value[|p| + 1..];
      assert value == p + [SLASH] + rest;
      SplitAtSeparator(p, rest, SLASH);
    }
  }

  lemma PrefixGivesBelow(value: string, p: string)
    requires Split(p, SLASH) <= Split(value, SLASH)
    ensures AtOrBelow(value, p)
  {
    var ps, vs := Split(p, SLASH), Split(value, SLASH);
    JoinSplit(p, SLASH);
    JoinSplit(value, SLASH);
    var tail := vs[|ps|..];
    assert vs == ps + tail;
    if tail == [] {
      assert vs == ps;
    } else {
      JoinConcat(ps, tail, SLASH);
      assert value == p + "/" + Join(tail, SLASH);
    }
  }

  /** The string test is the component test, for every pair of strings. */
  lemma AtOrBelowIsComponentPrefix(value: string, p: string)
    ensures AtOrBelow(value, p) <==> Split(p, SLASH) <= Split(value, SLASH)
  {
    if AtOrBelow(value, p) {
      BelowGivesPrefix(value, p);
    }
    if Split(p, SLASH) <= Split(value, SLASH) {
      PrefixGivesBelow(value, p);
    }
  }

  const PROTECTED_HOST_PATHS: seq<string> := [
    "/opt/brick", "/var/lib/brick", "/run/brick", "/etc/brick", "/root", "/var/run/docker.sock",
    "/run/containerd/containerd.sock"]

  /** `protectedPath`: true exactly when some protected component list is a prefix of the path's. */
  method ProtectedPath(value: string) returns (result: bool)
    ensures result <==> exists i :: 0 <= i < |PROTECTED_HOST_PATHS|
                              && Split(PROTECTED_HOST_PATHS[i], SLASH) <= Split(value, SLASH)
    ensures result <==> IsProtected(value)
  {
    for k := 0 to |PROTECTED_HOST_PATHS|
      invariant forall i :: 0 <= i < k ==> !AtOrBelow(value, PROTECTED_HOST_PATHS[i])
    {
      if AtOrBelow(value, PROTECTED_HOST_PATHS[k]) {
        AtOrBelowIsComponentPrefix(value, PROTECTED_HOST_PATHS[k]);
        return true;
      }
    }
    forall i | 0 <= i < |PROTECTED_HOST_PATHS|
      ensures !(Split(PROTECTED_HOST_PATHS[i], SLASH) <= Split(value, SLASH))
    {
      AtOrBelowIsComponentPrefix(value, PROTECTED_HOST_PATHS[i]);
    }
    return false;
  }

  predicate IsProtected(value: string) {
    exists i :: 0 <= i < |PROTECTED_HOST_PATHS| && AtOrBelow(value, PROTECTED_HOST_PATHS[i])
  }

  // ----- Joining

  /** `path.Join` of a rooted path and a name. */
  function JoinPath(root: string, name: string): string
    requires Rooted(root)
  {
    Clean(root + "/" + name)
  }

  /** Joining a proper name appends one component to a safe path. */
  lemma JoinAppends(root: string, name: string)
    requires SafeAbsolutePath(root) && Proper(name)
    ensures JoinPath(root, name) == root + "/" + name && SafeAbsolutePath(root + "/" + name)
    ensures Components(root + "/" + name) == Components(root) + [name]
  {
    var path := root + "/" + name;
    assert path[1..] == root[1..] + [SLASH] + name;
    SafePathIsProperComponents(root);
    SplitAtSeparator(root[1..], name, SLASH);
    SplitFree(name, SLASH);
    var cs := Components(root) + [name];
    assert Split(path[1..], SLASH) == cs;
    ResolveKeepsProper([], cs);
    assert [] + cs == cs;
    JoinSplit(path[1..], SLASH);
    assert "/" + path[1..] == path;
    SafePathIsProperComponents(path);
  }

  lemma ProperListIsSafe(cs: seq<string>, value: string)
    requires cs != [] && AllProper(cs) && value == "/" + Join(cs, SLASH)
    ensures SafeAbsolutePath(value) && Components(value) == cs
  {
    assert value[1..] == Join(cs, SLASH);
    SplitJoin(cs, SLASH);
    assert Split("", SLASH) == [""] && !Proper("");
    SafePathIsProperComponents(value);
  }

  // ----- Mount selection

  datatype MountInfo = MountInfo(mountPoint: string, propagation: string)

  predicate Covers(mount: MountInfo, target: string) {
    mount.mountPoint == "/" || AtOrBelow(target, mount.mountPoint)
  }

  /** `coveringMount`: the first of the covering mounts with the longest mount-point string. */
  method CoveringMount(target: string, mounts: seq<MountInfo>) returns (result: MountInfo, matched: bool)
    ensures matched <==> exists i :: 0 <= i < |mounts| && Covers(mounts[i], target)
    ensures matched ==> exists i: nat :: LongestCover(target, mounts, i) && result == mounts[i]
  {
    result, matched := MountInfo("", ""), false;
    ghost var best := 0;
    for k := 0 to |mounts|
      invariant matched <==> exists i :: 0 <= i < k && Covers(mounts[i], target)
      invariant matched ==> best < k && LongestCover(target, mounts[..k], best) && result == mounts[best]
    {
      if Covers(mounts[k], target) {
        if !matched || |mounts[k].mountPoint| > |result.mountPoint| {
          result, matched := mounts[k], true;
          best := k;
        }
      }
    }
    assert mounts[..|mounts|] == mounts;
  }

  ghost predicate LongestCover(target: string, mounts: seq<MountInfo>, i: nat) {
    && i < |mounts| && Covers(mounts[i], target)
    && (forall j :: 0 <= j < |mounts| && Covers(mounts[j], target) ==> |mounts[j].mountPoint| <= |mounts[i].mountPoint|)
    && (forall j :: 0 <= j < i && Covers(mounts[j], target) ==> |mounts[j].mountPoint| < |mounts[i].mountPoint|)
  }

  ghost predicate CleanMountPoint(p: string) {
    Rooted(p) && (p == "/" || SafeAbsolutePath(p))
  }

  lemma CoversIsComponentPrefix(mount: MountInfo, target: string)
    requires CleanMountPoint(mount.mountPoint) && SafeAbsolutePath(target)
    ensures Covers(mount, target) <==> Components(mount.mountPoint) <= Components(target)
  {
    var p := mount.mountPoint;
    if p != "/" {
      AtOrBelowIsComponentPrefix(target, p);
      RootedSplit(p);
      RootedSplit(target);
      if Components(p) <= Components(target) {
        assert [""] + Components(p) <= [""] + Components(target);
      }
      if [""] + Components(p) <= [""] + Components(target) {
        assert Components(p) == ([""] + Components(p))[1..];
        assert Components(target) == ([""] + Components(target))[1..];
      }
    }
  }

  lemma RootedSplit(value: string)
    requires Rooted(value)
    ensures Split(value, SLASH) == [""] + Split(value[1..], SLASH)
  {
  }

  lemma {:induction false} LongerPrefixLongerString(a: seq<string>, b: seq<string>)
    requires a <= b && |a| < |b| && (forall i :: 0 <= i < |b| ==> b[i] != "")
    ensures |Join(a, SLASH)| < |Join(b, SLASH)|
  {
    if a != [] {
      assert b == a + b[|a|..];
      JoinConcat(a, b[|a|..], SLASH);
    } else if |b| > 1 {
      assert |Join(b, SLASH)| >= |b[0]| + 1;
    }
  }

  lemma SafePathString(value: string)
    requires CleanMountPoint(value)
    ensures value == "/" + Join(Components(value), SLASH)
    ensures AllProper(Components(value))
  {
    if value == "/" {
      assert Components(value) == [];
    } else {
      SafePathIsProperComponents(value);
      JoinSplit(value[1..], SLASH);
      assert value == "/" + value[1..];
    }
  }

  /** Of two different clean mount points above one target, the longer string has more components. */
  lemma LongerCoverMoreComponents(target: string, long: string, short: string)
    requires CleanMountPoint(long) && CleanMountPoint(short) && long != short && |short| <= |long|
    requires Components(long) <= Components(target) && Components(short) <= Components(target)
    ensures |Components(short)| < |Components(long)|
  {
    var a, b := Components(long), Components(short);
    SafePathString(long);
    SafePathString(short);
    assert a == Components(target)[..|a|] && b == Components(target)[..|b|];
    if |b| > |a| {
      LongerPrefixLongerString(a, b);
    }
  }

  /** On a table of distinct clean mount points the chosen mount alone has the longest component prefix. */
  lemma CoveringMountIsLongestPrefix(target: string, mounts: seq<MountInfo>, i: nat)
    requires SafeAbsolutePath(target)
    requires forall k :: 0 <= k < |mounts| ==> CleanMountPoint(mounts[k].mountPoint)
    requires forall k, m :: 0 <= k < m < |mounts| ==> mounts[k].mountPoint != mounts[m].mountPoint
    requires LongestCover(target, mounts, i)
    ensures Components(mounts[i].mountPoint) <= Components(target)
    ensures forall j :: 0 <= j < |mounts| && j != i && Components(mounts[j].mountPoint) <= Components(target) ==>
      |Components(mounts[j].mountPoint)| < |Components(mounts[i].mountPoint)|
  {
    CoversIsComponentPrefix(mounts[i], target);
    forall j | 0 <= j < |mounts| && j != i && Components(mounts[j].mountPoint) <= Components(target)
      ensures |Components(mounts[j].mountPoint)| < |Components(mounts[i].mountPoint)|
    {
      CoversIsComponentPrefix(mounts[j], target);
      LongerCoverMoreComponents(target, mounts[i].mountPoint, mounts[j].mountPoint);
    }
  }
}
