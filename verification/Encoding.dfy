/**
 An injective text form for plans and manifests.

 The digest theorems assume digests without collisions. This module shows that the assumption can be
 met: values are turned into trees and trees into self-delimiting text.
 */
module Encoding {
  import opened Common
  import opened Orders
  import opened CgroupWrites
  import Isolation
  import Resource
  import Integrity

  datatype Tree = Char(c: char) | Node(children: seq<Tree>)

  // ----- Trees as text

  function Render(t: Tree): (r: string)
    ensures r != "" && r[0] == if t.Char? then 'c' else '['
    decreases t, 0
  {
    match t
    case Char(c) => ['c', c]
    case Node(children) => "[" + RenderAll(children) + "]"
  }

  function RenderAll(ts: seq<Tree>): string
    decreases ts, |ts|
  {
    if ts == [] then "" else Render(ts[0]) + RenderAll(ts[1..])
  }

  /** Text after a tree does not blur where the tree ends. */
  lemma {:induction false} RenderUnique(a: Tree, b: Tree, s: string, t: string)
    requires Render(a) + s == Render(b) + t
    ensures a == b && s == t
    decreases a, 0
  {
    assert (Render(a) + s)[0] == Render(a)[0] && (Render(b) + t)[0] == Render(b)[0];
    if a.Char? {
      assert (Render(a) + s)[1] == a.c && (Render(b) + t)[1] == b.c;
      assert s == (Render(a) + s)[2..] == (Render(b) + t)[2..] == t;
    } else {
      var x, y := RenderAll(a.children), RenderAll(b.children);
      assert x + ("]" + s) == (Render(a) + s)[1..] == (Render(b) + t)[1..] == y + ("]" + t);
      RenderAllUnique(a.children, b.children, s, t);
    }
  }

  lemma {:induction false} RenderAllUnique(xs: seq<Tree>, ys: seq<Tree>, s: string, t: string)
    requires RenderAll(xs) + ("]" + s) == RenderAll(ys) + ("]" + t)
    ensures xs == ys && s == t
    decreases xs, |xs|
  {
    var left, right := RenderAll(xs) + ("]" + s), RenderAll(ys) + ("]" + t);
    assert left[0] == (if xs == [] then ']' else Render(xs[0])[0]);
    assert right[0] == (if ys == [] then ']' else Render(ys[0])[0]);
    if xs == [] {
      assert s == left[1..] == right[1..] == t;
    } else {
      var restX, restY := RenderAll(xs[1..]) + ("]" + s), RenderAll(ys[1..]) + ("]" + t);
      assert left == Render(xs[0]) + restX && right == Render(ys[0]) + restY;
      RenderUnique(xs[0], ys[0], restX, restY);
      RenderAllUnique(xs[1..], ys[1..], s, t);
      assert xs == [xs[0]] + xs[1..] && ys == [ys[0]] + ys[1..];
    }
  }

  // ----- Values as trees

  ghost predicate Faithful<T(!new)>(f: T -> Tree) {
    forall x, y :: f(x) == f(y) ==> x == y
  }

  function List<T>(f: T -> Tree, xs: seq<T>): Tree {
    Node(Map(f, xs))
  }

  function Text(s: string): Tree {
    Node(Map(c => Char(c), s))
  }

  function Texts(s: seq<string>): Tree {
    List(Text, s)
  }

  function Number(n: nat): Tree {
    Node(seq(n, _ => Node([])))
  }

  function Bit(b: bool): nat {
    if b then 1 else 0
  }

  lemma ListUnique<T(!new)>(f: T -> Tree, xs: seq<T>, ys: seq<T>)
    requires Faithful(f) && List(f, xs) == List(f, ys)
    ensures xs == ys
  {
    assert |Map(f, xs)| == |Map(f, ys)|;
    forall i | 0 <= i < |xs|
      ensures xs[i] == ys[i]
    {
      assert Map(f, xs)[i] == Map(f, ys)[i];
    }
  }

  lemma TextFaithful()
    ensures Faithful(Text)
  {
    forall x, y | Text(x) == Text(y)
      ensures x == y
    {
      assert |Map(c => Char(c), x)| == |Map(c => Char(c), y)|;
      forall i | 0 <= i < |x|
        ensures x[i] == y[i]
      {
        assert Map(c => Char(c), x)[i] == Map(c => Char(c), y)[i];
      }
    }
  }

  lemma TextsFaithful()
    ensures Faithful(Texts)
  {
    TextFaithful();
    forall x, y | Texts(x) == Texts(y)
      ensures x == y
    {
      ListUnique(Text, x, y);
    }
  }

  lemma NumberFaithful()
    ensures Faithful(Number)
  {
    forall x, y | Number(x) == Number(y)
      ensures x == y
    {
      assert |Number(x).children| == x && |Number(y).children| == y;
    }
  }

  /** A record by its strings, its string lists, its numbers and whatever else it holds. */
  function Fields(texts: seq<string>, lists: seq<seq<string>>, numbers: seq<nat>, others: seq<Tree>): Tree {
    Node([Texts(texts), List(Texts, lists), List(Number, numbers), Node(others)])
  }

  lemma FieldsUnique(a: seq<string>, b: seq<seq<string>>, c: seq<nat>, d: seq<Tree>,
                     a': seq<string>, b': seq<seq<string>>, c': seq<nat>, d': seq<Tree>)
    requires Fields(a, b, c, d) == Fields(a', b', c', d')
    ensures a == a' && b == b' && c == c' && d == d'
  {
    var x, y := Fields(a, b, c, d).children, Fields(a', b', c', d').children;
    assert x[0] == y[0] && x[1] == y[1] && x[2] == y[2] && x[3] == y[3];
    TextFaithful();
    TextsFaithful();
    NumberFaithful();
    ListUnique(Text, a, a');
    ListUnique(Texts, b, b');
    ListUnique(Number, c, c');
  }

  // ----- Isolation plans

  function MappingTree(m: Isolation.UIDMap): Tree {
    Fields([], [], [m.containerID, m.hostID, m.size], [])
  }

  function MountTree(m: Isolation.MountSpec): Tree {
    Fields([m.sourceKind, m.destination], [m.flags, m.options], [Bit(m.readOnly)], [])
  }

  function IsolationTree(p: Isolation.Plan): Tree {
    Fields([p.schema, p.cageID, p.profile, p.seccompDigest, p.parentDeathSignal, p.initMode, p.workingDirectory, p.planDigest],
           [p.namespaceFlags, p.devices, p.capabilityBoundingSet],
           [Bit(p.noNewPrivileges), Bit(p.clearEnvironment), p.closeDescriptorsAt],
           [List(MappingTree, p.uidMappings), List(MappingTree, p.gidMappings), List(MountTree, p.mounts)])
  }

  lemma IsolationPartsFaithful()
    ensures Faithful(MappingTree) && Faithful(MountTree)
  {
    forall x, y | MappingTree(x) == MappingTree(y)
      ensures x == y
    {
      var a, b := [x.containerID, x.hostID, x.size], [y.containerID, y.hostID, y.size];
      FieldsUnique([], [], a, [], [], [], b, []);
      assert a[0] == b[0] && a[1] == b[1] && a[2] == b[2];
    }
    forall x, y | MountTree(x) == MountTree(y)
      ensures x == y
    {
      var a, b := [x.sourceKind, x.destination], [y.sourceKind, y.destination];
      var c, d := [x.flags, x.options], [y.flags, y.options];
      var m, n := [Bit(x.readOnly)], [Bit(y.readOnly)];
      FieldsUnique(a, c, m, [], b, d, n, []);
      assert a[0] == b[0] && a[1] == b[1] && c[0] == d[0] && c[1] == d[1] && m[0] == n[0];
    }
  }

  lemma IsolationTreeUnique(x: Isolation.Plan, y: Isolation.Plan)
    requires IsolationTree(x) == IsolationTree(y)
    ensures x == y
  {
    var a := [x.schema, x.cageID, x.profile, x.seccompDigest, x.parentDeathSignal, x.initMode, x.workingDirectory, x.planDigest];
    var b := [y.schema, y.cageID, y.profile, y.seccompDigest, y.parentDeathSignal, y.initMode, y.workingDirectory, y.planDigest];
    var c, d := [x.namespaceFlags, x.devices, x.capabilityBoundingSet], [y.namespaceFlags, y.devices, y.capabilityBoundingSet];
    var m := [Bit(x.noNewPrivileges), Bit(x.clearEnvironment), x.closeDescriptorsAt];
    var n := [Bit(y.noNewPrivileges), Bit(y.clearEnvironment), y.closeDescriptorsAt];
    var s := [List(MappingTree, x.uidMappings), List(MappingTree, x.gidMappings), List(MountTree, x.mounts)];
    var t := [List(MappingTree, y.uidMappings), List(MappingTree, y.gidMappings), List(MountTree, y.mounts)];
    FieldsUnique(a, c, m, s, b, d, n, t);
    assert a[0] == b[0] && a[1] == b[1] && a[2] == b[2] && a[3] == b[3] && a[4] == b[4] && a[5] == b[5] && a[6] == b[6]
        && a[7] == b[7];
    assert c[0] == d[0] && c[1] == d[1] && c[2] == d[2] && m[0] == n[0] && m[1] == n[1] && m[2] == n[2];
    assert s[0] == t[0] && s[1] == t[1] && s[2] == t[2];
    IsolationPartsFaithful();
    ListUnique(MappingTree, x.uidMappings, y.uidMappings);
    ListUnique(MappingTree, x.gidMappings, y.gidMappings);
    ListUnique(MountTree, x.mounts, y.mounts);
  }

  // ----- Resource plans

  function WriteTree(w: ControlWrite): Tree {
    Fields([w.file, w.value], [], [], [])
  }

  function EndpointTree(e: Resource.Endpoint): Tree {
    Fields([e.serverName, e.protocol], [], [e.port], [])
  }

  function ResourceTree(p: Resource.Plan): Tree {
    Fields([p.schema, p.cageID, p.profile, p.isolationPlanDigest, p.cgroupPath, p.planDigest, p.network.mode,
            p.network.proxySpiffeID],
           [], [p.fileDescriptorMax, p.wallClockSeconds],
           [List(WriteTree, p.writes), List(EndpointTree, p.network.allowedEndpoints)])
  }

  lemma ResourcePartsFaithful()
    ensures Faithful(WriteTree) && Faithful(EndpointTree)
  {
    forall x, y | WriteTree(x) == WriteTree(y)
      ensures x == y
    {
      var a, b := [x.file, x.value], [y.file, y.value];
      FieldsUnique(a, [], [], [], b, [], [], []);
      assert a[0] == b[0] && a[1] == b[1];
    }
    forall x, y | EndpointTree(x) == EndpointTree(y)
      ensures x == y
    {
      var a, b, m, n := [x.serverName, x.protocol], [y.serverName, y.protocol], [x.port], [y.port];
      FieldsUnique(a, [], m, [], b, [], n, []);
      assert a[0] == b[0] && a[1] == b[1] && m[0] == n[0];
    }
  }

  lemma ResourceTreeUnique(x: Resource.Plan, y: Resource.Plan)
    requires ResourceTree(x) == ResourceTree(y)
    ensures x == y
  {
    var a := [x.schema, x.cageID, x.profile, x.isolationPlanDigest, x.cgroupPath, x.planDigest, x.network.mode,
              x.network.proxySpiffeID];
    var b := [y.schema, y.cageID, y.profile, y.isolationPlanDigest, y.cgroupPath, y.planDigest, y.network.mode,
              y.network.proxySpiffeID];
    var m, n := [x.fileDescriptorMax, x.wallClockSeconds], [y.fileDescriptorMax, y.wallClockSeconds];
    var s := [List(WriteTree, x.writes), List(EndpointTree, x.network.allowedEndpoints)];
    var t := [List(WriteTree, y.writes), List(EndpointTree, y.network.allowedEndpoints)];
    FieldsUnique(a, [], m, s, b, [], n, t);
    assert a[0] == b[0] && a[1] == b[1] && a[2] == b[2] && a[3] == b[3] && a[4] == b[4] && a[5] == b[5] && a[6] == b[6]
        && a[7] == b[7];
    assert m[0] == n[0] && m[1] == n[1] && s[0] == t[0] && s[1] == t[1];
    ResourcePartsFaithful();
    ListUnique(WriteTree, x.writes, y.writes);
    ListUnique(EndpointTree, x.network.allowedEndpoints, y.network.allowedEndpoints);
  }

  // ----- Execution plans and manifests

  function VariableTree(e: Integrity.Environment): Tree {
    Fields([e.name, e.value], [], [], [])
  }

  function ExecTree(p: Integrity.ExecPlan): Tree {
    Fields([p.schema, p.cageID, p.profile, p.resourcePlanDigest, p.manifestID, p.manifestDigest, p.executablePath,
            p.interpreterPath, p.workingDirectory, p.planDigest],
           [p.arguments], [p.closeDescriptorsAt, Bit(p.noPathLookup)], [List(VariableTree, p.environment)])
  }

  function DependencyTree(d: Integrity.Dependency): Tree {
    Fields([d.path, d.digest], [], [d.ownerUID, d.mode], [])
  }

  function MaybeDependency(d: Option<Integrity.Dependency>): seq<Integrity.Dependency> {
    if d.Some? then [d.value] else []
  }

  function EntryTree(e: Integrity.Entry): Tree {
    Fields([e.path, e.digest], [e.arguments], [e.ownerUID, e.mode],
           [List(DependencyTree, MaybeDependency(e.interpreter)), List(DependencyTree, e.runtimeDependencies),
            List(VariableTree, e.environment)])
  }

  function ManifestTree(m: Integrity.Manifest): Tree {
    Fields([m.schema, m.manifestID, m.profile, m.signatureAlgorithm, m.signature], [], [], [List(EntryTree, m.entries)])
  }

  lemma IntegrityPartsFaithful()
    ensures Faithful(VariableTree) && Faithful(DependencyTree)
  {
    forall x, y | VariableTree(x) == VariableTree(y)
      ensures x == y
    {
      var a, b := [x.name, x.value], [y.name, y.value];
      FieldsUnique(a, [], [], [], b, [], [], []);
      assert a[0] == b[0] && a[1] == b[1];
    }
    forall x, y | DependencyTree(x) == DependencyTree(y)
      ensures x == y
    {
      var a, b, m, n := [x.path, x.digest], [y.path, y.digest], [x.ownerUID, x.mode], [y.ownerUID, y.mode];
      FieldsUnique(a, [], m, [], b, [], n, []);
      assert a[0] == b[0] && a[1] == b[1] && m[0] == n[0] && m[1] == n[1];
    }
  }

  lemma ExecTreeUnique(x: Integrity.ExecPlan, y: Integrity.ExecPlan)
    requires ExecTree(x) == ExecTree(y)
    ensures x == y
  {
    var a := [x.schema, x.cageID, x.profile, x.resourcePlanDigest, x.manifestID, x.manifestDigest, x.executablePath,
              x.interpreterPath, x.workingDirectory, x.planDigest];
    var b := [y.schema, y.cageID, y.profile, y.resourcePlanDigest, y.manifestID, y.manifestDigest, y.executablePath,
              y.interpreterPath, y.workingDirectory, y.planDigest];
    var c, d, m, n := [x.arguments], [y.arguments], [x.closeDescriptorsAt, Bit(x.noPathLookup)],
                      [y.closeDescriptorsAt, Bit(y.noPathLookup)];
    var s, t := [List(VariableTree, x.environment)], [List(VariableTree, y.environment)];
    FieldsUnique(a, c, m, s, b, d, n, t);
    assert a[0] == b[0] && a[1] == b[1] && a[2] == b[2] && a[3] == b[3] && a[4] == b[4] && a[5] == b[5] && a[6] == b[6]
        && a[7] == b[7] && a[8] == b[8] && a[9] == b[9];
    assert c[0] == d[0] && m[0] == n[0] && m[1] == n[1] && s[0] == t[0];
    IntegrityPartsFaithful();
    ListUnique(VariableTree, x.environment, y.environment);
  }

  lemma EntryFaithful()
    ensures Faithful(EntryTree)
  {
    IntegrityPartsFaithful();
    forall x, y | EntryTree(x) == EntryTree(y)
      ensures x == y
    {
      var a, b, c, d := [x.path, x.digest], [y.path, y.digest], [x.arguments], [y.arguments];
      var m, n := [x.ownerUID, x.mode], [y.ownerUID, y.mode];
      var s := [List(DependencyTree, MaybeDependency(x.interpreter)), List(DependencyTree, x.runtimeDependencies),
                List(VariableTree, x.environment)];
      var t := [List(DependencyTree, MaybeDependency(y.interpreter)), List(DependencyTree, y.runtimeDependencies),
                List(VariableTree, y.environment)];
      FieldsUnique(a, c, m, s, b, d, n, t);
      assert a[0] == b[0] && a[1] == b[1] && c[0] == d[0] && m[0] == n[0] && m[1] == n[1];
      assert s[0] == t[0] && s[1] == t[1] && s[2] == t[2];
      ListUnique(DependencyTree, MaybeDependency(x.interpreter), MaybeDependency(y.interpreter));
      ListUnique(DependencyTree, x.runtimeDependencies, y.runtimeDependencies);
      ListUnique(VariableTree, x.environment, y.environment);
    }
  }

  lemma ManifestTreeUnique(x: Integrity.Manifest, y: Integrity.Manifest)
    requires ManifestTree(x) == ManifestTree(y)
    ensures x == y
  {
    var a := [x.schema, x.manifestID, x.profile, x.signatureAlgorithm, x.signature];
    var b := [y.schema, y.manifestID, y.profile, y.signatureAlgorithm, y.signature];
    var s, t := [List(EntryTree, x.entries)], [List(EntryTree, y.entries)];
    FieldsUnique(a, [], [], s, b, [], [], t);
    assert a[0] == b[0] && a[1] == b[1] && a[2] == b[2] && a[3] == b[3] && a[4] == b[4] && s[0] == t[0];
    EntryFaithful();
    ListUnique(EntryTree, x.entries, y.entries);
  }

  // ----- Digests without collisions

  /** The text of a value, except that one chosen value gets a chosen digest. */
  ghost function Named<T>(f: T -> Tree, chosen: T, digest: string): T -> string {
    (x: T) => if x == chosen then digest else Render(f(x))
  }

  lemma NamedIsInjective<T(!new)>(f: T -> Tree, chosen: T, digest: string)
    requires Faithful(f) && digest != "" && digest[0] != '[' && (forall x :: f(x).Node?)
    ensures Integrity.Injective(Named(f, chosen, digest))
  {
    var d := Named(f, chosen, digest);
    forall x, y | d(x) == d(y)
      ensures x == y
    {
      if x != chosen && y != chosen {
        RenderUnique(f(x), f(y), "", "");
        assert Render(f(x)) + "" == Render(f(x)) && Render(f(y)) + "" == Render(f(y));
      }
    }
  }

  function Rendered<T>(f: T -> Tree): T -> string {
    (x: T) => Render(f(x))
  }

  lemma RenderedIsInjective<T(!new)>(f: T -> Tree)
    requires Faithful(f)
    ensures Integrity.Injective(Rendered(f))
  {
    forall x, y | Rendered(f)(x) == Rendered(f)(y)
      ensures x == y
    {
      assert Render(f(x)) + "" == Render(f(x)) && Render(f(y)) + "" == Render(f(y));
      RenderUnique(f(x), f(y), "", "");
    }
  }

  lemma TreesAreFaithful()
    ensures Faithful(IsolationTree) && Faithful(ResourceTree) && Faithful(ExecTree) && Faithful(ManifestTree)
  {
    forall x, y | IsolationTree(x) == IsolationTree(y)
      ensures x == y
    {
      IsolationTreeUnique(x, y);
    }
    forall x, y | ResourceTree(x) == ResourceTree(y)
      ensures x == y
    {
      ResourceTreeUnique(x, y);
    }
    forall x, y | ExecTree(x) == ExecTree(y)
      ensures x == y
    {
      ExecTreeUnique(x, y);
    }
    forall x, y | ManifestTree(x) == ManifestTree(y)
      ensures x == y
    {
      ManifestTreeUnique(x, y);
    }
  }
}
