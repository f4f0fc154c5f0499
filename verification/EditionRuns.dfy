/**
 When a compiled intent goes through every stage (edition/authority.go).

 The chain theorems speak of successful runs. Here a run is shown to exist exactly when the stack is
 ready for the intent, and a stack with collision-free digests and a successful run is exhibited.
 */
module EditionRuns {
  import opened Common
  import opened Orders
  import opened Strings
  import opened Paths
  import opened Patterns
  import opened CgroupWrites
  import opened Edition
  import CgroupApply
  import Isolation
  import Resource
  import Integrity
  import Encoding

  // ----- The honest run, which hands on each plan as issued

  ghost function IsolationOf(k: Stack, x: Compilation): Isolation.Plan {
    Isolation.Issue(k.isolation, x.isolationRequest)
  }

  ghost function ResourceRequestOf(k: Stack, x: Compilation): Resource.Request {
    Resource.Request(Resource.SCHEMA, x.cageID, x.profile, IsolationOf(k, x).planDigest, x.resourceTemplate,
                     x.networkTemplate)
  }

  ghost function ResourceOf(k: Stack, x: Compilation): Resource.Plan {
    Resource.Issue(k.resource.digest, ResourceRequestOf(k, x))
  }

  ghost function ExecRequestOf(k: Stack, x: Compilation): Integrity.Request {
    x.executionTemplate.(resourcePlanDigest := ResourceOf(k, x).planDigest)
  }

  /** What the later stages demand of a compilation: a cage, digests of the right shape, limits, network, executable. */
  ghost predicate Acceptable(k: Stack, x: Compilation) {
    && IsCageID(x.cageID) && LimitsOk(x.resourceTemplate, k.resource.max) && Resource.ValidNetwork(x.networkTemplate)
    && IsDigest(IsolationOf(k, x).planDigest) && IsDigest(ResourceOf(k, x).planDigest)
    && x.profile == k.integrity.manifest.profile
    && ExecutableReady(k.integrity, x.executionTemplate.executablePath, x.executionTemplate.arguments)
  }

  /** The executable is in the manifest, with its arguments, and every inspected file matches. */
  ghost predicate ExecutableReady(a: Integrity.Authority, path: string, arguments: seq<string>) {
    && Integrity.SafeExecutablePath(path) && Integrity.ValidArguments(arguments)
    && var found := Integrity.FindEntry(Integrity.Kept(a).entries, path);
       && found.Some? && found.value.arguments == arguments
       && Integrity.Matches(a, found.value.path, found.value.digest, found.value.ownerUID, found.value.mode)
       && (found.value.interpreter.Some? ==> Integrity.DependencyMatches(a, found.value.interpreter.value))
       && forall i :: 0 <= i < |found.value.runtimeDependencies| ==>
            Integrity.DependencyMatches(a, found.value.runtimeDependencies[i])
  }

  ghost predicate Ready(k: Stack, intent: Intent) {
    && Compile(k.compiler, false, true, intent).Ok?
    && Acceptable(k, Compile(k.compiler, false, true, intent).value)
  }

  lemma HonestIsolation(k: Stack, intent: Intent, x: Compilation)
    requires ValidStack(k) && Compile(k.compiler, false, true, intent) == Ok(x) && IsCageID(x.cageID)
    ensures Isolation.Prepare(k.isolation, Isolation.Environment(false, true, true), x.isolationRequest)
         == Isolation.Planned(IsolationOf(k, x))
    ensures Isolation.VerifyPlan(k.isolation, IsolationOf(k, x))
    ensures VerifyCompilation(k.compiler, x) && IsolationOf(k, x).cageID == x.cageID && IsolationOf(k, x).profile == x.profile
    ensures "network" in IsolationOf(k, x).namespaceFlags
  {
    var iso := IsolationOf(k, x);
    StrictRequestAcceptedIff(k.compiler, false, true, intent);
    CompilationsVerify(k.compiler, false, true, intent);
    Isolation.SameUpToOrderVerifies(k.isolation, x.isolationRequest, iso);
    assert x.isolationRequest.namespaces[5] == "network";
    InMultiset("network", x.isolationRequest.namespaces);
    InMultiset("network", iso.namespaceFlags);
  }

  lemma HonestResource(k: Stack, x: Compilation, iso: Isolation.Plan, req: Resource.Request, res: Resource.Plan)
    requires ValidStack(k) && VerifyCompilation(k.compiler, x) && Isolation.VerifyPlan(k.isolation, iso)
    requires iso.cageID == x.cageID && iso.profile == x.profile && "network" in iso.namespaceFlags
    requires IsDigest(iso.planDigest) && LimitsOk(x.resourceTemplate, k.resource.max)
    requires Resource.ValidNetwork(x.networkTemplate)
    requires req == Resource.Request(Resource.SCHEMA, x.cageID, x.profile, iso.planDigest, x.resourceTemplate, x.networkTemplate)
    requires res == Resource.Issue(k.resource.digest, req)
    ensures BindResource(k.compiler, k.isolation, false, true, x, iso) == Ok(req)
    ensures Resource.Prepare(k.resource, false, true, iso, req) == Resource.Planned(res)
    ensures Resource.VerifyPlan(k.resource.digest, res) && res.cageID == x.cageID && res.profile == x.profile
  {
    assert Resource.ValidRequest(k.resource, req, iso);
    Resource.IssuedPlanVerifies(k.resource, req, iso);
  }

  lemma HonestExec(k: Stack, intent: Intent, x: Compilation, res: Resource.Plan, req: Integrity.Request)
    requires ValidStack(k) && Compile(k.compiler, false, true, intent) == Ok(x) && IsCageID(x.cageID)
    requires Resource.VerifyPlan(k.resource.digest, res) && res.cageID == x.cageID && res.profile == x.profile
    requires IsDigest(res.planDigest) && x.profile == k.integrity.manifest.profile
    requires ExecutableReady(k.integrity, x.executionTemplate.executablePath, x.executionTemplate.arguments)
    requires req == x.executionTemplate.(resourcePlanDigest := res.planDigest)
    ensures BindExecution(k.compiler, k.resource.digest, false, true, x, res) == Ok(req)
    ensures Integrity.Prepare(k.integrity, false, true, res, req).Planned?
  {
    CompilationsVerify(k.compiler, false, true, intent);
    var entry := Integrity.FindEntry(Integrity.Kept(k.integrity).entries, req.executablePath).value;
    assert Integrity.Approved(k.integrity, req, res, entry);
  }

  /** On a ready stack the honest run succeeds. */
  lemma HonestRunSucceeds(k: Stack, intent: Intent) returns (r: Run)
    requires ValidStack(k) && Ready(k, intent)
    ensures Successful(k, r) && r.intent == intent
    ensures r.isolation == r.isolationBind == r.isolationUse && r.resource == r.resourceBind == r.resourceUse
  {
    var x := Compile(k.compiler, false, true, intent).value;
    var iso, resReq, res, execReq := IsolationOf(k, x), ResourceRequestOf(k, x), ResourceOf(k, x), ExecRequestOf(k, x);
    HonestIsolation(k, intent, x);
    HonestResource(k, x, iso, resReq, res);
    HonestExec(k, intent, x, res, execReq);
    var exec := Integrity.Prepare(k.integrity, false, true, res, execReq).plan;
    r := Run(intent, x, iso, iso, iso, resReq, res, res, res, execReq, exec);
  }

  // ----- Whatever succeeds was ready

  lemma BoundRequest(k: Stack, r: Run)
    requires ResourceBound(k, r)
    ensures r.resourceRequest == Resource.Request(Resource.SCHEMA, r.compilation.cageID, r.compilation.profile,
                                                  r.isolation.planDigest, r.compilation.resourceTemplate,
                                                  r.compilation.networkTemplate)
  {
  }

  lemma SuccessfulPlans(k: Stack, r: Run)
    requires Successful(k, r)
    ensures r.isolation == IsolationOf(k, r.compilation) && r.resourceRequest == ResourceRequestOf(k, r.compilation)
    ensures r.resource == ResourceOf(k, r.compilation) && r.execRequest == ExecRequestOf(k, r.compilation)
  {
    CompiledFields(k, r);
    BoundRequest(k, r);
    LimitedFields(k, r);
    ExecBoundFields(k, r);
  }

  lemma PlannedIsReady(k: Stack, r: Run)
    requires Planned(k, r) && ExecBound(k, r)
    ensures IsDigest(r.resource.planDigest) && r.execRequest.profile == k.integrity.manifest.profile
    ensures ExecutableReady(k.integrity, r.execRequest.executablePath, r.execRequest.arguments)
  {
    ExecBoundFields(k, r);
  }

  lemma SuccessMeansReady(k: Stack, r: Run)
    requires ValidStack(k) && Successful(k, r)
    ensures Ready(k, r.intent)
  {
    SuccessfulPlans(k, r);
    CompiledFields(k, r);
    LimitedFields(k, r);
    ExecBoundFields(k, r);
    PlannedIsReady(k, r);
    StrictRequestAcceptedIff(k.compiler, false, true, r.intent);
  }

  /** An intent can be taken through all stages, by whatever copies, if and only if the stack is ready for it. */
  lemma RunExistsIffReady(k: Stack, intent: Intent)
    requires ValidStack(k)
    ensures (exists r: Run :: Successful(k, r) && r.intent == intent) <==> Ready(k, intent)
  {
    if Ready(k, intent) {
      var r := HonestRunSucceeds(k, intent);
    }
    if r: Run :| Successful(k, r) && r.intent == intent {
      SuccessMeansReady(k, r);
    }
  }

  /**
   From intent to kernel: when the resource plan of a successful run, or a reordered copy of it, is
   applied without fault, the control files of its cage read back as the limits of the edition's template,
   none of which exceeds the host's maximum.
   */
  lemma AppliedRunTellsTemplate(k: Stack, r: Run, plan: Resource.Plan, h: CgroupApply.Host, faults: CgroupApply.Faults)
    requires Successful(k, r) && Resource.SameUpToOrder(r.resource, plan)
    ensures r.intent.edition in k.compiler.templates
    ensures var (h', ok) := CgroupApply.ApplyResult(h, plan, Resource.VerifyPlan(k.resource.digest, plan), faults);
            ok ==>
              && plan.cgroupPath in h'.children && plan.cgroupPath == JoinPath(Resource.CGROUP_ROOT, r.intent.cageID)
              && Tells(h'.children[plan.cgroupPath], k.compiler.templates[r.intent.edition].limits)
              && Bounded(k.compiler.templates[r.intent.edition].limits, k.resource.max)
  {
    AcceptedIffBounded(r.resourceRequest.limits, k.resource.max);
    PlansFollowIntent(k, r);
    ChainIsLinked(k, r);
    LimitedFields(k, r);
    var copy := r.resource.(network := plan.network);
    assert plan == copy;
    assert plan.writes == r.resource.writes && plan.cgroupPath == r.resource.cgroupPath && plan.cageID == r.resource.cageID;
    CgroupApply.AppliedFilesTell(h, plan, k.resource.digest, faults, r.resourceRequest.limits, k.resource.max);
  }

  // ----- Collision-free digests

  /** What the later stages demand of a compilation, apart from the shape of digests. */
  ghost predicate Fitting(k: Stack, x: Compilation) {
    && IsCageID(x.cageID) && LimitsOk(x.resourceTemplate, k.resource.max) && Resource.ValidNetwork(x.networkTemplate)
    && x.profile == k.integrity.manifest.profile
    && ExecutableReady(k.integrity, x.executionTemplate.executablePath, x.executionTemplate.arguments)
  }

  /** The resource plan to be digested when the isolation plan's digest is `digest`. */
  ghost function ResourceDraft(x: Compilation, digest: string): Resource.Plan {
    Resource.Draft(Resource.Request(Resource.SCHEMA, x.cageID, x.profile, digest, x.resourceTemplate, x.networkTemplate))
  }

  /** The stack with digests that tell everything apart and give `digest` to the two plans issued for `x`. */
  ghost function WithDigests(k: Stack, x: Compilation, digest: string): Stack {
    var isolation := Encoding.Named(Encoding.IsolationTree, Isolation.Draft(x.isolationRequest), digest);
    var resource := Encoding.Named(Encoding.ResourceTree, ResourceDraft(x, digest), digest);
    Stack(k.compiler, isolation, Resource.Authority(k.resource.max, resource, isolation),
          Integrity.Authority(k.integrity.manifest, Encoding.Rendered(Encoding.ManifestTree),
                              Encoding.Rendered(Encoding.ExecTree), resource, k.integrity.inspect))
  }

  lemma DigestsTellApart(k: Stack, x: Compilation, digest: string)
    requires IsDigest(digest)
    ensures SharedDigests(WithDigests(k, x, digest), WithDigests(k, x, digest))
  {
    Encoding.TreesAreFaithful();
    assert LowerHex(digest[0]);
    Encoding.NamedIsInjective(Encoding.IsolationTree, Isolation.Draft(x.isolationRequest), digest);
    Encoding.NamedIsInjective(Encoding.ResourceTree, ResourceDraft(x, digest), digest);
    Encoding.RenderedIsInjective(Encoding.ManifestTree);
    Encoding.RenderedIsInjective(Encoding.ExecTree);
  }

  lemma DigestsKeepExecutable(k: Stack, x: Compilation, digest: string, path: string, arguments: seq<string>)
    requires ExecutableReady(k.integrity, path, arguments)
    ensures ExecutableReady(WithDigests(k, x, digest).integrity, path, arguments)
  {
    var a, b := k.integrity, WithDigests(k, x, digest).integrity;
    assert Integrity.Kept(a) == Integrity.Kept(b);
  }

  lemma DigestsHaveShape(k: Stack, x: Compilation, digest: string)
    ensures IsolationOf(WithDigests(k, x, digest), x).planDigest == digest
    ensures ResourceOf(WithDigests(k, x, digest), x).planDigest == digest
  {
  }

  /** Whatever is otherwise fit to run does run under some digests that never collide. */
  lemma CollisionFreeRun(k: Stack, intent: Intent, x: Compilation, digest: string) returns (r: Run)
    requires ValidStack(k) && Compile(k.compiler, false, true, intent) == Ok(x) && Fitting(k, x) && IsDigest(digest)
    ensures ValidStack(WithDigests(k, x, digest)) && SharedDigests(WithDigests(k, x, digest), WithDigests(k, x, digest))
    ensures Successful(WithDigests(k, x, digest), r) && r.intent == intent
  {
    DigestsTellApart(k, x, digest);
    DigestsKeepExecutable(k, x, digest, x.executionTemplate.executablePath, x.executionTemplate.arguments);
    DigestsHaveShape(k, x, digest);
    r := HonestRunSucceeds(WithDigests(k, x, digest), intent);
  }

  // ----- A configuration that is fit to run

  lemma JoinThree(a: string, b: string, c: string)
    ensures Join([a, b, c], SLASH) == a + "/" + b + "/" + c
  {
    assert [a, b, c][1..] == [b, c] && [b, c][1..] == [c];
    assert Join([c], SLASH) == c && Join([b, c], SLASH) == b + "/" + c;
  }

  lemma NoDots(s: string)
    requires '.' !in s
    ensures !Integrity.ContainsDotDot(s)
  {
  }

  lemma BinIsSafe(name: string)
    requires Proper(name) && '.' !in name
    ensures Integrity.SafeExecutablePath(Integrity.BIN + name)
  {
    var path := Integrity.BIN + name;
    assert Proper("runtime") && Proper("bin");
    JoinThree("runtime", "bin", name);
    BinText(name);
    ProperListIsSafe(["runtime", "bin", name], path);
    NoDots(path);
  }

  lemma BinText(name: string)
    ensures Integrity.BIN + name == "/" + ("runtime" + "/" + "bin" + "/" + name)
  {
    assert "runtime" + "/" + "bin" == "runtime/bin";
    assert "/" + "runtime/bin" + "/" == Integrity.BIN;
  }

  lemma ExampleNames()
    ensures Integrity.SafeExecutablePath(Integrity.BIN + "a") && IsCageID("cage-one")
  {
    BinIsSafe("a");
    assert "cage-one"[|"cage-"|..] == "one";
  }

  /** A manifest with one plain entry is valid, and its entry is found and matches. */
  lemma PlainEntryIsReady(a: Integrity.Authority, e: Integrity.Entry, id: Integrity.FileIdentity)
    requires Integrity.SafeExecutablePath(e.path) && IsDigest(e.digest)
    requires e == Integrity.Entry(e.path, e.digest, 0, 0x1ED, [], None, [], [])
    requires id == Integrity.FileIdentity(e.digest, 0, 0x1ED, true, false)
    requires a.manifest == Integrity.Manifest(Integrity.SCHEMA, "m", "sharedTenant", [e], "ed25519", "")
    requires forall path :: a.inspect(path) == Some(id)
    ensures Integrity.ValidManifest(a.manifest) && ExecutableReady(a, e.path, [])
  {
    assert Integrity.ValidEntry(e);
    var sorted, dependencies := Integrity.SortEntries([e]), Integrity.SortDependencies([]);
    assert |sorted| == |multiset(sorted)| == 1 && sorted[0] in multiset(sorted);
    assert |dependencies| == |multiset(dependencies)| == 0;
    var entries := Integrity.Kept(a).entries;
    assert |entries| == 1 && entries[0] == Integrity.Normalise()(e);
  }

  lemma SmallLimitsAreOk(limits: Limits)
    requires limits == Limits(100000, 100000, 1, 1, 0, 1, [IOThrottle("8:0", 1, 1, 1, 1)], 1, 1)
    ensures LimitsOk(limits, limits)
  {
    var device := "8:0";
    assert device[1] == ':' && |device| == 3;
    assert IsDevice(device);
  }

  lemma ExampleIsFit(k: Stack, intent: Intent, t: Template, digest: string)
    requires IsDigest(digest) && ValidCompiler(k.compiler) && IsCageID(intent.cageID)
    requires intent == Intent(SCHEMA, "shared", intent.cageID, digest, digest)
    requires k.compiler.templates == map["shared" := t] && t.profile == "sharedTenant" == k.integrity.manifest.profile
    requires t.network == Resource.NetworkPolicy("denyAll", "", []) && LimitsOk(t.limits, k.resource.max)
    requires ExecutableReady(k.integrity, t.executablePath, t.arguments)
    ensures Compile(k.compiler, false, true, intent).Ok? && Fitting(k, Compile(k.compiler, false, true, intent).value)
  {
  }

  /** The hypotheses of the digest-chain theorem are met together: no digest collides and a run succeeds. */
  lemma ChainHasRuns()
    ensures exists k: Stack, r: Run :: ValidStack(k) && SharedDigests(k, k) && Successful(k, r)
  {
    var zeros: string := seq(64, _ => '0');
    var limits := Limits(100000, 100000, 1, 1, 0, 1, [IOThrottle("8:0", 1, 1, 1, 1)], 1, 1);
    ExampleNames();
    SmallLimitsAreOk(limits);
    var r, k := ExampleRun(zeros, Integrity.BIN + "a", "cage-one", limits);
  }

  /** A stack with these limits and one plain entry, digests aside. */
  ghost function PlainStack(e: Integrity.Entry, id: Integrity.FileIdentity, limits: Limits, digest: string): Stack {
    var isolation: Isolation.Digest, resource: Resource.Digest := _ => "", _ => "";
    var t := Template("sharedTenant", limits, Resource.NetworkPolicy("denyAll", "", []), e.path, []);
    Stack(Compiler(map["shared" := t], _ => digest), isolation, Resource.Authority(limits, resource, isolation),
          Integrity.Authority(Integrity.Manifest(Integrity.SCHEMA, "m", "sharedTenant", [e], "ed25519", ""), _ => "", _ => "",
                              resource, _ => Some(id)))
  }

  lemma PlainStackIsFit(e: Integrity.Entry, id: Integrity.FileIdentity, limits: Limits, digest: string, intent: Intent)
    requires Integrity.SafeExecutablePath(e.path) && IsDigest(digest) && LimitsOk(limits, limits) && IsCageID(intent.cageID)
    requires e == Integrity.Entry(e.path, digest, 0, 0x1ED, [], None, [], [])
    requires id == Integrity.FileIdentity(digest, 0, 0x1ED, true, false)
    requires intent == Intent(SCHEMA, "shared", intent.cageID, digest, digest)
    ensures ValidStack(PlainStack(e, id, limits, digest))
    ensures Compile(PlainStack(e, id, limits, digest).compiler, false, true, intent).Ok?
    ensures Fitting(PlainStack(e, id, limits, digest), Compile(PlainStack(e, id, limits, digest).compiler, false, true, intent).value)
  {
    var k := PlainStack(e, id, limits, digest);
    PlainEntryIsReady(k.integrity, e, id);
    ExampleIsFit(k, intent, k.compiler.templates["shared"], digest);
  }

  lemma ExampleRun(digest: string, path: string, cage: string, limits: Limits) returns (r: Run, k: Stack)
    requires IsDigest(digest) && Integrity.SafeExecutablePath(path) && IsCageID(cage) && LimitsOk(limits, limits)
    ensures ValidStack(k) && SharedDigests(k, k) && Successful(k, r)
  {
    var e, id := Integrity.Entry(path, digest, 0, 0x1ED, [], None, [], []), Integrity.FileIdentity(digest, 0, 0x1ED, true, false);
    var base, intent := PlainStack(e, id, limits, digest), Intent(SCHEMA, "shared", cage, digest, digest);
    PlainStackIsFit(e, id, limits, digest, intent);
    var x := Compile(base.compiler, false, true, intent).value;
    k := WithDigests(base, x, digest);
    r := CollisionFreeRun(base, intent, x, digest);
  }
}
