/**
 Edition profiles and the digest chain from intent to execution plan (edition/authority.go).

 Between stages a caller may hand on a copy of a plan with its set-like lists reordered; the chain
 theorems cover such copies.
 */
module Edition {
  import opened Orders
  import opened Strings
  import opened Paths
  import opened Patterns
  import opened SetEquality
  import opened CgroupWrites
  import Isolation
  import Resource
  import Integrity

  const SCHEMA := "brick.host-isolation.edition.v1"

  datatype Template = Template(
    profile: string, limits: Limits, network: Resource.NetworkPolicy, executablePath: string, arguments: seq<string>)

  datatype Intent = Intent(schema: string, edition: string, cageID: string, baseRootDigest: string, seccompDigest: string)

  datatype Compilation = Compilation(
    schema: string, edition: string, profile: string, cageID: string, isolationRequest: Isolation.Request,
    resourceTemplate: Limits, networkTemplate: Resource.NetworkPolicy, executionTemplate: Integrity.Request,
    bindingDigest: string)

  datatype Compiler = Compiler(templates: map<string, Template>, digest: Compilation -> string)

  /** What `NewCompiler` guarantees of its templates. */
  ghost predicate ValidCompiler(c: Compiler) {
    && (forall e :: e in c.templates ==> ValidEditionProfile(e, c.templates[e].profile))
    && (forall x :: c.digest(x) != "")
  }

  /** `strictIsolationRequest`. */
  function StrictRequest(intent: Intent, profile: string): Isolation.Request {
    Isolation.Request(
      Isolation.SCHEMA, intent.cageID, profile, intent.baseRootDigest, intent.seccompDigest,
      ["user", "pid", "mount", "ipc", "uts", "network"],
      [Isolation.UIDMap(0, 100001, 1)], [Isolation.UIDMap(0, 100001, 1)],
      [Isolation.MountSpec("baseRoot", "/", true, ["nodev", "nosuid", "noexec", "readonly"], ["privatePropagation"]),
       Isolation.MountSpec("proc", "/proc", true, ["nodev", "nosuid", "noexec"], ["hidepid=2", "subset=pid"]),
       Isolation.MountSpec("minimalDev", "/dev", false, ["nodev", "nosuid", "noexec"], ["mode=0755", "size=16m"]),
       Isolation.MountSpec("tmpfs", "/tmp", false, ["nodev", "nosuid", "noexec"], ["mode=1777", "size=64m"])],
      ["null", "zero", "random", "urandom"], true, true, 3, "SIGKILL", "supervisedReaper", "/", [])
  }

  datatype Result<T> = Ok(value: T) | Denied

  function Compiled(c: Compiler, intent: Intent): Compilation
    requires intent.edition in c.templates
  {
    var t := c.templates[intent.edition];
    var draft := Compilation(
      SCHEMA, intent.edition, t.profile, intent.cageID, StrictRequest(intent, t.profile), t.limits, t.network,
      Integrity.Request(Integrity.SCHEMA, intent.cageID, t.profile, "", t.executablePath, t.arguments, []), "");
    draft.(bindingDigest := c.digest(draft))
  }

  /** `Compile`. */
  function Compile(c: Compiler, cancelled: bool, auditOk: bool, intent: Intent): Result<Compilation> {
    if cancelled || intent.schema != SCHEMA || intent.edition !in c.templates || !IsDigest(intent.baseRootDigest)
       || !IsDigest(intent.seccompDigest) || !auditOk
    then Denied
    else Ok(Compiled(c, intent))
  }

  /** `verifyCompilation` accepts. */
  predicate VerifyCompilation(c: Compiler, x: Compilation) {
    && x.schema == SCHEMA && ValidEditionProfile(x.edition, x.profile) && x.bindingDigest != ""
    && c.digest(x.(bindingDigest := "")) == x.bindingDigest
  }

  /** `BindResource`. */
  ghost function BindResource(c: Compiler, isolationDigest: Isolation.Digest, cancelled: bool, auditOk: bool,
                              x: Compilation, plan: Isolation.Plan): Result<Resource.Request> {
    if cancelled || !VerifyCompilation(c, x) || !Isolation.VerifyPlan(isolationDigest, plan) || plan.cageID != x.cageID
       || plan.profile != x.profile || !auditOk
    then Denied
    else Ok(Resource.Request(Resource.SCHEMA, x.cageID, x.profile, plan.planDigest, x.resourceTemplate, x.networkTemplate))
  }

  /** `BindExecution`. */
  ghost function BindExecution(c: Compiler, resourceDigest: Resource.Digest, cancelled: bool, auditOk: bool,
                               x: Compilation, plan: Resource.Plan): Result<Integrity.Request> {
    if cancelled || !VerifyCompilation(c, x) || !Resource.VerifyPlan(resourceDigest, plan) || plan.cageID != x.cageID
       || plan.profile != x.profile || !auditOk
    then Denied
    else Ok(x.executionTemplate.(resourcePlanDigest := plan.planDigest))
  }

  /** Every compilation of a well-configured compiler verifies. */
  lemma CompilationsVerify(c: Compiler, cancelled: bool, auditOk: bool, intent: Intent)
    requires ValidCompiler(c) && Compile(c, cancelled, auditOk, intent).Ok?
    ensures VerifyCompilation(c, Compile(c, cancelled, auditOk, intent).value)
  {
    var x := Compiled(c, intent);
    assert x.(bindingDigest := "").(bindingDigest := x.bindingDigest) == x;
  }

  // ----- Compiled requests and the isolation policy

  lemma SingleComponentIsSafe(name: string, path: string)
    requires Proper(name) && path == "/" + name
    ensures Rooted(path) && Clean(path) == path && !ContainsDoubleSlash(path)
  {
    assert Join([name], SLASH) == name;
    ProperListIsSafe([name], path);
  }

  lemma DestinationsAreSafe(d: string)
    requires d in Isolation.REQUIRED_DESTINATIONS
    ensures Isolation.SafeDestination(d)
  {
    assert Proper("proc") && Proper("dev") && Proper("tmp");
    if d == "/" {
      assert Split("", SLASH) == [""];
      assert Resolve([], [""]) == [];
      assert d[1..] == "";
    } else if d == "/proc" {
      SingleComponentIsSafe("proc", d);
    } else if d == "/dev" {
      SingleComponentIsSafe("dev", d);
    } else {
      SingleComponentIsSafe("tmp", d);
    }
    ForbiddenPrefixesMiss(d);
  }

  lemma ForbiddenPrefixesMiss(d: string)
    requires d in Isolation.REQUIRED_DESTINATIONS
    ensures forall i :: 0 <= i < |Isolation.FORBIDDEN_PREFIXES| ==> !AtOrBelow(d, Isolation.FORBIDDEN_PREFIXES[i])
  {
    forall i | 0 <= i < |Isolation.FORBIDDEN_PREFIXES|
      ensures !AtOrBelow(d, Isolation.FORBIDDEN_PREFIXES[i])
    {
      var f := Isolation.FORBIDDEN_PREFIXES[i];
      if f == "/sys" {
        assert (f + "/")[1] == 's' && |f + "/"| == 5;
      } else {
        assert |f| >= 5 && f != "/proc" && f != "/dev" && f != "/tmp";
        assert |f + "/"| > |d|;
      }
    }
  }

  lemma MeetsRequirement(m: Isolation.MountSpec, r: Isolation.Requirement)
    requires m.destination in Isolation.REQUIRED_DESTINATIONS && r == Isolation.RequirementAt(m.destination)
    requires m.sourceKind == r.source && m.readOnly == r.readOnly && SameNonEmptySet(m.flags, r.flags)
    requires SameNonEmptySet(m.options, r.options) && m.options != []
    ensures Isolation.MountOk(m)
  {
    DestinationsAreSafe(m.destination);
  }

  lemma StrictMountsAreOk(intent: Intent, profile: string)
    ensures Isolation.MountsOk(StrictRequest(intent, profile).mounts)
  {
    var mounts := StrictRequest(intent, profile).mounts;
    StrictMountsMeetPolicy(mounts[0], mounts[1], mounts[2], mounts[3]);
    StrictDestinationsDiffer(mounts);
  }

  lemma StrictMountsMeetPolicy(root: Isolation.MountSpec, proc: Isolation.MountSpec, dev: Isolation.MountSpec,
                               tmp: Isolation.MountSpec)
    requires root == Isolation.MountSpec("baseRoot", "/", true, ["nodev", "nosuid", "noexec", "readonly"], ["privatePropagation"])
    requires proc == Isolation.MountSpec("proc", "/proc", true, ["nodev", "nosuid", "noexec"], ["hidepid=2", "subset=pid"])
    requires dev == Isolation.MountSpec("minimalDev", "/dev", false, ["nodev", "nosuid", "noexec"], ["mode=0755", "size=16m"])
    requires tmp == Isolation.MountSpec("tmpfs", "/tmp", false, ["nodev", "nosuid", "noexec"], ["mode=1777", "size=64m"])
    ensures Isolation.MountOk(root) && Isolation.MountOk(proc) && Isolation.MountOk(dev) && Isolation.MountOk(tmp)
  {
    StrictFlagsAreOk();
    MeetsRequirement(root, Isolation.RequirementAt("/"));
    MeetsRequirement(proc, Isolation.RequirementAt("/proc"));
    MeetsRequirement(dev, Isolation.RequirementAt("/dev"));
    MeetsRequirement(tmp, Isolation.RequirementAt("/tmp"));
  }

  lemma StrictDestinationsDiffer(mounts: seq<Isolation.MountSpec>)
    requires |mounts| == 4 && mounts[0].destination == "/" && mounts[1].destination == "/proc"
    requires mounts[2].destination == "/dev" && mounts[3].destination == "/tmp"
    ensures forall i :: 0 <= i < |mounts| ==> !Isolation.Repeats(mounts, i)
  {
  }

  lemma StrictFlagsAreOk()
    ensures SameNonEmptySet(["nodev", "nosuid", "noexec", "readonly"], ["nodev", "noexec", "nosuid", "readonly"])
    ensures SameNonEmptySet(["nodev", "nosuid", "noexec"], ["nodev", "noexec", "nosuid"])
    ensures SameNonEmptySet(["privatePropagation"], ["privatePropagation"])
    ensures SameNonEmptySet(["hidepid=2", "subset=pid"], ["hidepid=2", "subset=pid"])
    ensures SameNonEmptySet(["mode=0755", "size=16m"], ["mode=0755", "size=16m"])
    ensures SameNonEmptySet(["mode=1777", "size=64m"], ["mode=1777", "size=64m"])
  {
    assert forall e :: e in ["nodev", "noexec", "nosuid", "readonly"] ==> e in ["nodev", "nosuid", "noexec", "readonly"] by {
      var a := ["nodev", "nosuid", "noexec", "readonly"];
      assert a[0] == "nodev" && a[1] == "nosuid" && a[2] == "noexec" && a[3] == "readonly";
    }
    assert forall e :: e in ["nodev", "noexec", "nosuid"] ==> e in ["nodev", "nosuid", "noexec"] by {
      var a := ["nodev", "nosuid", "noexec"];
      assert a[0] == "nodev" && a[1] == "nosuid" && a[2] == "noexec";
    }
  }

  /** The isolation stage accepts what an accepted intent compiles to exactly when its cage ID is well formed. */
  lemma StrictRequestAcceptedIff(c: Compiler, cancelled: bool, auditOk: bool, intent: Intent)
    requires ValidCompiler(c) && Compile(c, cancelled, auditOk, intent).Ok?
    ensures Isolation.ValidRequest(Compile(c, cancelled, auditOk, intent).value.isolationRequest) <==> IsCageID(intent.cageID)
  {
    var profile := c.templates[intent.edition].profile;
    StrictMountsAreOk(intent, profile);
    StrictTables();
  }

  lemma StrictTables()
    ensures SameNonEmptySet(["user", "pid", "mount", "ipc", "uts", "network"], Isolation.REQUIRED_NAMESPACES)
    ensures SameNonEmptySet(["null", "zero", "random", "urandom"], Isolation.ALLOWED_DEVICES)
  {
    var a, d := ["user", "pid", "mount", "ipc", "uts", "network"], ["null", "zero", "random", "urandom"];
    assert a[0] == "user" && a[1] == "pid" && a[2] == "mount" && a[3] == "ipc" && a[4] == "uts" && a[5] == "network";
    assert d[0] == "null" && d[1] == "zero" && d[2] == "random" && d[3] == "urandom";
  }

  /** The strict request with these two host IDs. */
  function StrictWith(cageID: string, profile: string, baseRoot: string, seccomp: string, uid: nat, gid: nat): Isolation.Request {
    StrictRequest(Intent(SCHEMA, "", cageID, baseRoot, seccomp), profile)
    .(uidMappings := [Isolation.UIDMap(0, uid, 1)], gidMappings := [Isolation.UIDMap(0, gid, 1)])
  }

  /** The requests differ at most in the order of their set-like lists. */
  ghost predicate SameRequest(a: Isolation.Request, b: Isolation.Request) {
    && a.(namespaces := [], devices := [], mounts := []) == b.(namespaces := [], devices := [], mounts := [])
    && multiset(a.namespaces) == multiset(b.namespaces) && multiset(a.devices) == multiset(b.devices)
    && Isolation.MountBags(a.mounts) == Isolation.MountBags(b.mounts)
  }

  ghost predicate StrictUpToOrder(r: Isolation.Request) {
    && IsCageID(r.cageID) && ValidProfile(r.profile) && IsDigest(r.baseRootDigest) && IsDigest(r.seccompDigest)
    && exists uid: nat, gid: nat :: uid > 0 && gid > 0
         && SameRequest(r, StrictWith(r.cageID, r.profile, r.baseRootDigest, r.seccompDigest, uid, gid))
  }

  lemma AcceptedMountsIffStrict(mounts: seq<Isolation.MountSpec>, intent: Intent, profile: string)
    ensures Isolation.MountsOk(mounts) <==>
      Isolation.MountBags(mounts) == Isolation.MountBags(StrictRequest(intent, profile).mounts)
  {
    var strict := StrictRequest(intent, profile).mounts;
    StrictMountsAreOk(intent, profile);
    if Isolation.MountBags(mounts) == Isolation.MountBags(strict) {
      Isolation.SameBagsSameValidity(strict, mounts);
    }
    if Isolation.MountsOk(mounts) {
      Isolation.AcceptedMountsNormalForm(mounts, strict);
      Isolation.CanonicalKeepsBags(mounts);
      Isolation.CanonicalKeepsBags(strict);
    }
  }

  lemma AcceptedTablesIffStrict(namespaces: seq<string>, devices: seq<string>)
    ensures SameNonEmptySet(namespaces, Isolation.REQUIRED_NAMESPACES) <==>
      multiset(namespaces) == multiset(["user", "pid", "mount", "ipc", "uts", "network"])
    ensures SameNonEmptySet(devices, Isolation.ALLOWED_DEVICES) <==>
      multiset(devices) == multiset(["null", "zero", "random", "urandom"])
  {
    var a, d := ["user", "pid", "mount", "ipc", "uts", "network"], ["null", "zero", "random", "urandom"];
    StrictTables();
    Isolation.TablesAreSets();
    Isolation.SetMeansPermutation(a, Isolation.REQUIRED_NAMESPACES);
    Isolation.SetMeansPermutation(d, Isolation.ALLOWED_DEVICES);
    Isolation.SetMeansPermutation(namespaces, Isolation.REQUIRED_NAMESPACES);
    Isolation.SetMeansPermutation(devices, Isolation.ALLOWED_DEVICES);
  }

  lemma AcceptedIsStrict(r: Isolation.Request)
    requires Isolation.ValidRequest(r)
    ensures StrictUpToOrder(r)
  {
    var uid, gid := r.uidMappings[0].hostID, r.gidMappings[0].hostID;
    var strict := StrictWith(r.cageID, r.profile, r.baseRootDigest, r.seccompDigest, uid, gid);
    AcceptedTablesIffStrict(r.namespaces, r.devices);
    AcceptedMountsIffStrict(r.mounts, Intent(SCHEMA, "", r.cageID, r.baseRootDigest, r.seccompDigest), r.profile);
    AcceptedFields(r, strict);
  }

  /** Lists aside, an accepted request has no freedom but its identities. */
  lemma AcceptedFields(r: Isolation.Request, strict: Isolation.Request)
    requires Isolation.ValidRequest(r)
    requires strict == StrictWith(r.cageID, r.profile, r.baseRootDigest, r.seccompDigest, r.uidMappings[0].hostID,
                                  r.gidMappings[0].hostID)
    ensures r.(namespaces := [], devices := [], mounts := []) == strict.(namespaces := [], devices := [], mounts := [])
  {
    assert r.uidMappings == strict.uidMappings && r.gidMappings == strict.gidMappings;
  }

  lemma StrictIsAccepted(r: Isolation.Request)
    requires StrictUpToOrder(r)
    ensures Isolation.ValidRequest(r)
  {
    var uid: nat, gid: nat :| uid > 0 && gid > 0
      && SameRequest(r, StrictWith(r.cageID, r.profile, r.baseRootDigest, r.seccompDigest, uid, gid));
    var strict := StrictWith(r.cageID, r.profile, r.baseRootDigest, r.seccompDigest, uid, gid);
    var x, y := r.(namespaces := [], devices := [], mounts := []), strict.(namespaces := [], devices := [], mounts := []);
    assert x == y && x.schema == r.schema && x.uidMappings == r.uidMappings && x.gidMappings == r.gidMappings;
    assert x.noNewPrivileges == r.noNewPrivileges && x.clearEnvironment == r.clearEnvironment;
    assert x.closeDescriptorsAt == r.closeDescriptorsAt && x.parentDeathSignal == r.parentDeathSignal;
    assert x.initMode == r.initMode && x.workingDirectory == r.workingDirectory && x.capabilities == r.capabilities;
    AcceptedTablesIffStrict(r.namespaces, r.devices);
    AcceptedMountsIffStrict(r.mounts, Intent(SCHEMA, "", r.cageID, r.baseRootDigest, r.seccompDigest), r.profile);
  }

  /** The isolation stage accepts exactly the reorderings of the strict request, with any host IDs. */
  lemma AcceptedIffStrictUpToOrder(r: Isolation.Request)
    ensures Isolation.ValidRequest(r) <==> StrictUpToOrder(r)
  {
    if Isolation.ValidRequest(r) {
      AcceptedIsStrict(r);
    }
    if StrictUpToOrder(r) {
      StrictIsAccepted(r);
    }
  }

  // ----- The chain

  datatype Stack = Stack(compiler: Compiler, isolation: Isolation.Digest, resource: Resource.Authority,
                         integrity: Integrity.Authority)

  /** The stages of one stack agree on the digests they share, and its manifest was verified. */
  ghost predicate ValidStack(k: Stack) {
    && ValidCompiler(k.compiler) && Integrity.ValidManifest(k.integrity.manifest)
    && k.resource.isolationDigest == k.isolation && k.integrity.resourceDigest == k.resource.digest
  }

  /**
   One run: the issued plans, and the copies handed to the next stages. `bind` copies go to the
   compiler, `use` copies to the next authority.
   */
  datatype Run = Run(
    intent: Intent, compilation: Compilation, isolation: Isolation.Plan, isolationBind: Isolation.Plan,
    isolationUse: Isolation.Plan, resourceRequest: Resource.Request, resource: Resource.Plan,
    resourceBind: Resource.Plan, resourceUse: Resource.Plan, execRequest: Integrity.Request, exec: Integrity.ExecPlan)

  /** The intent compiled, and the isolation stage planned what was compiled. */
  ghost predicate Isolated(k: Stack, r: Run) {
    && Compile(k.compiler, false, true, r.intent) == Ok(r.compilation)
    && Isolation.Prepare(k.isolation, Isolation.Environment(false, true, true), r.compilation.isolationRequest)
       == Isolation.Planned(r.isolation)
  }

  /** The compiler bound a copy with the issued digest. */
  ghost predicate ResourceBound(k: Stack, r: Run) {
    && r.isolationBind.planDigest == r.isolation.planDigest
    && BindResource(k.compiler, k.isolation, false, true, r.compilation, r.isolationBind) == Ok(r.resourceRequest)
  }

  ghost predicate Limited(k: Stack, r: Run) {
    Resource.Prepare(k.resource, false, true, r.isolationUse, r.resourceRequest) == Resource.Planned(r.resource)
  }

  ghost predicate ExecBound(k: Stack, r: Run) {
    && r.resourceBind.planDigest == r.resource.planDigest
    && BindExecution(k.compiler, k.resource.digest, false, true, r.compilation, r.resourceBind) == Ok(r.execRequest)
  }

  ghost predicate Planned(k: Stack, r: Run) {
    Integrity.Prepare(k.integrity, false, true, r.resourceUse, r.execRequest) == Integrity.Planned(r.exec)
  }

  /** Every stage succeeded. */
  ghost predicate Successful(k: Stack, r: Run) {
    Isolated(k, r) && ResourceBound(k, r) && Limited(k, r) && ExecBound(k, r) && Planned(k, r)
  }

  /** What the plans of one successful run have in common. */
  ghost predicate Linked(r: Run) {
    && r.intent.cageID == r.isolation.cageID == r.resource.cageID == r.exec.cageID
    && r.compilation.profile == r.isolation.profile == r.resource.profile == r.exec.profile
    && r.isolationBind.cageID == r.isolationUse.cageID == r.resourceBind.cageID == r.resourceUse.cageID == r.intent.cageID
    && r.isolationBind.profile == r.isolationUse.profile == r.resourceBind.profile == r.resourceUse.profile
       == r.compilation.profile
    && r.isolation.planDigest == r.isolationUse.planDigest == r.resource.isolationPlanDigest
    && r.resource.planDigest == r.resourceUse.planDigest == r.exec.resourcePlanDigest
  }

  lemma CompiledFields(k: Stack, r: Run)
    requires Isolated(k, r)
    ensures r.isolation == Isolation.Issue(k.isolation, r.compilation.isolationRequest)
    ensures r.isolation.cageID == r.intent.cageID == r.compilation.cageID && r.isolation.profile == r.compilation.profile
    ensures r.compilation.executionTemplate.cageID == r.intent.cageID
    ensures r.compilation.executionTemplate.profile == r.compilation.profile
  {
    assert r.compilation == Compiled(k.compiler, r.intent);
    assert r.compilation.isolationRequest == StrictRequest(r.intent, r.compilation.profile);
  }

  lemma BoundFields(k: Stack, r: Run)
    requires ResourceBound(k, r)
    ensures r.resourceRequest.isolationPlanDigest == r.isolation.planDigest
    ensures r.resourceRequest.cageID == r.compilation.cageID && r.resourceRequest.profile == r.compilation.profile
    ensures r.isolationBind.cageID == r.compilation.cageID && r.isolationBind.profile == r.compilation.profile
  {
  }

  lemma LimitedFields(k: Stack, r: Run)
    requires Limited(k, r)
    ensures r.resource == Resource.Issue(k.resource.digest, r.resourceRequest)
    ensures Resource.ValidRequest(k.resource, r.resourceRequest, r.isolationUse)
    ensures Isolation.VerifyPlan(k.resource.isolationDigest, r.isolationUse)
    ensures r.isolationUse.planDigest == r.resourceRequest.isolationPlanDigest
    ensures r.isolationUse.cageID == r.resourceRequest.cageID && r.isolationUse.profile == r.resourceRequest.profile
  {
  }

  lemma ExecBoundFields(k: Stack, r: Run)
    requires ExecBound(k, r)
    ensures r.execRequest == r.compilation.executionTemplate.(resourcePlanDigest := r.resource.planDigest)
    ensures r.resourceBind.cageID == r.compilation.cageID && r.resourceBind.profile == r.compilation.profile
  {
  }

  lemma PlannedFields(k: Stack, r: Run)
    requires Planned(k, r)
    ensures Resource.VerifyPlan(k.integrity.resourceDigest, r.resourceUse)
    ensures r.exec.resourcePlanDigest == r.execRequest.resourcePlanDigest == r.resourceUse.planDigest
    ensures r.exec.cageID == r.execRequest.cageID == r.resourceUse.cageID
    ensures r.exec.profile == r.execRequest.profile == r.resourceUse.profile
    ensures r.exec.manifestDigest == k.integrity.manifestDigest(Integrity.Kept(k.integrity))
  {
  }

  /** All plans of a successful run, and all copies handed on, share cage and profile, and each carries the digest below. */
  lemma ChainIsLinked(k: Stack, r: Run)
    requires Successful(k, r)
    ensures Linked(r)
  {
    CompiledFields(k, r);
    BoundFields(k, r);
    LimitedFields(k, r);
    ExecBoundFields(k, r);
    PlannedFields(k, r);
  }

  /** The isolation plan and request carry the intent's digests and the fixed host IDs. */
  ghost predicate IsolationFollows(r: Run) {
    && r.isolation.seccompDigest == r.compilation.isolationRequest.seccompDigest == r.intent.seccompDigest
    && r.compilation.isolationRequest.baseRootDigest == r.intent.baseRootDigest
    && r.isolation.uidMappings == r.isolation.gidMappings == [Isolation.UIDMap(0, 100001, 1)]
  }

  /** The later stages work on the template of the intent's edition. */
  ghost predicate TemplateFollows(t: Template, r: Run) {
    && r.compilation.edition == r.intent.edition && r.compilation.profile == t.profile
    && r.resourceRequest.limits == t.limits && r.resourceRequest.network == t.network
    && r.resource.writes == Writes(t.limits) && Resource.SameNetwork(r.resource.network, t.network)
    && r.resource.fileDescriptorMax == t.limits.fileDescriptorMax && r.resource.wallClockSeconds == t.limits.wallClockSeconds
    && r.exec.executablePath == t.executablePath && r.exec.arguments == t.arguments
  }

  lemma IsolationFollowsIntent(k: Stack, r: Run)
    requires Isolated(k, r)
    ensures IsolationFollows(r)
  {
    CompiledFields(k, r);
    assert r.compilation.isolationRequest == StrictRequest(r.intent, r.compilation.profile);
  }

  lemma TemplateIsCompiled(k: Stack, r: Run)
    requires Isolated(k, r)
    ensures r.intent.edition in k.compiler.templates
    ensures var t, x := k.compiler.templates[r.intent.edition], r.compilation;
            && x.edition == r.intent.edition && x.profile == t.profile && x.resourceTemplate == t.limits
            && x.networkTemplate == t.network && x.executionTemplate.executablePath == t.executablePath
            && x.executionTemplate.arguments == t.arguments
  {
  }

  lemma ResourceFollows(k: Stack, r: Run)
    requires ResourceBound(k, r) && Limited(k, r)
    ensures r.resourceRequest.limits == r.compilation.resourceTemplate && r.resourceRequest.network == r.compilation.networkTemplate
    ensures r.resource.writes == Writes(r.resourceRequest.limits)
    ensures Resource.SameNetwork(r.resource.network, r.resourceRequest.network)
    ensures r.resource.fileDescriptorMax == r.resourceRequest.limits.fileDescriptorMax
    ensures r.resource.wallClockSeconds == r.resourceRequest.limits.wallClockSeconds
  {
    LimitedFields(k, r);
    Resource.SortedEndpointsSame(r.resourceRequest.network);
  }

  lemma ExecFollows(k: Stack, r: Run)
    requires ExecBound(k, r) && Planned(k, r)
    ensures r.exec.executablePath == r.compilation.executionTemplate.executablePath
    ensures r.exec.arguments == r.compilation.executionTemplate.arguments
  {
    ExecBoundFields(k, r);
  }

  /**
   The plans of a successful run are those of its intent: the isolation plan carries the intent's seccomp
   digest and the fixed host IDs, the resource plan the limits and network of the edition's template,
   and the execution plan its executable and arguments.
   */
  lemma PlansFollowIntent(k: Stack, r: Run)
    requires Successful(k, r)
    ensures IsolationFollows(r) && r.intent.edition in k.compiler.templates
    ensures TemplateFollows(k.compiler.templates[r.intent.edition], r)
  {
    IsolationFollowsIntent(k, r);
    TemplateIsCompiled(k, r);
    ResourceFollows(k, r);
    ExecFollows(k, r);
  }

  /** The two stacks compute digests alike, and no digest collides. */
  ghost predicate SharedDigests(a: Stack, b: Stack) {
    && a.isolation == b.isolation && Isolation.Injective(a.isolation)
    && a.resource.digest == b.resource.digest && Resource.Injective(a.resource.digest)
    && a.integrity.planDigest == b.integrity.planDigest && Integrity.Injective(a.integrity.planDigest)
    && a.integrity.manifestDigest == b.integrity.manifestDigest && Integrity.Injective(a.integrity.manifestDigest)
  }

  /** Everything below an execution plan that its digest fixes. */
  ghost predicate SameFoundation(a: Stack, r: Run, b: Stack, s: Run) {
    && r.exec == s.exec && r.resource == s.resource && r.isolation == s.isolation
    && Resource.SameUpToOrder(r.resourceUse, s.resourceUse)
    && Isolation.SameUpToOrder(r.isolationUse, s.isolationUse)
    && SameControls(r.resourceRequest.limits, s.resourceRequest.limits)
    && Resource.SameNetwork(r.resourceRequest.network, s.resourceRequest.network)
    && Integrity.SameManifest(a.integrity.manifest, b.integrity.manifest)
  }

  lemma ExecDigestFixesExec(a: Stack, r: Run, b: Stack, s: Run)
    requires ValidStack(a) && ValidStack(b) && SharedDigests(a, b) && Planned(a, r) && Planned(b, s)
    requires r.exec.planDigest == s.exec.planDigest
    ensures r.exec == s.exec
    ensures Integrity.SameManifest(a.integrity.manifest, b.integrity.manifest)
  {
    Integrity.SameDigestSamePlan(a.integrity, false, true, r.resourceUse, r.execRequest,
                                 b.integrity, false, true, s.resourceUse, s.execRequest);
    PlannedFields(a, r);
    PlannedFields(b, s);
    assert Integrity.Kept(a.integrity) == Integrity.Kept(b.integrity);
    Integrity.CanonicalManifestIff(a.integrity.manifest, b.integrity.manifest);
  }

  lemma ResourceDigestFixesResource(a: Stack, r: Run, b: Stack, s: Run)
    requires ValidStack(a) && ValidStack(b) && SharedDigests(a, b)
    requires Limited(a, r) && Limited(b, s) && Planned(a, r) && Planned(b, s)
    requires r.resource.planDigest == s.resource.planDigest
    requires r.resourceUse.planDigest == s.resourceUse.planDigest
    ensures r.resource == s.resource && Resource.SameUpToOrder(r.resourceUse, s.resourceUse)
    ensures SameControls(r.resourceRequest.limits, s.resourceRequest.limits)
    ensures Resource.SameNetwork(r.resourceRequest.network, s.resourceRequest.network)
  {
    LimitedFields(a, r);
    LimitedFields(b, s);
    PlannedFields(a, r);
    PlannedFields(b, s);
    var x, y := Resource.Draft(r.resourceRequest), Resource.Draft(s.resourceRequest);
    assert x == y;
    assert x.writes == y.writes && x.network == y.network;
    WritesIffSameControls(r.resourceRequest.limits, a.resource.max, s.resourceRequest.limits, b.resource.max);
    Resource.CanonicalNetworkIff(r.resourceRequest.network, s.resourceRequest.network);
    Resource.SameDigestSamePlan(a.resource.digest, r.resourceUse, s.resourceUse);
  }

  lemma IsolationDigestFixesIsolation(a: Stack, r: Run, b: Stack, s: Run)
    requires ValidStack(a) && ValidStack(b) && SharedDigests(a, b)
    requires Isolated(a, r) && Isolated(b, s) && Limited(a, r) && Limited(b, s)
    requires r.isolation.planDigest == s.isolation.planDigest
    requires r.isolationUse.planDigest == s.isolationUse.planDigest
    ensures r.isolation == s.isolation && Isolation.SameUpToOrder(r.isolationUse, s.isolationUse)
  {
    CompiledFields(a, r);
    CompiledFields(b, s);
    LimitedFields(a, r);
    LimitedFields(b, s);
    assert Isolation.Draft(r.compilation.isolationRequest) == Isolation.Draft(s.compilation.isolationRequest);
    Isolation.SameDigestSamePlan(a.isolation, r.isolationUse, s.isolationUse);
  }

  /**
   Digest-chain binding: two successful runs with equal execution-plan digests have equal execution,
   resource and isolation plans, copies that differ at most in list order, the same kernel controls
   and network policy, and the same manifest up to order.
   */
  lemma EqualExecDigestsFixTheChain(a: Stack, r: Run, b: Stack, s: Run)
    requires ValidStack(a) && ValidStack(b) && SharedDigests(a, b) && Successful(a, r) && Successful(b, s)
    requires r.exec.planDigest == s.exec.planDigest
    ensures SameFoundation(a, r, b, s)
  {
    ChainIsLinked(a, r);
    ChainIsLinked(b, s);
    ExecDigestFixesExec(a, r, b, s);
    ResourceDigestFixesResource(a, r, b, s);
    IsolationDigestFixesIsolation(a, r, b, s);
  }
}
