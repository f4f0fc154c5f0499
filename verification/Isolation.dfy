/**
 Isolation plans: validation, canonical form, digest and verification (isolation/authority.go).

 `digest` stands for hex(SHA-256(JSON(plan))); where the theorems need it to tell plans apart they
 say so with `Injective`.
 */
module Isolation {
  import opened Orders
  import opened Paths
  import opened Patterns
  import opened SetEquality

  const SCHEMA := "brick.host-isolation.isolation.v1"
  const REQUIRED_NAMESPACES: seq<string> := ["ipc", "mount", "network", "pid", "user", "uts"]
  const ALLOWED_DEVICES: seq<string> := ["null", "random", "urandom", "zero"]
  const REQUIRED_DESTINATIONS: seq<string> := ["/", "/proc", "/dev", "/tmp"]
  const FORBIDDEN_PREFIXES: seq<string> := [
    "/opt/brick", "/var/lib/brick", "/run/brick", "/etc/brick", "/root", "/proc/sys", "/proc/kcore", "/sys",
    "/dev/mem", "/dev/kmem", "/dev/kmsg", "/var/run/docker.sock", "/run/containerd/containerd.sock"]

  datatype UIDMap = UIDMap(containerID: nat, hostID: nat, size: nat)

  datatype MountSpec = MountSpec(
    sourceKind: string, destination: string, readOnly: bool, flags: seq<string>, options: seq<string>)

  datatype Request = Request(
    schema: string, cageID: string, profile: string, baseRootDigest: string, seccompDigest: string,
    namespaces: seq<string>, uidMappings: seq<UIDMap>, gidMappings: seq<UIDMap>, mounts: seq<MountSpec>,
    devices: seq<string>, noNewPrivileges: bool, clearEnvironment: bool, closeDescriptorsAt: nat,
    parentDeathSignal: string, initMode: string, workingDirectory: string, capabilities: seq<string>)

  datatype Plan = Plan(
    schema: string, cageID: string, profile: string, namespaceFlags: seq<string>, uidMappings: seq<UIDMap>,
    gidMappings: seq<UIDMap>, mounts: seq<MountSpec>, devices: seq<string>, seccompDigest: string,
    noNewPrivileges: bool, clearEnvironment: bool, closeDescriptorsAt: nat, parentDeathSignal: string,
    initMode: string, workingDirectory: string, capabilityBoundingSet: seq<string>, planDigest: string)

  type Digest = Plan -> string

  ghost predicate Injective(digest: Digest) {
    forall a, b :: digest(a) == digest(b) ==> a == b
  }

  // ----- Validation

  /** What the policy demands at one destination. */
  datatype Requirement = Requirement(source: string, readOnly: bool, flags: seq<string>, options: seq<string>)

  function RequirementAt(destination: string): Requirement
    requires destination in REQUIRED_DESTINATIONS
  {
    if destination == "/" then
      Requirement("baseRoot", true, ["nodev", "noexec", "nosuid", "readonly"], ["privatePropagation"])
    else if destination == "/proc" then
      Requirement("proc", true, ["nodev", "noexec", "nosuid"], ["hidepid=2", "subset=pid"])
    else if destination == "/dev" then
      Requirement("minimalDev", false, ["nodev", "noexec", "nosuid"], ["mode=0755", "size=16m"])
    else
      Requirement("tmpfs", false, ["nodev", "noexec", "nosuid"], ["mode=1777", "size=64m"])
  }

  predicate SafeDestination(destination: string) {
    && Rooted(destination) && Clean(destination) == destination && !ContainsDoubleSlash(destination)
    && forall i :: 0 <= i < |FORBIDDEN_PREFIXES| ==> !AtOrBelow(destination, FORBIDDEN_PREFIXES[i])
  }

  /** The checks on one mount before the duplicate test. */
  predicate MatchesPolicy(m: MountSpec) {
    && m.destination in REQUIRED_DESTINATIONS
    && var r := RequirementAt(m.destination);
       m.sourceKind == r.source && m.readOnly == r.readOnly && SameNonEmptySet(m.flags, r.flags) && m.options != []
  }

  predicate MountOk(m: MountSpec) {
    SafeDestination(m.destination) && MatchesPolicy(m)
    && SameNonEmptySet(m.options, RequirementAt(m.destination).options)
  }

  predicate Repeats(mounts: seq<MountSpec>, i: nat)
    requires i < |mounts|
  {
    exists j :: 0 <= j < i && mounts[j].destination == mounts[i].destination
  }

  predicate MountsOk(mounts: seq<MountSpec>) {
    && |mounts| == |REQUIRED_DESTINATIONS|
    && forall i :: 0 <= i < |mounts| ==> MountOk(mounts[i]) && !Repeats(mounts, i)
  }

  function OptionsCode(destination: string): string
    requires destination in REQUIRED_DESTINATIONS
  {
    if destination == "/proc" then "unsafe_proc_policy"
    else if destination == "/dev" then "unsafe_device_mount"
    else if destination == "/tmp" then "unsafe_tmp_mount"
    else "unsafe_base_root_mount"
  }

  /** The checks on one mount in the order in which they name a reason. */
  function MountCode(m: MountSpec, repeated: bool): string {
    if !SafeDestination(m.destination) then "unsafe_mount_destination"
    else if !MatchesPolicy(m) then "invalid_mount_policy"
    else if repeated then "duplicate_mount_destination"
    else if !SameNonEmptySet(m.options, RequirementAt(m.destination).options) then OptionsCode(m.destination)
    else ""
  }

  type Check = (MountSpec, bool) -> string

  function CodeAt(check: Check, mounts: seq<MountSpec>, i: nat): string
    requires i < |mounts|
  {
    check(mounts[i], Repeats(mounts, i))
  }

  /** `code` is "" if every mount passes, else the code of the first that does not. */
  ghost predicate FirstCode(check: Check, mounts: seq<MountSpec>, code: string) {
    if forall i :: 0 <= i < |mounts| ==> CodeAt(check, mounts, i) == "" then code == ""
    else exists i :: 0 <= i < |mounts| && code == CodeAt(check, mounts, i) != ""
                  && forall j :: 0 <= j < i ==> CodeAt(check, mounts, j) == ""
  }

  /** The loop of `validMounts`, with its `seen` set. */
  method ScanMounts(mounts: seq<MountSpec>, check: Check) returns (code: string)
    ensures FirstCode(check, mounts, code)
  {
    var seen: set<string> := {};
    for i := 0 to |mounts|
      invariant forall j :: 0 <= j < i ==> CodeAt(check, mounts, j) == ""
      invariant seen == set j | 0 <= j < i :: mounts[j].destination
    {
      assert mounts[i].destination in seen <==> Repeats(mounts, i);
      code := check(mounts[i], mounts[i].destination in seen);
      assert code == CodeAt(check, mounts, i);
      if code != "" {
        return;
      }
      seen := seen + {mounts[i].destination};
    }
    return "";
  }

  /** `validMounts`. */
  method ValidMounts(mounts: seq<MountSpec>) returns (code: string)
    ensures code == "" <==> MountsOk(mounts)
    ensures if |mounts| != |REQUIRED_DESTINATIONS| then code == "incomplete_mount_policy"
            else FirstCode(MountCode, mounts, code)
  {
    CodesMeanPolicy(mounts);
    if |mounts| != |REQUIRED_DESTINATIONS| {
      return "incomplete_mount_policy";
    }
    code := ScanMounts(mounts, MountCode);
  }

  /** No code on any mount is exactly the declared policy. */
  lemma CodesMeanPolicy(mounts: seq<MountSpec>)
    ensures MountsOk(mounts) <==>
      |mounts| == |REQUIRED_DESTINATIONS| && forall i :: 0 <= i < |mounts| ==> CodeAt(MountCode, mounts, i) == ""
  {
    forall i | 0 <= i < |mounts|
      ensures CodeAt(MountCode, mounts, i) == "" <==> MountOk(mounts[i]) && !Repeats(mounts, i)
    {
      CodeMeansOk(mounts[i], Repeats(mounts, i));
    }
  }

  lemma CodeMeansOk(m: MountSpec, repeated: bool)
    ensures MountCode(m, repeated) == "" <==> MountOk(m) && !repeated
  {
  }

  predicate ValidMapping(mappings: seq<UIDMap>) {
    |mappings| == 1 && mappings[0].containerID == 0 && mappings[0].hostID > 0 && mappings[0].size == 1
  }

  /** `validateRequest` returns no reason. */
  predicate ValidRequest(r: Request) {
    && r.schema == SCHEMA && IsCageID(r.cageID) && ValidProfile(r.profile) && IsDigest(r.baseRootDigest)
    && IsDigest(r.seccompDigest)
    && SameNonEmptySet(r.namespaces, REQUIRED_NAMESPACES) && ValidMapping(r.uidMappings) && ValidMapping(r.gidMappings)
    && r.noNewPrivileges && r.clearEnvironment && r.closeDescriptorsAt == 3 && r.parentDeathSignal == "SIGKILL"
    && r.initMode == "supervisedReaper" && r.workingDirectory == "/" && r.capabilities == []
    && SameNonEmptySet(r.devices, ALLOWED_DEVICES)
    && MountsOk(r.mounts)
  }

  // ----- Canonical form

  function ByDestination(): (MountSpec, MountSpec) -> bool {
    ByKey(DestinationOf())
  }

  function DestinationOf(): MountSpec -> string {
    (m: MountSpec) => m.destination
  }

  ghost function Normalise(): MountSpec -> MountSpec {
    (m: MountSpec) => m.(flags := SortStrings(m.flags), options := SortStrings(m.options))
  }

  /** `canonicalMounts`. */
  ghost function CanonicalMounts(mounts: seq<MountSpec>): (r: seq<MountSpec>)
    ensures IsSorting(r, Map(Normalise(), mounts), ByDestination())
  {
    ByKeyStrictWeak(DestinationOf());
    SortSlice(Map(Normalise(), mounts), ByDestination())
  }

  /** The plan `Prepare` builds from an accepted request, before its digest is set. */
  ghost function Draft(r: Request): Plan {
    Plan(SCHEMA, r.cageID, r.profile, SortStrings(r.namespaces), r.uidMappings, r.gidMappings,
         CanonicalMounts(r.mounts), SortStrings(r.devices), r.seccompDigest, true, true, 3, "SIGKILL",
         "supervisedReaper", "/", [], "")
  }

  ghost function Issue(digest: Digest, r: Request): Plan {
    Draft(r).(planDigest := digest(Draft(r)))
  }

  datatype Environment = Environment(cancelled: bool, preflightOk: bool, auditOk: bool)

  datatype Outcome = Planned(plan: Plan) | Refused

  /** `Prepare`: no plan leaves without preflight, validation and an audit record. */
  ghost function Prepare(digest: Digest, env: Environment, r: Request): Outcome {
    if env.cancelled || !env.preflightOk || !ValidRequest(r) || !env.auditOk then Refused
    else Planned(Issue(digest, r))
  }

  /** The request `VerifyPlan` rebuilds from a plan. */
  function AsRequest(p: Plan): Request {
    Request(p.schema, p.cageID, p.profile, seq(64, _ => '0'), p.seccompDigest, p.namespaceFlags, p.uidMappings,
            p.gidMappings, p.mounts, p.devices, p.noNewPrivileges, p.clearEnvironment, p.closeDescriptorsAt,
            p.parentDeathSignal, p.initMode, p.workingDirectory, p.capabilityBoundingSet)
  }

  ghost function CanonicalPlan(p: Plan): Plan {
    p.(namespaceFlags := SortStrings(p.namespaceFlags), mounts := CanonicalMounts(p.mounts),
       devices := SortStrings(p.devices), capabilityBoundingSet := SortStrings(p.capabilityBoundingSet),
       planDigest := "")
  }

  /** `VerifyPlan` accepts. */
  ghost predicate VerifyPlan(digest: Digest, p: Plan) {
    ValidRequest(AsRequest(p)) && p.planDigest == digest(CanonicalPlan(p))
  }

  // ----- Equality up to the order of set-like lists

  /** A mount with its flags and options as bags. */
  datatype MountBag = MountBag(
    sourceKind: string, destination: string, readOnly: bool, flags: multiset<string>, options: multiset<string>)

  function BagOf(): MountSpec -> MountBag {
    (m: MountSpec) => MountBag(m.sourceKind, m.destination, m.readOnly, multiset(m.flags), multiset(m.options))
  }

  function MountBags(mounts: seq<MountSpec>): multiset<MountBag> {
    multiset(Map(BagOf(), mounts))
  }

  ghost predicate SameUpToOrder(a: Plan, b: Plan) {
    && a.(namespaceFlags := [], mounts := [], devices := []) == b.(namespaceFlags := [], mounts := [], devices := [])
    && multiset(a.namespaceFlags) == multiset(b.namespaceFlags)
    && multiset(a.devices) == multiset(b.devices)
    && MountBags(a.mounts) == MountBags(b.mounts)
  }

  // ----- Validity depends on the bags alone

  lemma TablesAreSets()
    ensures Distinct(REQUIRED_NAMESPACES) && "" !in REQUIRED_NAMESPACES
    ensures Distinct(ALLOWED_DEVICES) && "" !in ALLOWED_DEVICES
    ensures Distinct(REQUIRED_DESTINATIONS)
  {
  }

  lemma RequirementsAreSets(destination: string)
    requires destination in REQUIRED_DESTINATIONS
    ensures var r := RequirementAt(destination);
            Distinct(r.flags) && "" !in r.flags && Distinct(r.options) && "" !in r.options && r.options != []
  {
  }

  lemma SetMeansPermutation(actual: seq<string>, expected: seq<string>)
    requires Distinct(expected) && "" !in expected
    ensures SameNonEmptySet(actual, expected) <==> multiset(actual) == multiset(expected)
  {
    EqualSetExactWhen(expected);
  }

  predicate BagOk(b: MountBag) {
    && b.destination in REQUIRED_DESTINATIONS && SafeDestination(b.destination)
    && var r := RequirementAt(b.destination);
       b == MountBag(r.source, b.destination, r.readOnly, multiset(r.flags), multiset(r.options))
  }

  /** A mount passes exactly when its bag is the one its destination requires. */
  lemma MountOkIffBagOk(m: MountSpec)
    ensures MountOk(m) <==> BagOk(BagOf()(m))
  {
    if m.destination in REQUIRED_DESTINATIONS {
      var r := RequirementAt(m.destination);
      RequirementsAreSets(m.destination);
      SetMeansPermutation(m.flags, r.flags);
      SetMeansPermutation(m.options, r.options);
    }
  }

  function BagDestination(): MountBag -> string {
    (b: MountBag) => b.destination
  }

  lemma MountsOkIffBags(mounts: seq<MountSpec>)
    ensures MountsOk(mounts) <==>
      && |mounts| == |REQUIRED_DESTINATIONS|
      && (forall i :: 0 <= i < |mounts| ==> BagOk(Map(BagOf(), mounts)[i]))
      && UniqueKeys(Map(BagOf(), mounts), BagDestination())
  {
    var bags := Map(BagOf(), mounts);
    forall i | 0 <= i < |mounts|
      ensures MountOk(mounts[i]) <==> BagOk(bags[i])
    {
      MountOkIffBagOk(mounts[i]);
    }
    if MountsOk(mounts) {
      forall i, j | 0 <= i < j < |bags|
        ensures BagDestination()(bags[i]) != BagDestination()(bags[j])
      {
        assert !Repeats(mounts, j);
      }
    }
    if UniqueKeys(bags, BagDestination()) {
      forall i | 0 <= i < |mounts|
        ensures !Repeats(mounts, i)
      {
        forall j | 0 <= j < i
          ensures mounts[j].destination != mounts[i].destination
        {
          assert BagDestination()(bags[j]) != BagDestination()(bags[i]);
        }
      }
    }
  }

  lemma SameBagsSameValidity(a: seq<MountSpec>, b: seq<MountSpec>)
    requires MountBags(a) == MountBags(b) && MountsOk(a)
    ensures MountsOk(b)
  {
    var x, y := Map(BagOf(), a), Map(BagOf(), b);
    MountsOkIffBags(a);
    MountsOkIffBags(b);
    assert |x| == |multiset(x)| == |multiset(y)| == |y|;
    UniqueKeysPermute(y, x, BagDestination());
    forall i | 0 <= i < |b|
      ensures BagOk(y[i])
    {
      InMultiset(y[i], y);
      InMultiset(y[i], x);
      var k :| 0 <= k < |x| && x[k] == y[i];
    }
  }

  // ----- Normal form of mounts

  /** The one normalised mount that a destination admits. */
  ghost function Standard(): string -> MountSpec {
    (d: string) =>
      if d in REQUIRED_DESTINATIONS then
        var r := RequirementAt(d);
        MountSpec(r.source, d, r.readOnly, SortStrings(r.flags), SortStrings(r.options))
      else MountSpec("", d, false, [], [])
  }

  lemma AcceptedMountIsStandard(m: MountSpec)
    requires MountOk(m)
    ensures Normalise()(m) == Standard()(m.destination)
  {
    var r := RequirementAt(m.destination);
    MountOkIffBagOk(m);
    SortStringsEqual(m.flags, r.flags);
    SortStringsEqual(m.options, r.options);
  }

  lemma AcceptedDestinations(mounts: seq<MountSpec>)
    requires MountsOk(mounts)
    ensures multiset(Map(DestinationOf(), mounts)) == multiset(REQUIRED_DESTINATIONS)
  {
    var destinations := Map(DestinationOf(), mounts);
    forall i, j | 0 <= i < j < |destinations|
      ensures destinations[i] != destinations[j]
    {
      assert !Repeats(mounts, j);
    }
    forall d | d in destinations
      ensures d in REQUIRED_DESTINATIONS
    {
      var i :| 0 <= i < |destinations| && destinations[i] == d;
      assert MountOk(mounts[i]);
    }
    var table := REQUIRED_DESTINATIONS;
    TablesAreSets();
    DistinctInclusion(table, destinations);
  }

  lemma NormaliseByDestination(mounts: seq<MountSpec>, table: seq<string>)
    requires multiset(Map(DestinationOf(), mounts)) == multiset(table)
    requires forall i :: 0 <= i < |mounts| ==> Normalise()(mounts[i]) == Standard()(mounts[i].destination)
    ensures multiset(Map(Normalise(), mounts)) == multiset(Map(Standard(), table))
  {
    var destinations := Map(DestinationOf(), mounts);
    MapPermute(Standard(), destinations, table);
    assert Map(Normalise(), mounts) == Map(Standard(), destinations);
  }

  /** Accepted mounts normalise to the four standard mounts, whatever their order. */
  lemma AcceptedMountsAreStandard(mounts: seq<MountSpec>)
    requires MountsOk(mounts)
    ensures multiset(Map(Normalise(), mounts)) == multiset(Map(Standard(), REQUIRED_DESTINATIONS))
  {
    AcceptedDestinations(mounts);
    forall i | 0 <= i < |mounts|
      ensures Normalise()(mounts[i]) == Standard()(mounts[i].destination)
    {
      AcceptedMountIsStandard(mounts[i]);
    }
    NormaliseByDestination(mounts, REQUIRED_DESTINATIONS);
  }

  lemma AcceptedMountsNormalForm(a: seq<MountSpec>, b: seq<MountSpec>)
    requires MountsOk(a) && MountsOk(b)
    ensures CanonicalMounts(a) == CanonicalMounts(b)
  {
    AcceptedMountsAreStandard(a);
    AcceptedMountsAreStandard(b);
    var x, y := Map(Normalise(), a), Map(Normalise(), b);
    assert UniqueKeys(x, DestinationOf()) by {
      forall i, j | 0 <= i < j < |x|
        ensures DestinationOf()(x[i]) != DestinationOf()(x[j])
      {
        assert !Repeats(a, j);
      }
    }
    UniqueKeysSeparate(x, DestinationOf());
    ByKeyStrictWeak(DestinationOf());
    SortSliceOrderFree(x, y, ByDestination());
  }

  // ----- Theorems

  /**
   Normal form: two accepted requests that agree on cage, profile, seccomp digest and the two host IDs
   yield the same plan with the same digest, however their lists are ordered.
   */
  lemma NormalForm(digest: Digest, a: Request, b: Request)
    requires ValidRequest(a) && ValidRequest(b)
    requires a.cageID == b.cageID && a.profile == b.profile && a.seccompDigest == b.seccompDigest
    requires a.uidMappings[0].hostID == b.uidMappings[0].hostID && a.gidMappings[0].hostID == b.gidMappings[0].hostID
    ensures Issue(digest, a) == Issue(digest, b)
  {
    TablesAreSets();
    SameTableSameSort(a.namespaces, b.namespaces, REQUIRED_NAMESPACES);
    SameTableSameSort(a.devices, b.devices, ALLOWED_DEVICES);
    AcceptedMountsNormalForm(a.mounts, b.mounts);
    assert a.uidMappings == b.uidMappings && a.gidMappings == b.gidMappings;
    assert Draft(a) == Draft(b);
  }

  lemma SameTableSameSort(a: seq<string>, b: seq<string>, table: seq<string>)
    requires Distinct(table) && "" !in table && SameNonEmptySet(a, table) && SameNonEmptySet(b, table)
    ensures SortStrings(a) == SortStrings(b)
  {
    SetMeansPermutation(a, table);
    SetMeansPermutation(b, table);
    SortStringsEqual(a, b);
  }

  lemma CanonicalKeepsBags(mounts: seq<MountSpec>)
    ensures MountBags(CanonicalMounts(mounts)) == MountBags(mounts)
  {
    var normal := Map(Normalise(), mounts);
    MapPermute(BagOf(), CanonicalMounts(mounts), normal);
    assert Map(BagOf(), normal) == Map(BagOf(), mounts);
  }

  /** The draft of a plan's own request is the plan's canonical form. */
  lemma DraftIsCanonical(p: Plan)
    requires ValidRequest(AsRequest(p))
    ensures Draft(AsRequest(p)) == CanonicalPlan(p)
  {
    assert SortStrings([]) == [] by {
      assert |multiset(SortStrings([]))| == 0;
    }
  }

  lemma IssuedSameAsRequestLists(digest: Digest, p: Plan)
    requires VerifyPlan(digest, p)
    ensures SameUpToOrder(Issue(digest, AsRequest(p)), p)
  {
    DraftIsCanonical(p);
    CanonicalKeepsBags(p.mounts);
  }

  lemma ReorderedTable(a: seq<string>, b: seq<string>, table: seq<string>)
    requires Distinct(table) && "" !in table && SameNonEmptySet(a, table) && multiset(SortStrings(a)) == multiset(b)
    ensures SameNonEmptySet(b, table)
  {
    SetMeansPermutation(a, table);
    SetMeansPermutation(b, table);
  }

  lemma ReorderingStaysValid(digest: Digest, r: Request, q: Plan)
    requires ValidRequest(r) && SameUpToOrder(Issue(digest, r), q)
    ensures ValidRequest(AsRequest(q)) && q.uidMappings == r.uidMappings && q.gidMappings == r.gidMappings
  {
    FieldsAgree(Issue(digest, r), q);
    TablesAreSets();
    ReorderedTable(r.namespaces, q.namespaceFlags, REQUIRED_NAMESPACES);
    ReorderedTable(r.devices, q.devices, ALLOWED_DEVICES);
    CanonicalKeepsBags(r.mounts);
    SameBagsSameValidity(r.mounts, q.mounts);
  }

  /** Equality up to order carries acceptance over. */
  lemma SameUpToOrderVerifies(digest: Digest, r: Request, q: Plan)
    requires ValidRequest(r) && SameUpToOrder(Issue(digest, r), q)
    ensures VerifyPlan(digest, q)
  {
    FieldsAgree(Issue(digest, r), q);
    ReorderingStaysValid(digest, r, q);
    NormalForm(digest, r, AsRequest(q));
    DraftIsCanonical(q);
  }

  lemma FieldsAgree(p: Plan, q: Plan)
    requires SameUpToOrder(p, q)
    ensures p.schema == q.schema && p.cageID == q.cageID && p.profile == q.profile && p.uidMappings == q.uidMappings
    ensures p.gidMappings == q.gidMappings && p.seccompDigest == q.seccompDigest
    ensures p.noNewPrivileges == q.noNewPrivileges && p.clearEnvironment == q.clearEnvironment
    ensures p.closeDescriptorsAt == q.closeDescriptorsAt && p.parentDeathSignal == q.parentDeathSignal
    ensures p.initMode == q.initMode && p.workingDirectory == q.workingDirectory
    ensures p.capabilityBoundingSet == q.capabilityBoundingSet && p.planDigest == q.planDigest
  {
    var x, y := p.(namespaceFlags := [], mounts := [], devices := []), q.(namespaceFlags := [], mounts := [], devices := []);
    assert x == y;
    assert x.schema == p.schema && y.schema == q.schema;
  }

  /** Under an injective digest, two accepted plans with one digest differ at most in list order. */
  lemma SameDigestSamePlan(digest: Digest, a: Plan, b: Plan)
    requires Injective(digest) && VerifyPlan(digest, a) && VerifyPlan(digest, b) && a.planDigest == b.planDigest
    ensures SameUpToOrder(a, b)
  {
    IssuedSameAsRequestLists(digest, a);
    IssuedSameAsRequestLists(digest, b);
    DraftIsCanonical(a);
    DraftIsCanonical(b);
    assert CanonicalPlan(a) == CanonicalPlan(b);
    assert Issue(digest, AsRequest(a)) == Issue(digest, AsRequest(b));
  }

  /**
   A plan carrying the digest of an issued plan is accepted if and only if it is the issued plan up to
   the order of its set-like lists.
   */
  lemma VerifyPlanIffSameUpToOrder(digest: Digest, r: Request, q: Plan)
    requires Injective(digest) && ValidRequest(r) && q.planDigest == Issue(digest, r).planDigest
    ensures VerifyPlan(digest, q) <==> SameUpToOrder(Issue(digest, r), q)
  {
    if SameUpToOrder(Issue(digest, r), q) {
      SameUpToOrderVerifies(digest, r, q);
    }
    if VerifyPlan(digest, q) {
      IssuedSameAsRequestLists(digest, q);
      DraftIsCanonical(q);
      assert Draft(r) == Draft(AsRequest(q));
    }
  }
}
