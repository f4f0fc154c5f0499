/**
 Resource plans: network policy, plan construction and verification (resource/authority.go).

 `digest` stands for hex(SHA-256(JSON(plan))).
 */
module Resource {
  import opened Orders
  import opened Strings
  import opened Paths
  import opened Patterns
  import opened CgroupWrites
  import Isolation

  const SCHEMA := "brick.host-isolation.resource.v1"
  const CGROUP_ROOT := "/sys/fs/cgroup/brick-isolation"

  datatype Endpoint = Endpoint(serverName: string, protocol: string, port: nat)

  datatype NetworkPolicy = NetworkPolicy(mode: string, proxySpiffeID: string, allowedEndpoints: seq<Endpoint>)

  datatype Request = Request(
    schema: string, cageID: string, profile: string, isolationPlanDigest: string, limits: Limits,
    network: NetworkPolicy)

  datatype Plan = Plan(
    schema: string, cageID: string, profile: string, isolationPlanDigest: string, cgroupPath: string,
    writes: seq<ControlWrite>, fileDescriptorMax: nat, wallClockSeconds: nat, network: NetworkPolicy,
    planDigest: string)

  type Digest = Plan -> string

  ghost predicate Injective(digest: Digest) {
    forall a, b :: digest(a) == digest(b) ==> a == b
  }

  // ----- Network policy

  function EndpointKey(): Endpoint -> string {
    (e: Endpoint) => e.serverName + ":" + e.protocol + ":" + Decimal(e.port)
  }

  predicate EndpointOk(e: Endpoint) {
    IsHostname(e.serverName) && e.protocol == "https" && e.port == 443
  }

  /** `validNetwork`. */
  ghost predicate ValidNetwork(p: NetworkPolicy) {
    if p.mode == "denyAll" then p.proxySpiffeID == "" && p.allowedEndpoints == []
    else
      && p.mode == "proxyOnly" && IsSpiffe(p.proxySpiffeID) && p.allowedEndpoints != []
      && (forall i :: 0 <= i < |p.allowedEndpoints| ==> EndpointOk(p.allowedEndpoints[i]))
      && UniqueKeys(p.allowedEndpoints, EndpointKey())
  }

  function ServerName(): Endpoint -> string {
    (e: Endpoint) => e.serverName
  }

  function Protocol(): Endpoint -> string {
    (e: Endpoint) => e.protocol
  }

  ghost function SortEndpoints(endpoints: seq<Endpoint>): (r: seq<Endpoint>)
    ensures IsSorting(r, endpoints, ByKeys(ServerName(), Protocol()))
  {
    ByKeysStrictWeak(ServerName(), Protocol());
    SortSlice(endpoints, ByKeys(ServerName(), Protocol()))
  }

  /** `canonicalNetwork`. */
  ghost function CanonicalNetwork(p: NetworkPolicy): NetworkPolicy {
    p.(allowedEndpoints := SortEndpoints(p.allowedEndpoints))
  }

  ghost predicate SameNetwork(a: NetworkPolicy, b: NetworkPolicy) {
    a.mode == b.mode && a.proxySpiffeID == b.proxySpiffeID
    && multiset(a.allowedEndpoints) == multiset(b.allowedEndpoints)
  }

  /** No egress at all, or egress through a SPIFFE-named proxy to https servers on port 443, each named once. */
  ghost predicate Confined(p: NetworkPolicy) {
    || p == NetworkPolicy("denyAll", "", [])
    || (&& p.mode == "proxyOnly" && IsSpiffe(p.proxySpiffeID) && p.allowedEndpoints != []
        && (forall e :: e in p.allowedEndpoints ==> IsHostname(e.serverName) && e == Endpoint(e.serverName, "https", 443))
        && (forall i, j :: 0 <= i < j < |p.allowedEndpoints| ==>
            p.allowedEndpoints[i].serverName != p.allowedEndpoints[j].serverName))
  }

  /** With protocol and port fixed, endpoint keys differ exactly when server names do. */
  lemma KeysAreNames(a: Endpoint, b: Endpoint)
    requires EndpointOk(a) && EndpointOk(b)
    ensures EndpointKey()(a) == EndpointKey()(b) <==> a.serverName == b.serverName
  {
    var tail := ":" + "https" + ":" + Decimal(443);
    assert EndpointKey()(a) == a.serverName + tail && EndpointKey()(b) == b.serverName + tail;
    if EndpointKey()(a) == EndpointKey()(b) {
      assert |a.serverName| == |b.serverName|;
      assert a.serverName == EndpointKey()(a)[..|a.serverName|] == EndpointKey()(b)[..|b.serverName|] == b.serverName;
    }
  }

  lemma AcceptedIffConfined(p: NetworkPolicy)
    ensures ValidNetwork(p) <==> Confined(p)
  {
    var es := p.allowedEndpoints;
    if p.mode == "proxyOnly" && (forall e :: e in es ==> EndpointOk(e)) {
      forall i, j | 0 <= i < j < |es|
        ensures EndpointKey()(es[i]) != EndpointKey()(es[j]) <==> es[i].serverName != es[j].serverName
      {
        KeysAreNames(es[i], es[j]);
      }
    }
    if ValidNetwork(p) && p.mode == "proxyOnly" {
      forall e | e in es
        ensures EndpointOk(e)
      {
        var i :| 0 <= i < |es| && es[i] == e;
      }
    }
  }

  /** Accepted endpoints never tie: the fixed protocol and port leave only the server name in their keys. */
  lemma AcceptedEndpointsSeparate(p: NetworkPolicy)
    requires ValidNetwork(p)
    ensures Separates(p.allowedEndpoints, ByKeys(ServerName(), Protocol()))
  {
    var s, lt := p.allowedEndpoints, ByKeys(ServerName(), Protocol());
    forall x, y | x in s && y in s && x != y
      ensures lt(x, y) || lt(y, x)
    {
      LessTotal(x.serverName, y.serverName);
    }
  }

  lemma CanonicalNetworkIff(a: NetworkPolicy, b: NetworkPolicy)
    requires ValidNetwork(a)
    ensures CanonicalNetwork(a) == CanonicalNetwork(b) <==> SameNetwork(a, b)
  {
    if SameNetwork(a, b) {
      AcceptedEndpointsSeparate(a);
      ByKeysStrictWeak(ServerName(), Protocol());
      SortSliceOrderFree(a.allowedEndpoints, b.allowedEndpoints, ByKeys(ServerName(), Protocol()));
    }
    if CanonicalNetwork(a) == CanonicalNetwork(b) {
      assert CanonicalNetwork(a).mode == a.mode && CanonicalNetwork(b).mode == b.mode;
      assert CanonicalNetwork(a).allowedEndpoints == CanonicalNetwork(b).allowedEndpoints;
    }
  }

  /** Acceptance of a network policy does not depend on the order of its endpoints. */
  lemma SameNetworkSameValidity(a: NetworkPolicy, b: NetworkPolicy)
    requires ValidNetwork(a) && SameNetwork(a, b)
    ensures ValidNetwork(b)
  {
    var x, y := a.allowedEndpoints, b.allowedEndpoints;
    assert |x| == |multiset(x)| == |multiset(y)| == |y|;
    if a.mode != "denyAll" {
      UniqueKeysPermute(y, x, EndpointKey());
      forall i | 0 <= i < |y|
        ensures EndpointOk(y[i])
      {
        InMultiset(y[i], y);
        InMultiset(y[i], x);
      }
    }
  }

  // ----- Plans

  datatype Authority = Authority(max: Limits, digest: Digest, isolationDigest: Isolation.Digest)

  /** `safeCgroupPath` for the one root that `safeCgroupRoot` admits. */
  predicate SafeCgroupPath(path: string) {
    CGROUP_ROOT + "/" <= path && Clean(path) == path && path != CGROUP_ROOT
  }

  /** `validate` returns no reason. */
  ghost predicate ValidRequest(a: Authority, r: Request, iso: Isolation.Plan) {
    && r.schema == SCHEMA && IsCageID(r.cageID) && r.cageID == iso.cageID && r.profile == iso.profile
    && IsDigest(r.isolationPlanDigest) && r.isolationPlanDigest == iso.planDigest
    && "network" in iso.namespaceFlags && iso.noNewPrivileges && iso.clearEnvironment && iso.closeDescriptorsAt == 3
    && LimitsOk(r.limits, a.max) && ValidNetwork(r.network)
  }

  ghost function Draft(r: Request): Plan {
    Plan(SCHEMA, r.cageID, r.profile, r.isolationPlanDigest, JoinPath(CGROUP_ROOT, r.cageID), Writes(r.limits),
         r.limits.fileDescriptorMax, r.limits.wallClockSeconds, CanonicalNetwork(r.network), "")
  }

  ghost function Issue(digest: Digest, r: Request): Plan {
    Draft(r).(planDigest := digest(Draft(r)))
  }

  datatype Outcome = Planned(plan: Plan) | Refused

  /** `Prepare`. */
  ghost function Prepare(a: Authority, cancelled: bool, auditOk: bool, iso: Isolation.Plan, r: Request): Outcome {
    if cancelled || !Isolation.VerifyPlan(a.isolationDigest, iso) || !ValidRequest(a, r, iso) || !auditOk then Refused
    else Planned(Issue(a.digest, r))
  }

  /** `VerifyPlan` accepts. */
  ghost predicate VerifyPlan(digest: Digest, p: Plan) {
    && p.schema == SCHEMA && IsCageID(p.cageID) && IsDigest(p.isolationPlanDigest) && SafeCgroupPath(p.cgroupPath)
    && p.cgroupPath == JoinPath(CGROUP_ROOT, p.cageID)
    && (p.profile == "sharedTenant" || p.profile == "dedicatedAdministrator")
    && ValidNetwork(p.network) && p.fileDescriptorMax != 0 && p.wallClockSeconds != 0
    && CanonicalWrites(p.writes)
    && p.planDigest == digest(CanonicalPlan(p))
  }

  ghost function CanonicalPlan(p: Plan): Plan {
    p.(network := CanonicalNetwork(p.network), planDigest := "")
  }

  /** The plans differ at most in the order of allowed endpoints. */
  ghost predicate SameUpToOrder(a: Plan, b: Plan) {
    a.(network := b.network) == b && SameNetwork(a.network, b.network)
  }

  // ----- Cage directories

  lemma CageIDIsProper(id: string)
    requires IsCageID(id)
    ensures Proper(id)
  {
    assert AllLowerAlnumOrDash(id[5..]);
    assert id[..5] == "cage-";
    forall i | 0 <= i < |id|
      ensures id[i] != SLASH
    {
      if i < 5 {
        assert id[i] == id[..5][i];
        assert "cage-"[i] != SLASH;
      } else {
        assert id[i] == id[5..][i - 5];
      }
    }
  }

  lemma JoinFour(a: string, b: string, c: string, d: string, sep: char)
    ensures Join([a, b, c, d], sep) == a + [sep] + b + [sep] + c + [sep] + d
  {
    assert [a, b, c, d][1..] == [b, c, d] && [b, c, d][1..] == [c, d] && [c, d][1..] == [d];
    assert Join([c, d], sep) == c + [sep] + d;
    assert Join([b, c, d], sep) == b + [sep] + (c + [sep] + d);
    assert Join([a, b, c, d], sep) == a + [sep] + (b + [sep] + (c + [sep] + d));
  }

  const ROOT_COMPONENTS: seq<string> := ["sys", "fs", "cgroup", "brick-isolation"]

  lemma RootComponentsAreProper()
    ensures AllProper(ROOT_COMPONENTS)
  {
    assert Proper("sys");
    assert Proper("fs");
    assert Proper("cgroup");
    assert Proper("brick-isolation");
  }

  lemma RootText()
    ensures CGROUP_ROOT == "/" + Join(ROOT_COMPONENTS, SLASH)
  {
    JoinFour("sys", "fs", "cgroup", "brick-isolation", SLASH);
    assert "/" + "sys" + "/" + "fs" == "/sys/fs" && "/" + "cgroup" + "/" == "/cgroup/";
    assert "/sys/fs" + "/cgroup/" == "/sys/fs/cgroup/" && "/sys/fs/cgroup/" + "brick-isolation" == CGROUP_ROOT;
  }

  lemma CgroupRootIsSafe()
    ensures CleanMountPoint(CGROUP_ROOT) && Components(CGROUP_ROOT) == ROOT_COMPONENTS
  {
    RootComponentsAreProper();
    RootText();
    ProperListIsSafe(ROOT_COMPONENTS, CGROUP_ROOT);
  }

  /** Distinct cage IDs name distinct direct children of the cgroup root. */
  lemma CagesAreDirectChildren(a: string, b: string)
    requires IsCageID(a) && IsCageID(b)
    ensures Components(JoinPath(CGROUP_ROOT, a)) == Components(CGROUP_ROOT) + [a]
    ensures JoinPath(CGROUP_ROOT, a) == CGROUP_ROOT + "/" + a
    ensures JoinPath(CGROUP_ROOT, a) == JoinPath(CGROUP_ROOT, b) <==> a == b
  {
    CgroupRootIsSafe();
    CageIDIsProper(a);
    CageIDIsProper(b);
    JoinAppends(CGROUP_ROOT, a);
    JoinAppends(CGROUP_ROOT, b);
    assert (CGROUP_ROOT + "/" + a)[|CGROUP_ROOT| + 1..] == a;
    assert (CGROUP_ROOT + "/" + b)[|CGROUP_ROOT| + 1..] == b;
  }

  lemma CagePathIsSafe(id: string)
    requires IsCageID(id)
    ensures SafeCgroupPath(JoinPath(CGROUP_ROOT, id))
  {
    CagesAreDirectChildren(id, id);
    var path := CGROUP_ROOT + "/" + id;
    CgroupRootIsSafe();
    CageIDIsProper(id);
    JoinAppends(CGROUP_ROOT, id);
  }

  // ----- Theorems

  lemma SortedEndpointsSame(p: NetworkPolicy)
    requires ValidNetwork(p)
    ensures ValidNetwork(CanonicalNetwork(p)) && SameNetwork(p, CanonicalNetwork(p))
    ensures CanonicalNetwork(CanonicalNetwork(p)) == CanonicalNetwork(p)
  {
    SameNetworkSameValidity(p, CanonicalNetwork(p));
    CanonicalNetworkIff(p, CanonicalNetwork(p));
  }

  /** Every plan that `Prepare` issues passes `VerifyPlan`. */
  lemma IssuedPlanVerifies(a: Authority, r: Request, iso: Isolation.Plan)
    requires ValidRequest(a, r, iso) && ValidProfile(r.profile)
    ensures VerifyPlan(a.digest, Issue(a.digest, r))
  {
    CagePathIsSafe(r.cageID);
    RenderedWritesAreCanonical(r.limits, a.max);
    SortedEndpointsSame(r.network);
    assert CanonicalPlan(Issue(a.digest, r)) == Draft(r);
  }

  /** Under an injective digest, two accepted plans with one digest differ at most in endpoint order. */
  lemma SameDigestSamePlan(digest: Digest, a: Plan, b: Plan)
    requires Injective(digest) && VerifyPlan(digest, a) && VerifyPlan(digest, b) && a.planDigest == b.planDigest
    ensures SameUpToOrder(a, b)
  {
    assert CanonicalPlan(a) == CanonicalPlan(b);
    CanonicalNetworkIff(a.network, b.network);
    assert CanonicalPlan(a).network == CanonicalPlan(b).network;
    assert CanonicalPlan(a).(network := b.network, planDigest := b.planDigest) == a.(network := b.network);
    assert CanonicalPlan(b).(network := b.network, planDigest := b.planDigest) == b;
  }

  /** A plan with the digest of an issued plan is accepted exactly when only its endpoints are reordered. */
  lemma VerifyPlanIffSameUpToOrder(a: Authority, r: Request, iso: Isolation.Plan, q: Plan)
    requires Injective(a.digest) && ValidRequest(a, r, iso) && ValidProfile(r.profile)
    requires q.planDigest == Issue(a.digest, r).planDigest
    ensures VerifyPlan(a.digest, q) <==> SameUpToOrder(Issue(a.digest, r), q)
  {
    var p := Issue(a.digest, r);
    IssuedPlanVerifies(a, r, iso);
    if VerifyPlan(a.digest, q) {
      SameDigestSamePlan(a.digest, p, q);
    }
    if SameUpToOrder(p, q) {
      SameNetworkSameValidity(p.network, q.network);
      CanonicalNetworkIff(p.network, q.network);
      assert CanonicalPlan(q) == CanonicalPlan(p);
    }
  }
}
