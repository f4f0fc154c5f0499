/**
 Signed lifecycle requests: shape validation and canonical form (lifecycle/authority.go).

 URL parsing is a parameter (`UrlRules`). JSON encoding is injective on the values below, so a
 signed payload is represented by the value that is encoded.
 */
module Lifecycle {
  import opened Common
  import opened Orders
  import opened Paths
  import opened Strings
  import opened Patterns
  import opened SetEquality

  const SCHEMA := "brick.host-isolation.v1"
  const SIGNATURE_ALGORITHM := "ed25519"
  const MINUTE: int := 60_000_000_000
  const MAX_REQUEST_VALIDITY: int := 15 * MINUTE
  const MAX_CLOCK_SKEW: int := 2 * MINUTE
  const MAX_ATTESTATION_VALIDITY: int := 10 * MINUTE
  const MANDATORY_LAYERS: seq<string> := [
    "auditBeforeResponse", "callerAuthentication", "capabilityDrop", "cgroupV2", "defaultDenyEgress",
    "environmentSanitization", "executableManifest", "immutableBaseRoot", "ipcNamespace", "mountNamespace",
    "networkNamespace", "noNewPrivileges", "pidNamespace", "protectedPathExclusion", "replayProtection", "seccomp",
    "userNamespace", "utsNamespace"]

  /** An instant and the zone offset it is written with; JSON shows both, comparisons only the instant. */
  datatype Timestamp = Timestamp(instant: int, offset: int)

  datatype ResourcePolicy = ResourcePolicy(cpuQuotaMilli: int, memoryMaxBytes: int, pidsMax: int, ioWeight: int)

  datatype Mount = Mount(source: string, destination: string, readOnly: bool)

  datatype MountPolicy = MountPolicy(baseRoot: string, mounts: seq<Mount>, mandatoryLayers: seq<string>)

  datatype NetworkPolicy = NetworkPolicy(mode: string, allowedEndpoints: seq<string>)

  datatype Request = Request(
    schema: string, requestID: string, action: string, issuedAt: Timestamp, expiresAt: Timestamp,
    callerSpiffeID: string, policyID: string, policyDigest: string, profile: string, cageID: string,
    hostIdentity: string, resourcePolicy: ResourcePolicy, mountPolicy: MountPolicy, networkPolicy: NetworkPolicy,
    executableManifestDigest: string, auditTarget: string, signatureAlgorithm: string, signature: string)

  /** The three uses of `url.ParseRequestURI`. */
  datatype UrlRules = UrlRules(spiffeID: string -> bool, httpsEndpoint: string -> bool, auditTarget: string -> bool)

  // ----- Shape

  predicate ValidAction(action: string) {
    action in ["create", "activate", "suspend", "destroy", "attest"]
  }

  predicate ValidIdentity(urls: UrlRules, req: Request) {
    && req.schema == SCHEMA && req.signatureAlgorithm == SIGNATURE_ALGORITHM && IsUuid(req.requestID)
    && ValidAction(req.action) && urls.spiffeID(req.callerSpiffeID) && IsPolicyID(req.policyID)
    && IsDigest(req.policyDigest) && ValidProfile(req.profile) && IsCageID(req.cageID) && IsHostID(req.hostIdentity)
    && IsDigest(req.executableManifestDigest)
  }

  predicate ValidWindow(req: Request, now: int) {
    var issued, expires := req.issuedAt.instant, req.expiresAt.instant;
    && issued != ZERO_TIME && expires != ZERO_TIME && expires > issued && expires - issued <= MAX_REQUEST_VALIDITY
    && issued <= now + MAX_CLOCK_SKEW && expires > now
  }

  predicate ValidResourcePolicy(p: ResourcePolicy) {
    p.cpuQuotaMilli > 0 && p.memoryMaxBytes > 0 && p.pidsMax > 0 && 1 <= p.ioWeight <= 10000
  }

  predicate SafeMount(m: Mount) {
    && SafeAbsolutePath(m.source) && SafeAbsolutePath(m.destination)
    && !IsProtected(m.source) && !IsProtected(m.destination) && m.readOnly
  }

  /** The mount at `i` is the reason for a denial. */
  predicate MountOffends(mounts: seq<Mount>, i: nat)
    requires i < |mounts|
  {
    !SafeMount(mounts[i]) || exists j :: 0 <= j < i && mounts[j].destination == mounts[i].destination
  }

  predicate ValidMountBase(policy: MountPolicy) {
    && SafeAbsolutePath(policy.baseRoot) && !IsProtected(policy.baseRoot)
    && SameSet(policy.mandatoryLayers, MANDATORY_LAYERS)
  }

  predicate ValidMountPolicy(policy: MountPolicy) {
    ValidMountBase(policy) && forall i :: 0 <= i < |policy.mounts| ==> !MountOffends(policy.mounts, i)
  }

  /** The code of the first offending mount at or after `i`. */
  function FirstMountOffence(mounts: seq<Mount>, i: nat): string
    requires i <= |mounts|
    decreases |mounts| - i
  {
    if i == |mounts| then ""
    else if !SafeMount(mounts[i]) then "unsafe_mount_policy"
    else if MountOffends(mounts, i) then "duplicate_mount_destination"
    else FirstMountOffence(mounts, i + 1)
  }

  function MountPolicyCode(policy: MountPolicy): string {
    if !ValidMountBase(policy) then "invalid_mount_policy" else FirstMountOffence(policy.mounts, 0)
  }

  /** `validateMountPolicy`. */
  method ValidateMountPolicy(policy: MountPolicy) returns (code: string)
    ensures code == MountPolicyCode(policy)
    ensures code == "" <==> ValidMountPolicy(policy)
  {
    var layersOk := EqualSet(policy.mandatoryLayers, MANDATORY_LAYERS, false);
    if !SafeAbsolutePath(policy.baseRoot) || IsProtected(policy.baseRoot) || !layersOk {
      return "invalid_mount_policy";
    }
    var seen: set<string> := {};
    var mounts := policy.mounts;
    for i := 0 to |mounts|
      invariant forall j :: 0 <= j < i ==> !MountOffends(mounts, j)
      invariant forall d :: d in seen <==> exists j :: 0 <= j < i && mounts[j].destination == d
      invariant FirstMountOffence(mounts, 0) == FirstMountOffence(mounts, i)
    {
      if !SafeMount(mounts[i]) {
        assert MountOffends(mounts, i);
        return "unsafe_mount_policy";
      }
      if mounts[i].destination in seen {
        assert MountOffends(mounts, i);
        return "duplicate_mount_destination";
      }
      seen := seen + {mounts[i].destination};
    }
    return "";
  }

  predicate EndpointOffends(urls: UrlRules, endpoints: seq<string>, i: nat)
    requires i < |endpoints|
  {
    !urls.httpsEndpoint(endpoints[i]) || exists j :: 0 <= j < i && endpoints[j] == endpoints[i]
  }

  predicate ValidNetworkPolicy(urls: UrlRules, policy: NetworkPolicy) {
    && policy.mode == "defaultDeny"
    && forall i :: 0 <= i < |policy.allowedEndpoints| ==> !EndpointOffends(urls, policy.allowedEndpoints, i)
  }

  function FirstEndpointOffence(urls: UrlRules, endpoints: seq<string>, i: nat): string
    requires i <= |endpoints|
    decreases |endpoints| - i
  {
    if i == |endpoints| then ""
    else if !urls.httpsEndpoint(endpoints[i]) then "invalid_egress_endpoint"
    else if EndpointOffends(urls, endpoints, i) then "duplicate_egress_endpoint"
    else FirstEndpointOffence(urls, endpoints, i + 1)
  }

  function NetworkPolicyCode(urls: UrlRules, policy: NetworkPolicy): string {
    if policy.mode != "defaultDeny" then "invalid_network_mode"
    else FirstEndpointOffence(urls, policy.allowedEndpoints, 0)
  }

  /** `validateNetworkPolicy`. */
  method ValidateNetworkPolicy(urls: UrlRules, policy: NetworkPolicy) returns (code: string)
    ensures code == NetworkPolicyCode(urls, policy)
    ensures code == "" <==> ValidNetworkPolicy(urls, policy)
  {
    if policy.mode != "defaultDeny" {
      return "invalid_network_mode";
    }
    var seen: set<string> := {};
    var endpoints := policy.allowedEndpoints;
    for i := 0 to |endpoints|
      invariant forall j :: 0 <= j < i ==> !EndpointOffends(urls, endpoints, j)
      invariant forall e :: e in seen <==> exists j :: 0 <= j < i && endpoints[j] == e
      invariant FirstEndpointOffence(urls, endpoints, 0) == FirstEndpointOffence(urls, endpoints, i)
    {
      if !urls.httpsEndpoint(endpoints[i]) {
        assert EndpointOffends(urls, endpoints, i);
        return "invalid_egress_endpoint";
      }
      if endpoints[i] in seen {
        assert EndpointOffends(urls, endpoints, i);
        return "duplicate_egress_endpoint";
      }
      seen := seen + {endpoints[i]};
    }
    return "";
  }

  /** The declarative meaning of an accepted shape. */
  predicate ShapeOk(urls: UrlRules, req: Request, now: int) {
    && ValidIdentity(urls, req) && ValidWindow(req, now) && ValidResourcePolicy(req.resourcePolicy)
    && ValidMountPolicy(req.mountPolicy) && ValidNetworkPolicy(urls, req.networkPolicy)
    && urls.auditTarget(req.auditTarget)
  }

  function ShapeCode(urls: UrlRules, req: Request, now: int): string {
    if !ValidIdentity(urls, req) then "invalid_request_identity"
    else if !ValidWindow(req, now) then "invalid_request_time_window"
    else if !ValidResourcePolicy(req.resourcePolicy) then "invalid_resource_policy"
    else if MountPolicyCode(req.mountPolicy) != "" then MountPolicyCode(req.mountPolicy)
    else if NetworkPolicyCode(urls, req.networkPolicy) != "" then NetworkPolicyCode(urls, req.networkPolicy)
    else if !urls.auditTarget(req.auditTarget) then "invalid_audit_target"
    else ""
  }

  lemma {:induction false} MountCodeIff(mounts: seq<Mount>, i: nat)
    requires i <= |mounts|
    ensures FirstMountOffence(mounts, i) == "" <==> forall k :: i <= k < |mounts| ==> !MountOffends(mounts, k)
    decreases |mounts| - i
  {
    if i < |mounts| {
      MountCodeIff(mounts, i + 1);
      assert !SafeMount(mounts[i]) ==> MountOffends(mounts, i);
    }
  }

  lemma {:induction false} EndpointCodeIff(urls: UrlRules, endpoints: seq<string>, i: nat)
    requires i <= |endpoints|
    ensures FirstEndpointOffence(urls, endpoints, i) == "" <==>
      forall k :: i <= k < |endpoints| ==> !EndpointOffends(urls, endpoints, k)
    decreases |endpoints| - i
  {
    if i < |endpoints| {
      EndpointCodeIff(urls, endpoints, i + 1);
      assert !urls.httpsEndpoint(endpoints[i]) ==> EndpointOffends(urls, endpoints, i);
    }
  }

  lemma ShapeCodeIff(urls: UrlRules, req: Request, now: int)
    ensures ShapeCode(urls, req, now) == "" <==> ShapeOk(urls, req, now)
  {
    MountCodeIff(req.mountPolicy.mounts, 0);
    EndpointCodeIff(urls, req.networkPolicy.allowedEndpoints, 0);
  }

  /** `validateRequestShape`: the first failed group of checks names the code. */
  method ValidateRequestShape(urls: UrlRules, req: Request, now: int) returns (code: string)
    ensures code == ShapeCode(urls, req, now)
    ensures code == "" <==> ShapeOk(urls, req, now)
  {
    if !ValidIdentity(urls, req) {
      return "invalid_request_identity";
    }
    if !ValidWindow(req, now) {
      return "invalid_request_time_window";
    }
    if !ValidResourcePolicy(req.resourcePolicy) {
      return "invalid_resource_policy";
    }
    code := ValidateMountPolicy(req.mountPolicy);
    if code != "" {
      return;
    }
    code := ValidateNetworkPolicy(urls, req.networkPolicy);
    if code != "" {
      return;
    }
    return if urls.auditTarget(req.auditTarget) then "" else "invalid_audit_target";
  }

  // ----- Canonical form

  function Destination(): Mount -> string {
    (m: Mount) => m.destination
  }

  function Source(): Mount -> string {
    (m: Mount) => m.source
  }

  function MountOrder(): (Mount, Mount) -> bool {
    ByKeys(Destination(), Source())
  }

  ghost function SortMounts(mounts: seq<Mount>): (r: seq<Mount>)
    ensures IsSorting(r, mounts, MountOrder())
  {
    ByKeysStrictWeak(Destination(), Source());
    SortSlice(mounts, MountOrder())
  }

  /** `canonicalRequest`: the value whose JSON is signed. */
  ghost function Canonical(req: Request): Request {
    req.(signature := "",
         mountPolicy := req.mountPolicy.(mandatoryLayers := SortStrings(req.mountPolicy.mandatoryLayers),
                                         mounts := SortMounts(req.mountPolicy.mounts)),
         networkPolicy := req.networkPolicy.(allowedEndpoints := SortStrings(req.networkPolicy.allowedEndpoints)))
  }

  /** `canonicalRequest`, executable: with unique destinations it leaves the sorts no choice. */
  method CanonicalRequest(req: Request) returns (c: Request)
    ensures UniqueKeys(req.mountPolicy.mounts, Destination()) ==> c == Canonical(req)
  {
    ByKeyStrictWeak(Identity());
    ByKeysStrictWeak(Destination(), Source());
    var layers := Sort(req.mountPolicy.mandatoryLayers, ByKey(Identity()));
    var mounts := Sort(req.mountPolicy.mounts, MountOrder());
    var endpoints := Sort(req.networkPolicy.allowedEndpoints, ByKey(Identity()));
    StringSortingUnique(layers, req.mountPolicy.mandatoryLayers);
    StringSortingUnique(endpoints, req.networkPolicy.allowedEndpoints);
    if UniqueKeys(req.mountPolicy.mounts, Destination()) {
      MountSortingUnique(mounts, req.mountPolicy.mounts);
    }
    c := req.(signature := "",
              mountPolicy := req.mountPolicy.(mandatoryLayers := layers, mounts := mounts),
              networkPolicy := req.networkPolicy.(allowedEndpoints := endpoints));
  }

  /** Everything a reordering of the three lists and a change of signature leaves alone. */
  function Frame(req: Request): Request {
    req.(signature := "", mountPolicy := req.mountPolicy.(mandatoryLayers := [], mounts := []),
         networkPolicy := req.networkPolicy.(allowedEndpoints := []))
  }

  /** The requests agree on everything except the signature and the order of mounts, layers and endpoints. */
  ghost predicate SameUpToOrder(a: Request, b: Request) {
    && Frame(a) == Frame(b)
    && multiset(a.mountPolicy.mounts) == multiset(b.mountPolicy.mounts)
    && multiset(a.mountPolicy.mandatoryLayers) == multiset(b.mountPolicy.mandatoryLayers)
    && multiset(a.networkPolicy.allowedEndpoints) == multiset(b.networkPolicy.allowedEndpoints)
  }

  lemma DestinationsSeparate(a: seq<Mount>)
    requires UniqueKeys(a, Destination())
    ensures Separates(a, MountOrder())
  {
    forall x, y | x in a && y in a && x != y
      ensures MountOrder()(x, y) || MountOrder()(y, x)
    {
      var i :| 0 <= i < |a| && a[i] == x;
      var j :| 0 <= j < |a| && a[j] == y;
      assert Destination()(a[i]) != Destination()(a[j]);
      LessTotal(x.destination, y.destination);
    }
  }

  /** Unique destinations leave the unstable sort no tie to break. */
  lemma MountSortingUnique(r: seq<Mount>, a: seq<Mount>)
    requires UniqueKeys(a, Destination()) && IsSorting(r, a, MountOrder())
    ensures r == SortMounts(a)
  {
    UniqueKeysPermute(r, a, Destination());
    DestinationsSeparate(r);
    SortingUnique(r, SortMounts(a), MountOrder());
  }

  lemma SortMountsEqual(a: seq<Mount>, b: seq<Mount>)
    requires UniqueKeys(a, Destination())
    ensures SortMounts(a) == SortMounts(b) <==> multiset(a) == multiset(b)
  {
    if multiset(a) == multiset(b) {
      DestinationsSeparate(a);
      ByKeysStrictWeak(Destination(), Source());
      SortSliceOrderFree(a, b, MountOrder());
    }
  }

  lemma ShapeGivesUniqueDestinations(policy: MountPolicy)
    requires ValidMountPolicy(policy)
    ensures UniqueKeys(policy.mounts, Destination())
  {
    forall i, j | 0 <= i < j < |policy.mounts|
      ensures Destination()(policy.mounts[i]) != Destination()(policy.mounts[j])
    {
      assert !MountOffends(policy.mounts, j);
    }
  }

  /** For accepted requests, equal payloads mean equal requests up to signature and list order, and conversely. */
  lemma CanonicalIffSameUpToOrder(urls: UrlRules, a: Request, now: int, b: Request)
    requires ShapeOk(urls, a, now)
    ensures Canonical(a) == Canonical(b) <==> SameUpToOrder(a, b)
  {
    ShapeGivesUniqueDestinations(a.mountPolicy);
    SortMountsEqual(a.mountPolicy.mounts, b.mountPolicy.mounts);
    SortStringsEqual(a.mountPolicy.mandatoryLayers, b.mountPolicy.mandatoryLayers);
    SortStringsEqual(a.networkPolicy.allowedEndpoints, b.networkPolicy.allowedEndpoints);
    if Canonical(a) == Canonical(b) {
      assert Canonical(a).mountPolicy.mounts == Canonical(b).mountPolicy.mounts;
      assert Frame(Canonical(a)) == Frame(a) && Frame(Canonical(b)) == Frame(b);
    }
    if SameUpToOrder(a, b) {
      assert Frame(a).mountPolicy.baseRoot == Frame(b).mountPolicy.baseRoot;
      assert Frame(a).networkPolicy.mode == Frame(b).networkPolicy.mode;
    }
  }

  // ----- What accepted policies mean

  /** The path is a list of proper components, and no path of the table is a prefix of it. */
  ghost predicate OutsideOf(path: string, table: seq<string>) {
    && Rooted(path) && Components(path) != [] && AllProper(Components(path))
    && forall i :: 0 <= i < |table| ==> !(Split(table[i], SLASH) <= Split(path, SLASH))
  }

  /** A read-only mount whose two paths stay outside of the table. */
  ghost predicate HarmlessMount(m: Mount, table: seq<string>) {
    m.readOnly && OutsideOf(m.source, table) && OutsideOf(m.destination, table)
  }

  /** Harmless mounts at distinct places, over a root outside of the table, with exactly these layers. */
  ghost predicate HarmlessMounts(policy: MountPolicy, table: seq<string>, layers: seq<string>) {
    && OutsideOf(policy.baseRoot, table) && multiset(policy.mandatoryLayers) == multiset(layers)
    && (forall m :: m in policy.mounts ==> HarmlessMount(m, table))
    && (forall i, j :: 0 <= i < j < |policy.mounts| ==> policy.mounts[i].destination != policy.mounts[j].destination)
  }

  /** Nothing can be reached but distinct https endpoints. */
  ghost predicate EgressIsConfined(urls: UrlRules, policy: NetworkPolicy) {
    && policy.mode == "defaultDeny" && Distinct(policy.allowedEndpoints)
    && forall e :: e in policy.allowedEndpoints ==> urls.httpsEndpoint(e)
  }

  lemma SafeIsOutside(path: string, table: seq<string>)
    ensures SafeAbsolutePath(path) && !(exists i :: 0 <= i < |table| && AtOrBelow(path, table[i])) <==> OutsideOf(path, table)
  {
    SafePathIsProperComponents(path);
    forall i | 0 <= i < |table|
      ensures AtOrBelow(path, table[i]) <==> Split(table[i], SLASH) <= Split(path, SLASH)
    {
      AtOrBelowIsComponentPrefix(path, table[i]);
    }
  }

  lemma SafeMountIff(m: Mount)
    ensures SafeMount(m) <==> HarmlessMount(m, PROTECTED_HOST_PATHS)
  {
    SafeIsOutside(m.source, PROTECTED_HOST_PATHS);
    SafeIsOutside(m.destination, PROTECTED_HOST_PATHS);
  }

  lemma LayersAreDistinct()
    ensures Distinct(MANDATORY_LAYERS)
  {
  }

  lemma MountBaseIff(policy: MountPolicy)
    ensures ValidMountBase(policy) <==>
      && OutsideOf(policy.baseRoot, PROTECTED_HOST_PATHS)
      && multiset(policy.mandatoryLayers) == multiset(MANDATORY_LAYERS)
  {
    SafeIsOutside(policy.baseRoot, PROTECTED_HOST_PATHS);
    LayersAreDistinct();
    SameSetIsPermutation(policy.mandatoryLayers, MANDATORY_LAYERS);
  }

  /** No mount offends exactly when all are harmless and at distinct places. */
  lemma NoOffenceIff(mounts: seq<Mount>, table: seq<string>)
    requires forall m :: SafeMount(m) <==> HarmlessMount(m, table)
    ensures (forall i :: 0 <= i < |mounts| ==> !MountOffends(mounts, i)) <==>
      && (forall m :: m in mounts ==> HarmlessMount(m, table))
      && (forall i, j :: 0 <= i < j < |mounts| ==> mounts[i].destination != mounts[j].destination)
  {
    if forall i :: 0 <= i < |mounts| ==> !MountOffends(mounts, i) {
      forall i, j | 0 <= i < j < |mounts|
        ensures mounts[i].destination != mounts[j].destination
      {
        assert !MountOffends(mounts, j);
      }
      forall m | m in mounts
        ensures SafeMount(m)
      {
        var i :| 0 <= i < |mounts| && mounts[i] == m;
        assert !MountOffends(mounts, i);
      }
    }
  }

  /** The validator accepts exactly the harmless mount policies. */
  lemma MountPolicyIff(policy: MountPolicy, table: seq<string>, layers: seq<string>)
    requires table == PROTECTED_HOST_PATHS && layers == MANDATORY_LAYERS
    ensures ValidMountPolicy(policy) <==> HarmlessMounts(policy, table, layers)
  {
    MountBaseIff(policy);
    forall m
      ensures SafeMount(m) <==> HarmlessMount(m, table)
    {
      SafeMountIff(m);
    }
    NoOffenceIff(policy.mounts, table);
  }

  /** The validator accepts exactly confined egress. */
  lemma NetworkPolicyIff(urls: UrlRules, policy: NetworkPolicy)
    ensures ValidNetworkPolicy(urls, policy) <==> EgressIsConfined(urls, policy)
  {
    var endpoints := policy.allowedEndpoints;
    if ValidNetworkPolicy(urls, policy) {
      forall i | 0 <= i < |endpoints|
        ensures urls.httpsEndpoint(endpoints[i]) && forall j :: 0 <= j < i ==> endpoints[j] != endpoints[i]
      {
        assert !EndpointOffends(urls, endpoints, i);
      }
    }
  }

  // ----- Signatures

  /** An abstract signature scheme over payloads `P`; the text form includes its base64 encoding. */
  datatype Scheme<!P> = Scheme(
    publicKey: string -> string, sign: (string, P) -> string, verify: (string, P, string) -> bool,
    wellEncoded: string -> bool)

  /** What signing produces is well encoded and verifies. */
  ghost predicate Correct<P(!new)>(scheme: Scheme<P>) {
    forall k, m :: scheme.wellEncoded(scheme.sign(k, m)) && scheme.verify(scheme.publicKey(k), m, scheme.sign(k, m))
  }

  /** A signature made for one payload verifies for no other. */
  ghost predicate BindsPayload<P(!new)>(scheme: Scheme<P>) {
    forall k, m, m' :: scheme.verify(scheme.publicKey(k), m', scheme.sign(k, m)) ==> m == m'
  }

  /** `SignRequest`. */
  ghost function SignRequest(scheme: Scheme<Request>, req: Request, key: string): Request {
    var unsigned := req.(signatureAlgorithm := SIGNATURE_ALGORITHM, signature := "");
    unsigned.(signature := scheme.sign(key, Canonical(unsigned)))
  }

  /** The signature test of `Authorize`. */
  ghost predicate SignatureOk(scheme: Scheme<Request>, req: Request, publicKey: string) {
    scheme.wellEncoded(req.signature) && scheme.verify(publicKey, Canonical(req), req.signature)
  }

  /** A signature survives exactly the reorderings of mounts, layers and endpoints. */
  lemma SignatureSurvivesExactlyReordering(scheme: Scheme<Request>, urls: UrlRules, req: Request, now: int, key: string,
                                           other: Request)
    requires Correct(scheme) && BindsPayload(scheme)
    requires ShapeOk(urls, SignRequest(scheme, req, key), now)
    requires other.signature == SignRequest(scheme, req, key).signature
    ensures SignatureOk(scheme, other, scheme.publicKey(key))
       <==> SameUpToOrder(SignRequest(scheme, req, key), other)
  {
    var signed := SignRequest(scheme, req, key);
    var unsigned := req.(signatureAlgorithm := SIGNATURE_ALGORITHM, signature := "");
    assert Canonical(signed) == Canonical(unsigned);
    CanonicalIffSameUpToOrder(urls, signed, now, other);
    assert signed.signature == scheme.sign(key, Canonical(unsigned));
  }
}
