/**
 Release certification: staging evidence, the core-gate cover and certificates
 (certification/authority.go, edition/authority.go).

 JSON digests and Ed25519 are parameters. Times are integer nanoseconds with Go's zero time at 0.
 */
module Certification {
  import opened Common
  import opened Orders
  import opened Patterns
  import opened Strings
  import opened Lifecycle

  const CERTIFICATE_SCHEMA := "brick.host-isolation.certification.v1"
  const MANIFEST_SCHEMA := "brick.host-isolation.artifact-manifest.v1"
  const BENCHMARK_SCHEMA := "brick.host-isolation.benchmark-evidence.v1"
  const REVIEW_SCHEMA := "brick.host-isolation.security-review.v1"
  const GATE_SCHEMA := "brick.core.host-isolation-admission.v1"
  const EDITION_SCHEMA := "brick.host-isolation.edition.v1"
  const BINDING_SCHEMA := "brick.release-evidence-binding.v1"
  const ALGORITHM := "ed25519"
  const EDITIONS: seq<string> := ["shared", "dedicated"]
  const GATES: seq<string> := ["admission", "certification", "ga"]
  const SCENARIOS: seq<string> := [
    "pathTraversal", "mountEscape", "symlinkEscape", "bindMountEscape", "namespaceEscape", "processEscape",
    "socketExposure", "environmentInjection", "executableInjection", "egressBypass", "resourceExhaustion",
    "replayAttempt", "auditFailure", "freezeRecovery", "crossTenantIsolation"]

  datatype Artifact = Artifact(path: string, digest: string, sizeBytes: int)

  datatype ArtifactManifest = ArtifactManifest(
    schema: string, releaseID: string, sourceCommit: string, createdAt: int, sbomDigest: string,
    artifacts: seq<Artifact>, signatureAlgorithm: string, signature: string)

  datatype BenchmarkResult = BenchmarkResult(
    name: string, iterations: int, nanosecondsPerOp: int, allocationsPerOp: int, bytesPerOp: int)

  datatype BenchmarkEvidence = BenchmarkEvidence(
    schema: string, releaseID: string, sourceCommit: string, measuredAt: int, environmentDigest: string,
    results: seq<BenchmarkResult>, signatureAlgorithm: string, signature: string)

  datatype SecurityReview = SecurityReview(
    schema: string, releaseID: string, sourceCommit: string, reviewID: string, reviewerID: string, reviewedAt: int,
    expiresAt: int, outcome: string, findingsDigest: string, scope: seq<string>, signatureAlgorithm: string,
    signature: string)

  datatype CoreGate = CoreGate(
    schema: string, edition: string, gate: string, releaseID: string, sourceCommit: string, policyDigest: string,
    issuedAt: int, expiresAt: int, outcome: string, signatureAlgorithm: string, signature: string)

  datatype Binding = Binding(
    schemaVersion: string, candidateReleaseID: string, candidateCommitSHA: string, artifactManifestDigest: string,
    sbomDigest: string)

  datatype Observation = Observation(scenario: string, passed: bool, evidenceDigest: string)

  datatype Evidence = Evidence(
    schema: string, evidenceID: string, edition: string, profile: string, cageID: string, bindingDigest: string,
    releaseBinding: Binding, issuedAt: int, observations: seq<Observation>, signatureAlgorithm: string,
    signature: string)

  datatype Request = Request(
    schema: string, releaseID: string, sourceCommit: string, manifest: ArtifactManifest, benchmark: BenchmarkEvidence,
    review: SecurityReview, staging: map<string, Evidence>, coreGates: seq<CoreGate>)

  datatype Certificate = Certificate(
    schema: string, certificateID: string, releaseID: string, sourceCommit: string, artifactManifestDigest: string,
    sbomDigest: string, benchmarkDigest: string, securityReviewDigest: string, stagingDigests: map<string, string>,
    coreGateDigests: map<string, string>, issuedAt: int, expiresAt: int, signatureAlgorithm: string, signature: string)

  /** `digestValue` at each of its record types. */
  datatype Digests = Digests(
    manifest: ArtifactManifest -> string, benchmark: BenchmarkEvidence -> string, review: SecurityReview -> string,
    evidence: Evidence -> string, gate: CoreGate -> string)

  /** Hexadecimal SHA-256 always has the digest shape. */
  ghost predicate HexDigests(d: Digests) {
    && (forall x :: IsDigest(d.manifest(x))) && (forall x :: IsDigest(d.benchmark(x)))
    && (forall x :: IsDigest(d.review(x))) && (forall x :: IsDigest(d.evidence(x))) && (forall x :: IsDigest(d.gate(x)))
  }

  datatype Schemes = Schemes(
    manifest: Scheme<ArtifactManifest>, benchmark: Scheme<BenchmarkEvidence>, review: Scheme<SecurityReview>,
    evidence: Scheme<Evidence>, gate: Scheme<CoreGate>, certificate: Scheme<Certificate>)

  datatype Trust = Trust(
    manifestKey: string, benchmarkKey: string, reviewKey: string, stagingKey: string, gateKey: string,
    certificateKey: string, certificateTTL: int, maxEvidenceAge: int, actor: string -> bool)

  predicate VerifySignature<P>(scheme: Scheme<P>, unsigned: P, algorithm: string, signature: string, key: string) {
    algorithm == ALGORITHM && scheme.wellEncoded(signature) && scheme.verify(key, unsigned, signature)
  }

  predicate Fresh(at: int, now: int, maxAge: int) {
    at != ZERO_TIME && at <= now && now - at <= maxAge
  }

  // ----- Core gates

  /** The per-gate tests, apart from the duplicate test. */
  predicate GateOk(scheme: Scheme<CoreGate>, g: CoreGate, key: string, releaseID: string, sourceCommit: string, now: int) {
    && g.schema == GATE_SCHEMA && g.edition in EDITIONS && g.gate in GATES && g.releaseID == releaseID
    && g.sourceCommit == sourceCommit && IsDigest(g.policyDigest) && g.outcome == "approved" && g.issuedAt <= now
    && g.expiresAt > now && g.expiresAt > g.issuedAt
    && VerifySignature(scheme, g.(signature := ""), g.signatureAlgorithm, g.signature, key)
  }

  function Identity(edition: string, gate: string): string {
    edition + ":" + gate
  }

  function IdentityOf(): CoreGate -> string {
    (g: CoreGate) => Identity(g.edition, g.gate)
  }

  function PairOf(): CoreGate -> (string, string) {
    (g: CoreGate) => (g.edition, g.gate)
  }

  const ALL_PAIRS: seq<(string, string)> := [
    ("shared", "admission"), ("shared", "certification"), ("shared", "ga"),
    ("dedicated", "admission"), ("dedicated", "certification"), ("dedicated", "ga")]

  /** Every gate is good and the six gates cover editions and gates exactly once each. */
  ghost predicate ExactCover(gates: seq<CoreGate>, gateOk: CoreGate -> bool) {
    && (forall i :: 0 <= i < |gates| ==> gateOk(gates[i]))
    && multiset(Map(PairOf(), gates)) == multiset(ALL_PAIRS)
  }

  /** What the first loop of `verifyCoreGates` lets through. */
  ghost predicate SixDistinct(gates: seq<CoreGate>, gateOk: CoreGate -> bool) {
    && |gates| == 6 && (forall i :: 0 <= i < |gates| ==> gateOk(gates[i])) && UniqueKeys(gates, IdentityOf())
  }

  ghost predicate ChecksPair(gateOk: CoreGate -> bool) {
    forall g :: gateOk(g) ==> g.edition in EDITIONS && g.gate in GATES
  }

  lemma PairsAreDistinct()
    ensures Distinct(ALL_PAIRS)
    ensures forall i, j :: 0 <= i < j < |ALL_PAIRS| ==>
      Identity(ALL_PAIRS[i].0, ALL_PAIRS[i].1) != Identity(ALL_PAIRS[j].0, ALL_PAIRS[j].1)
  {
    assert |Identity("shared", "admission")| == 16;
    assert |Identity("shared", "certification")| == 20;
    assert |Identity("shared", "ga")| == 9;
    assert |Identity("dedicated", "admission")| == 19;
    assert |Identity("dedicated", "certification")| == 23;
    assert |Identity("dedicated", "ga")| == 12;
  }

  lemma ValidPairIsListed(edition: string, gate: string)
    requires edition in EDITIONS && gate in GATES
    ensures (edition, gate) in ALL_PAIRS
  {
    var p := ALL_PAIRS;
    assert p[0] == ("shared", "admission") && p[1] == ("shared", "certification") && p[2] == ("shared", "ga");
    assert p[3] == ("dedicated", "admission") && p[4] == ("dedicated", "certification") && p[5] == ("dedicated", "ga");
  }

  function PairIdentity(): ((string, string)) -> string {
    (p: (string, string)) => Identity(p.0, p.1)
  }

  lemma DistinctIdentitiesCover(gates: seq<CoreGate>, all: seq<(string, string)>)
    requires |gates| == |all| && Distinct(all) && UniqueKeys(gates, IdentityOf())
    requires forall i :: 0 <= i < |gates| ==> (gates[i].edition, gates[i].gate) in all
    ensures multiset(Map(PairOf(), gates)) == multiset(all)
  {
    var pairs := Map(PairOf(), gates);
    forall i, j | 0 <= i < j < |pairs|
      ensures pairs[i] != pairs[j]
    {
      assert IdentityOf()(gates[i]) != IdentityOf()(gates[j]);
    }
    forall p | p in pairs
      ensures p in all
    {
      var i :| 0 <= i < |pairs| && pairs[i] == p;
    }
    DistinctInclusion(all, pairs);
  }

  /** Six good gates with distinct identities are an exact cover, and conversely. */
  lemma SixDistinctIsExactCover(gates: seq<CoreGate>, gateOk: CoreGate -> bool)
    requires ChecksPair(gateOk)
    ensures SixDistinct(gates, gateOk) <==> ExactCover(gates, gateOk)
  {
    PairsAreDistinct();
    if SixDistinct(gates, gateOk) {
      forall i | 0 <= i < |gates|
        ensures (gates[i].edition, gates[i].gate) in ALL_PAIRS
      {
        assert gateOk(gates[i]);
        ValidPairIsListed(gates[i].edition, gates[i].gate);
      }
      DistinctIdentitiesCover(gates, ALL_PAIRS);
    }
    if ExactCover(gates, gateOk) {
      CoverHasDistinctIdentities(gates, ALL_PAIRS);
    }
  }

  lemma CoverHasDistinctIdentities(gates: seq<CoreGate>, all: seq<(string, string)>)
    requires multiset(Map(PairOf(), gates)) == multiset(all)
    requires forall i, j :: 0 <= i < j < |all| ==> Identity(all[i].0, all[i].1) != Identity(all[j].0, all[j].1)
    ensures |gates| == |all| && UniqueKeys(gates, IdentityOf())
  {
    var pairs := Map(PairOf(), gates);
    assert |pairs| == |multiset(pairs)| == |multiset(all)| == |all|;
    assert UniqueKeys(all, PairIdentity());
    UniqueKeysPermute(pairs, all, PairIdentity());
    forall i, j | 0 <= i < j < |gates|
      ensures IdentityOf()(gates[i]) != IdentityOf()(gates[j])
    {
      assert PairIdentity()(pairs[i]) != PairIdentity()(pairs[j]);
    }
  }

  lemma CoverContains(gates: seq<CoreGate>, edition: string, gate: string)
    requires multiset(Map(PairOf(), gates)) == multiset(ALL_PAIRS) && edition in EDITIONS && gate in GATES
    ensures exists i :: 0 <= i < |gates| && IdentityOf()(gates[i]) == Identity(edition, gate)
  {
    ValidPairIsListed(edition, gate);
    var pairs, all := Map(PairOf(), gates), ALL_PAIRS;
    InMultiset((edition, gate), all);
    InMultiset((edition, gate), pairs);
    var i :| 0 <= i < |pairs| && pairs[i] == (edition, gate);
  }

  /** The first loop of `verifyCoreGates`: each gate good, no identity twice. */
  method ScanGates(gates: seq<CoreGate>, gateOk: CoreGate -> bool) returns (ok: bool, seen: set<string>)
    ensures ok <==> (forall i :: 0 <= i < |gates| ==> gateOk(gates[i])) && UniqueKeys(gates, IdentityOf())
    ensures ok ==> forall i :: 0 <= i < |gates| ==> IdentityOf()(gates[i]) in seen
  {
    seen := {};
    for i := 0 to |gates|
      invariant forall j :: 0 <= j < i ==> gateOk(gates[j])
      invariant forall j, k :: 0 <= j < k < i ==> IdentityOf()(gates[j]) != IdentityOf()(gates[k])
      invariant forall j :: 0 <= j < i ==> IdentityOf()(gates[j]) in seen
      invariant forall x :: x in seen ==> exists j :: 0 <= j < i && IdentityOf()(gates[j]) == x
    {
      var identity := IdentityOf()(gates[i]);
      if identity in seen {
        return false, seen;
      }
      if !gateOk(gates[i]) {
        return false, seen;
      }
      seen := seen + {identity};
    }
    return true, seen;
  }

  /** `verifyCoreGates` accepts exactly the exact covers; its final coverage loop never decides. */
  method VerifyCoreGates(gates: seq<CoreGate>, gateOk: CoreGate -> bool) returns (ok: bool)
    requires ChecksPair(gateOk)
    ensures ok <==> ExactCover(gates, gateOk)
    ensures ok <==> SixDistinct(gates, gateOk)
  {
    SixDistinctIsExactCover(gates, gateOk);
    if |gates| != 6 {
      return false;
    }
    var seen;
    ok, seen := ScanGates(gates, gateOk);
    if !ok {
      return false;
    }
    for e := 0 to |EDITIONS|
      invariant ok
    {
      for g := 0 to |GATES|
        invariant ok
      {
        CoverContains(gates, EDITIONS[e], GATES[g]);
        ok := ok && Identity(EDITIONS[e], GATES[g]) in seen;
      }
    }
  }

  // ----- Staging evidence

  function ScenarioOf(): Observation -> string {
    (o: Observation) => o.scenario
  }

  /** `canonicalEvidence`. */
  ghost function CanonicalEvidence(e: Evidence): Evidence {
    ByKeyStrictWeak(ScenarioOf());
    e.(signature := "", observations := SortSlice(e.observations, ByKey(ScenarioOf())))
  }

  predicate ObservationOk(o: Observation, scenario: string) {
    o.scenario == scenario && o.passed && IsDigest(o.evidenceDigest)
  }

  predicate ValidObservations(os: seq<Observation>) {
    |os| == |SCENARIOS| && forall i :: 0 <= i < |SCENARIOS| ==> ObservationOk(os[i], SCENARIOS[i])
  }

  predicate ValidBinding(b: Binding) {
    && b.schemaVersion == BINDING_SCHEMA && IsRelease(b.candidateReleaseID)
    && (|b.candidateCommitSHA| == 40 || |b.candidateCommitSHA| == 64) && AllLowerHex(b.candidateCommitSHA)
    && IsDigest(b.artifactManifestDigest) && IsDigest(b.sbomDigest)
  }

  /** `edition.VerifyEvidence` accepts. */
  ghost predicate VerifyEvidence(scheme: Scheme<Evidence>, e: Evidence, key: string) {
    && e.schema == EDITION_SCHEMA && IsUuid(e.evidenceID) && ValidEditionProfile(e.edition, e.profile)
    && IsDigest(e.bindingDigest) && ValidBinding(e.releaseBinding) && ValidObservations(e.observations)
    && VerifySignature(scheme, CanonicalEvidence(e), e.signatureAlgorithm, e.signature, key)
  }

  /** `SignEvidence`. */
  ghost function SignEvidence(scheme: Scheme<Evidence>, e: Evidence, key: string): Evidence {
    var unsigned := e.(signatureAlgorithm := ALGORITHM, signature := "");
    unsigned.(signature := scheme.sign(key, CanonicalEvidence(unsigned)))
  }

  // ----- The other evidence

  /** `cleanRelativePath(p) == p` for a non-empty path: no rooted, empty, "." or ".." part between runs of slashes. */
  predicate CleanRelative(p: string) {
    p != "" && p[0] != '/' && p[|p| - 1] != '/'
    && var parts := Split(p, '/');
       forall i :: 0 <= i < |parts| ==> parts[i] != "." && parts[i] != ".."
  }

  predicate ValidArtifacts(artifacts: seq<Artifact>) {
    && artifacts != []
    && (forall i :: 0 <= i < |artifacts| ==>
        CleanRelative(artifacts[i].path) && IsDigest(artifacts[i].digest) && artifacts[i].sizeBytes > 0)
    && (forall i :: 0 < i < |artifacts| ==> Less(artifacts[i - 1].path, artifacts[i].path))
  }

  predicate ValidBenchmarkResults(results: seq<BenchmarkResult>) {
    && results != []
    && (forall i :: 0 <= i < |results| ==>
        && results[i].name != "" && results[i].iterations > 0 && results[i].nanosecondsPerOp > 0
        && results[i].allocationsPerOp >= 0 && results[i].bytesPerOp >= 0)
    && (forall i :: 0 < i < |results| ==> Less(results[i - 1].name, results[i].name))
  }

  predicate VerifyManifest(s: Schemes, t: Trust, m: ArtifactManifest, now: int) {
    && m.schema == MANIFEST_SCHEMA && IsRelease(m.releaseID) && IsCommit(m.sourceCommit) && IsDigest(m.sbomDigest)
    && Fresh(m.createdAt, now, t.maxEvidenceAge) && ValidArtifacts(m.artifacts)
    && VerifySignature(s.manifest, m.(signature := ""), m.signatureAlgorithm, m.signature, t.manifestKey)
  }

  predicate VerifyBenchmark(s: Schemes, t: Trust, b: BenchmarkEvidence, now: int) {
    && b.schema == BENCHMARK_SCHEMA && IsRelease(b.releaseID) && IsCommit(b.sourceCommit)
    && IsDigest(b.environmentDigest) && Fresh(b.measuredAt, now, t.maxEvidenceAge) && ValidBenchmarkResults(b.results)
    && VerifySignature(s.benchmark, b.(signature := ""), b.signatureAlgorithm, b.signature, t.benchmarkKey)
  }

  predicate VerifyReview(s: Schemes, t: Trust, r: SecurityReview, now: int) {
    && r.schema == REVIEW_SCHEMA && IsRelease(r.releaseID) && IsCommit(r.sourceCommit) && IsUuid(r.reviewID)
    && t.actor(r.reviewerID) && r.outcome == "approved" && IsDigest(r.findingsDigest)
    && r.scope == ["artifact-manifest", "engine", "staging-evidence"]
    && r.reviewedAt <= now && r.expiresAt > now && r.expiresAt > r.reviewedAt
    && VerifySignature(s.review, r.(signature := ""), r.signatureAlgorithm, r.signature, t.reviewKey)
  }

  /** `verifyStagingEvidence` accepts. */
  ghost predicate VerifyStaging(s: Schemes, t: Trust, staging: map<string, Evidence>, now: int, expected: Binding) {
    && ValidBinding(expected) && |staging| == 2
    && forall e :: e in EDITIONS ==>
      && e in staging && staging[e].edition == e && staging[e].releaseBinding == expected
      && Fresh(staging[e].issuedAt, now, t.maxEvidenceAge) && VerifyEvidence(s.evidence, staging[e], t.stagingKey)
  }

  function GateCheck(s: Schemes, t: Trust, r: Request, now: int): CoreGate -> bool {
    (g: CoreGate) => GateOk(s.gate, g, t.gateKey, r.releaseID, r.sourceCommit, now)
  }

  /** `verifyRequest` accepts. */
  ghost predicate VerifyRequest(s: Schemes, d: Digests, t: Trust, r: Request, now: int) {
    && r.schema == CERTIFICATE_SCHEMA && IsRelease(r.releaseID) && IsCommit(r.sourceCommit)
    && VerifyManifest(s, t, r.manifest, now) && r.manifest.releaseID == r.releaseID
    && r.manifest.sourceCommit == r.sourceCommit
    && VerifyBenchmark(s, t, r.benchmark, now) && r.benchmark.releaseID == r.releaseID
    && r.benchmark.sourceCommit == r.sourceCommit
    && VerifyReview(s, t, r.review, now) && r.review.releaseID == r.releaseID && r.review.sourceCommit == r.sourceCommit
    && VerifyStaging(s, t, r.staging, now,
                     Binding(BINDING_SCHEMA, r.releaseID, r.sourceCommit, d.manifest(r.manifest), r.manifest.sbomDigest))
    && ExactCover(r.coreGates, GateCheck(s, t, r, now))
  }

  // ----- Certificates

  /** The map that inserting these entries one by one leaves. */
  function FromEntries(entries: seq<(string, string)>): map<string, string> {
    if entries == [] then map[]
    else
      var last := entries[|entries| - 1];
      FromEntries(entries[..|entries| - 1])[last.0 := last.1]
  }

  function GateEntry(d: Digests): CoreGate -> (string, string) {
    (g: CoreGate) => (Identity(g.edition, g.gate), d.gate(g))
  }

  /** The gate digests keyed as `makeCertificate` keys them. */
  function GateDigests(d: Digests, gates: seq<CoreGate>): map<string, string> {
    FromEntries(Map(GateEntry(d), gates))
  }

  function StagingDigests(d: Digests, staging: map<string, Evidence>): map<string, string>
    requires "shared" in staging && "dedicated" in staging
  {
    map["shared" := d.evidence(staging["shared"]), "dedicated" := d.evidence(staging["dedicated"])]
  }

  /** `makeCertificate`. */
  function Unsigned(d: Digests, t: Trust, certificateID: string, r: Request, now: int): Certificate
    requires "shared" in r.staging && "dedicated" in r.staging
  {
    Certificate(
      CERTIFICATE_SCHEMA, certificateID, r.releaseID, r.sourceCommit, d.manifest(r.manifest), r.manifest.sbomDigest,
      d.benchmark(r.benchmark), d.review(r.review), StagingDigests(d, r.staging), GateDigests(d, r.coreGates), now,
      now + t.certificateTTL, ALGORITHM, "")
  }

  /** The certificate `Certify` returns. */
  function Certify(s: Schemes, d: Digests, t: Trust, certificateID: string, r: Request, now: int): Certificate
    requires "shared" in r.staging && "dedicated" in r.staging
  {
    var unsigned := Unsigned(d, t, certificateID, r, now);
    unsigned.(signature := s.certificate.sign(t.certificateKey, unsigned))
  }

  predicate Lookup(m: map<string, string>, k: string) {
    k in m && IsDigest(m[k])
  }

  /** `validCertificateDigests`. */
  predicate ValidCertificateDigests(staging: map<string, string>, core: map<string, string>) {
    && |staging| == 2 && |core| == 6
    && forall e :: e in EDITIONS ==> Lookup(staging, e) && forall g :: g in GATES ==> Lookup(core, Identity(e, g))
  }

  predicate CertificateShape(c: Certificate) {
    && c.schema == CERTIFICATE_SCHEMA && IsUuid(c.certificateID) && IsRelease(c.releaseID) && IsCommit(c.sourceCommit)
    && IsDigest(c.artifactManifestDigest) && IsDigest(c.sbomDigest) && IsDigest(c.benchmarkDigest)
    && IsDigest(c.securityReviewDigest) && ValidCertificateDigests(c.stagingDigests, c.coreGateDigests)
  }

  predicate CertificateSigned(s: Schemes, c: Certificate, key: string) {
    VerifySignature(s.certificate, c.(signature := ""), c.signatureAlgorithm, c.signature, key)
  }

  /** `VerifyCertificate` accepts. */
  predicate VerifyCertificate(s: Schemes, c: Certificate, key: string, now: int) {
    && CertificateShape(c)
    && c.issuedAt <= now && c.expiresAt > now && c.expiresAt > c.issuedAt
    && CertificateSigned(s, c, key)
  }

  lemma {:induction false} EntriesAreKeys(entries: seq<(string, string)>)
    ensures forall i :: 0 <= i < |entries| ==> entries[i].0 in FromEntries(entries)
    ensures forall k :: k in FromEntries(entries) ==> (k, FromEntries(entries)[k]) in entries
  {
    if entries != [] {
      var init, last := entries[..|entries| - 1], entries[|entries| - 1];
      EntriesAreKeys(init);
      assert entries == init + [last];
    }
  }

  function KeyOf(): ((string, string)) -> string {
    (e: (string, string)) => e.0
  }

  /** Distinct keys give one map entry each. */
  lemma {:induction false} EntriesCount(entries: seq<(string, string)>)
    requires UniqueKeys(entries, KeyOf())
    ensures |FromEntries(entries)| == |entries|
  {
    if entries != [] {
      var n := |entries| - 1;
      var init, k := entries[..n], entries[n].0;
      EntriesCount(init);
      EntriesAreKeys(init);
      forall e | e in init
        ensures e.0 != k
      {
        var i :| 0 <= i < |init| && init[i] == e;
        assert KeyOf()(entries[i]) != KeyOf()(entries[n]);
      }
      assert k !in FromEntries(init);
    }
  }

  lemma EachGateHasDigest(d: Digests, gates: seq<CoreGate>, i: nat)
    requires i < |gates| && forall x :: IsDigest(d.gate(x))
    ensures Lookup(GateDigests(d, gates), IdentityOf()(gates[i]))
  {
    var entries, k := Map(GateEntry(d), gates), IdentityOf()(gates[i]);
    EntriesAreKeys(entries);
    assert entries[i].0 == k;
    var j :| 0 <= j < |entries| && entries[j] == (k, FromEntries(entries)[k]);
    assert entries[j].1 == d.gate(gates[j]);
  }

  lemma CoverDigests(d: Digests, gates: seq<CoreGate>, gateOk: CoreGate -> bool, e: string, g: string)
    requires ExactCover(gates, gateOk) && e in EDITIONS && g in GATES && (forall x :: IsDigest(d.gate(x)))
    ensures Lookup(GateDigests(d, gates), Identity(e, g))
  {
    CoverContains(gates, e, g);
    var i :| 0 <= i < |gates| && IdentityOf()(gates[i]) == Identity(e, g);
    EachGateHasDigest(d, gates, i);
  }

  /** The gate loop of `makeCertificate`. */
  method CollectGateDigests(d: Digests, gates: seq<CoreGate>) returns (digests: map<string, string>)
    ensures digests == GateDigests(d, gates)
  {
    digests := map[];
    var entries := Map(GateEntry(d), gates);
    for i := 0 to |gates|
      invariant digests == FromEntries(entries[..i])
    {
      digests := digests[Identity(gates[i].edition, gates[i].gate) := d.gate(gates[i])];
      assert entries[..i + 1][..i] == entries[..i];
    }
    assert entries[..|entries|] == entries;
  }

  lemma CoverCount(d: Digests, gates: seq<CoreGate>, gateOk: CoreGate -> bool)
    requires ExactCover(gates, gateOk) && ChecksPair(gateOk)
    ensures |GateDigests(d, gates)| == 6
  {
    SixDistinctIsExactCover(gates, gateOk);
    var entries := Map(GateEntry(d), gates);
    forall i, j | 0 <= i < j < |entries|
      ensures KeyOf()(entries[i]) != KeyOf()(entries[j])
    {
      assert IdentityOf()(gates[i]) != IdentityOf()(gates[j]);
    }
    EntriesCount(entries);
  }

  lemma GateCheckChecksPair(s: Schemes, t: Trust, r: Request, now: int)
    ensures ChecksPair(GateCheck(s, t, r, now))
  {
  }

  lemma CertifiedDigestsAreValid(d: Digests, staging: map<string, Evidence>, gates: seq<CoreGate>, gateOk: CoreGate -> bool)
    requires HexDigests(d) && "shared" in staging && "dedicated" in staging
    requires ChecksPair(gateOk) && ExactCover(gates, gateOk)
    ensures ValidCertificateDigests(StagingDigests(d, staging), GateDigests(d, gates))
  {
    CoverCount(d, gates, gateOk);
    assert StagingDigests(d, staging).Keys == {"shared", "dedicated"};
    forall e, g | e in EDITIONS && g in GATES
      ensures Lookup(GateDigests(d, gates), Identity(e, g))
    {
      CoverDigests(d, gates, gateOk, e, g);
    }
  }

  /** What an accepted request contributes to its certificate. */
  lemma AcceptedRequestFields(s: Schemes, d: Digests, t: Trust, r: Request, now: int)
    requires VerifyRequest(s, d, t, r, now)
    ensures IsRelease(r.releaseID) && IsCommit(r.sourceCommit) && IsDigest(r.manifest.sbomDigest)
    ensures "shared" in r.staging && "dedicated" in r.staging
    ensures ExactCover(r.coreGates, GateCheck(s, t, r, now))
  {
    assert "shared" in EDITIONS && "dedicated" in EDITIONS;
  }

  /** Signing makes the signature test pass. */
  lemma SignedCertificate(s: Schemes, t: Trust, unsigned: Certificate)
    requires Correct(s.certificate) && unsigned.signature == "" && unsigned.signatureAlgorithm == ALGORITHM
    ensures CertificateSigned(s, unsigned.(signature := s.certificate.sign(t.certificateKey, unsigned)),
                              s.certificate.publicKey(t.certificateKey))
  {
    var c := unsigned.(signature := s.certificate.sign(t.certificateKey, unsigned));
    assert c.(signature := "") == unsigned;
  }

  lemma CertifiedShape(s: Schemes, d: Digests, t: Trust, certificateID: string, r: Request, checkedAt: int, issuedAt: int)
    requires HexDigests(d) && IsUuid(certificateID) && VerifyRequest(s, d, t, r, checkedAt)
    ensures "shared" in r.staging && "dedicated" in r.staging
    ensures CertificateShape(Unsigned(d, t, certificateID, r, issuedAt))
  {
    AcceptedRequestFields(s, d, t, r, checkedAt);
    GateCheckChecksPair(s, t, r, checkedAt);
    CertifiedDigestsAreValid(d, r.staging, r.coreGates, GateCheck(s, t, r, checkedAt));
  }

  lemma ShapeIgnoresSignature(c: Certificate, signature: string)
    ensures CertificateShape(c.(signature := signature)) <==> CertificateShape(c)
  {
  }

  lemma ShapedCertificateLifetime(s: Schemes, t: Trust, unsigned: Certificate, instant: int)
    requires Correct(s.certificate) && CertificateShape(unsigned)
    requires unsigned.signature == "" && unsigned.signatureAlgorithm == ALGORITHM && unsigned.expiresAt > unsigned.issuedAt
    ensures VerifyCertificate(s, unsigned.(signature := s.certificate.sign(t.certificateKey, unsigned)),
                              s.certificate.publicKey(t.certificateKey), instant)
       <==> unsigned.issuedAt <= instant < unsigned.expiresAt
  {
    var signature := s.certificate.sign(t.certificateKey, unsigned);
    ShapeIgnoresSignature(unsigned, signature);
    SignedCertificate(s, t, unsigned);
  }

  /**
   A certificate issued for an accepted request verifies at exactly the instants from its issue up to its
   expiry, even though the request was checked at one clock reading and the certificate dated by another.
   */
  lemma CertificatesVerifyForTheirLifetime(s: Schemes, d: Digests, t: Trust, certificateID: string, r: Request,
                                           checkedAt: int, issuedAt: int, instant: int)
    requires HexDigests(d) && Correct(s.certificate) && t.certificateTTL > 0 && IsUuid(certificateID)
    requires VerifyRequest(s, d, t, r, checkedAt)
    ensures "shared" in r.staging && "dedicated" in r.staging
    ensures VerifyCertificate(s, Certify(s, d, t, certificateID, r, issuedAt), s.certificate.publicKey(t.certificateKey), instant)
       <==> issuedAt <= instant < issuedAt + t.certificateTTL
  {
    CertifiedShape(s, d, t, certificateID, r, checkedAt, issuedAt);
    ShapedCertificateLifetime(s, t, Unsigned(d, t, certificateID, r, issuedAt), instant);
  }

  /** Verification binds: whatever carries a certificate's signature and verifies is that certificate. */
  lemma AlteredCertificatesAreRefused(s: Schemes, d: Digests, t: Trust, certificateID: string, r: Request, issuedAt: int,
                                      c: Certificate, now: int)
    requires BindsPayload(s.certificate) && "shared" in r.staging && "dedicated" in r.staging
    requires c.signature == Certify(s, d, t, certificateID, r, issuedAt).signature
    ensures VerifyCertificate(s, c, s.certificate.publicKey(t.certificateKey), now) ==>
      c == Certify(s, d, t, certificateID, r, issuedAt)
  {
    var unsigned := Unsigned(d, t, certificateID, r, issuedAt);
    assert c.(signature := "").(signature := c.signature) == c;
    if VerifyCertificate(s, c, s.certificate.publicKey(t.certificateKey), now) {
      assert c.(signature := "") == unsigned;
    }
  }

  // ----- What a certificate says

  lemma EntryValues(entries: seq<(string, string)>, i: nat)
    requires UniqueKeys(entries, KeyOf()) && i < |entries|
    ensures entries[i].0 in FromEntries(entries) && FromEntries(entries)[entries[i].0] == entries[i].1
  {
    EntriesAreKeys(entries);
    var k := entries[i].0;
    var j :| 0 <= j < |entries| && entries[j] == (k, FromEntries(entries)[k]);
    assert KeyOf()(entries[i]) == KeyOf()(entries[j]) ==> i == j;
  }

  lemma GateDigestValues(d: Digests, gates: seq<CoreGate>, gateOk: CoreGate -> bool, i: nat)
    requires ExactCover(gates, gateOk) && ChecksPair(gateOk) && i < |gates|
    ensures var k := gates[i].edition + ":" + gates[i].gate;
            k in GateDigests(d, gates) && GateDigests(d, gates)[k] == d.gate(gates[i])
  {
    SixDistinctIsExactCover(gates, gateOk);
    var entries := Map(GateEntry(d), gates);
    forall a, b | 0 <= a < b < |entries|
      ensures KeyOf()(entries[a]) != KeyOf()(entries[b])
    {
      assert IdentityOf()(gates[a]) != IdentityOf()(gates[b]);
    }
    EntryValues(entries, i);
  }

  /** Every field of the certificate is the digest or the value of the evidence it names. */
  ghost predicate SpeaksOf(d: Digests, c: Certificate, r: Request) {
    && c.releaseID == r.releaseID && c.sourceCommit == r.sourceCommit
    && c.artifactManifestDigest == d.manifest(r.manifest) && c.sbomDigest == r.manifest.sbomDigest
    && c.benchmarkDigest == d.benchmark(r.benchmark) && c.securityReviewDigest == d.review(r.review)
    && (forall e :: e in EDITIONS ==>
        e in r.staging && r.staging[e].edition == e && e in c.stagingDigests && c.stagingDigests[e] == d.evidence(r.staging[e]))
    && (forall i :: 0 <= i < |r.coreGates| ==>
        var k := r.coreGates[i].edition + ":" + r.coreGates[i].gate;
        k in c.coreGateDigests && c.coreGateDigests[k] == d.gate(r.coreGates[i]))
  }

  lemma StagingFields(s: Schemes, d: Digests, t: Trust, r: Request, now: int)
    requires VerifyRequest(s, d, t, r, now)
    ensures "shared" in r.staging && r.staging["shared"].edition == "shared"
    ensures "dedicated" in r.staging && r.staging["dedicated"].edition == "dedicated"
  {
    assert "shared" in EDITIONS && "dedicated" in EDITIONS;
  }

  lemma CertificateSpeaksOfRequest(s: Schemes, d: Digests, t: Trust, certificateID: string, r: Request, checkedAt: int,
                                   issuedAt: int)
    requires VerifyRequest(s, d, t, r, checkedAt)
    ensures "shared" in r.staging && "dedicated" in r.staging
    ensures SpeaksOf(d, Certify(s, d, t, certificateID, r, issuedAt), r)
  {
    StagingFields(s, d, t, r, checkedAt);
    AcceptedRequestFields(s, d, t, r, checkedAt);
    GateCheckChecksPair(s, t, r, checkedAt);
    CertifiedFields(s, d, t, certificateID, r, issuedAt, GateCheck(s, t, r, checkedAt));
  }

  lemma CertifiedFields(s: Schemes, d: Digests, t: Trust, certificateID: string, r: Request, issuedAt: int,
                        gateOk: CoreGate -> bool)
    requires "shared" in r.staging && r.staging["shared"].edition == "shared"
    requires "dedicated" in r.staging && r.staging["dedicated"].edition == "dedicated"
    requires ExactCover(r.coreGates, gateOk) && ChecksPair(gateOk)
    ensures SpeaksOf(d, Certify(s, d, t, certificateID, r, issuedAt), r)
  {
    var c := Certify(s, d, t, certificateID, r, issuedAt);
    assert c.coreGateDigests == GateDigests(d, r.coreGates) && c.stagingDigests == StagingDigests(d, r.staging);
    forall i | 0 <= i < |r.coreGates|
      ensures var k := r.coreGates[i].edition + ":" + r.coreGates[i].gate;
              k in c.coreGateDigests && c.coreGateDigests[k] == d.gate(r.coreGates[i])
    {
      GateDigestValues(d, r.coreGates, gateOk, i);
    }
  }

  // ----- What stands behind a certificate

  /** No later than now and not too old. */
  predicate Current(at: int, now: int, maxAge: int) {
    at != 0 && 0 <= now - at <= maxAge
  }

  /** An approved gate for this release, in force and signed by the gate key. */
  ghost predicate GateStands(s: Schemes, t: Trust, r: Request, now: int, g: CoreGate) {
    && g.outcome == "approved" && g.releaseID == r.releaseID && g.sourceCommit == r.sourceCommit
    && g.issuedAt <= now < g.expiresAt && s.gate.verify(t.gateKey, g.(signature := ""), g.signature)
  }

  /** Evidence of this edition that every scenario passed, for this release and this manifest, signed by the staging key. */
  ghost predicate StagingStands(s: Schemes, d: Digests, t: Trust, r: Request, now: int, edition: string) {
    && edition in r.staging
    && var e := r.staging[edition];
       && e.edition == edition && Current(e.issuedAt, now, t.maxEvidenceAge)
       && e.releaseBinding.candidateReleaseID == r.releaseID && e.releaseBinding.candidateCommitSHA == r.sourceCommit
       && e.releaseBinding.artifactManifestDigest == d.manifest(r.manifest)
       && e.releaseBinding.sbomDigest == r.manifest.sbomDigest
       && |e.observations| == 15 && (forall i :: 0 <= i < 15 ==> e.observations[i].passed && e.observations[i].scenario == SCENARIOS[i])
       && s.evidence.verify(t.stagingKey, CanonicalEvidence(e), e.signature)
  }

  ghost predicate RecordsStand(s: Schemes, t: Trust, r: Request, now: int) {
    var m, b, v := r.manifest, r.benchmark, r.review;
    && m.releaseID == b.releaseID == v.releaseID == r.releaseID
    && m.sourceCommit == b.sourceCommit == v.sourceCommit == r.sourceCommit
    && Current(m.createdAt, now, t.maxEvidenceAge) && Current(b.measuredAt, now, t.maxEvidenceAge)
    && v.outcome == "approved" && v.reviewedAt <= now < v.expiresAt
    && s.manifest.verify(t.manifestKey, m.(signature := ""), m.signature)
    && s.benchmark.verify(t.benchmarkKey, b.(signature := ""), b.signature)
    && s.review.verify(t.reviewKey, v.(signature := ""), v.signature)
  }

  lemma StagingEvidenceStands(s: Schemes, d: Digests, t: Trust, r: Request, now: int, edition: string)
    requires VerifyRequest(s, d, t, r, now) && edition in EDITIONS
    ensures StagingStands(s, d, t, r, now, edition)
  {
    var e := r.staging[edition];
    assert VerifyEvidence(s.evidence, e, t.stagingKey);
    forall i | 0 <= i < 15
      ensures e.observations[i].passed && e.observations[i].scenario == SCENARIOS[i]
    {
      assert ObservationOk(e.observations[i], SCENARIOS[i]);
    }
  }

  lemma SomeGateStands(s: Schemes, d: Digests, t: Trust, r: Request, now: int, edition: string, gate: string)
    requires VerifyRequest(s, d, t, r, now) && edition in EDITIONS && gate in GATES
    ensures exists g :: g in r.coreGates && g.edition == edition && g.gate == gate && GateStands(s, t, r, now, g)
  {
    var pairs := Map(PairOf(), r.coreGates);
    ValidPairIsListed(edition, gate);
    var all := ALL_PAIRS;
    InMultiset((edition, gate), all);
    InMultiset((edition, gate), pairs);
    var i :| 0 <= i < |pairs| && pairs[i] == (edition, gate);
    assert GateCheck(s, t, r, now)(r.coreGates[i]);
    assert r.coreGates[i] in r.coreGates && GateStands(s, t, r, now, r.coreGates[i]);
  }

  /**
   A request is accepted only with everything behind it: a current signed manifest and benchmark and an
   approved review in force for this release; for both editions current signed evidence, bound to this
   manifest, that every scenario passed; and for each edition an approved gate of each of the three kinds.
   */
  lemma AcceptedEvidenceStands(s: Schemes, d: Digests, t: Trust, r: Request, now: int)
    requires VerifyRequest(s, d, t, r, now)
    ensures RecordsStand(s, t, r, now)
    ensures StagingStands(s, d, t, r, now, "shared") && StagingStands(s, d, t, r, now, "dedicated")
    ensures forall edition, gate :: edition in ["shared", "dedicated"] && gate in ["admission", "certification", "ga"] ==>
      exists g :: g in r.coreGates && g.edition == edition && g.gate == gate && GateStands(s, t, r, now, g)
  {
    StagingEvidenceStands(s, d, t, r, now, "shared");
    StagingEvidenceStands(s, d, t, r, now, "dedicated");
    forall edition, gate | edition in ["shared", "dedicated"] && gate in ["admission", "certification", "ga"]
      ensures exists g :: g in r.coreGates && g.edition == edition && g.gate == gate && GateStands(s, t, r, now, g)
    {
      SomeGateStands(s, d, t, r, now, edition, gate);
    }
  }
}
