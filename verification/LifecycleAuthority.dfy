/**
 `Authorize` over the replay ledger (lifecycle/authority.go, broker/ledger.go).

 A call carries what the environment decides: the authority's clock, the ledger's clock, the
 ledger's I/O outcome and whether the audit sink accepts the one event the call records.
 */
module LifecycleAuthority {
  import opened Common
  import opened Orders
  import opened Paths
  import opened Patterns
  import opened Lifecycle
  import RL = ReplayLedger
  import LH = LedgerHistory

  datatype Attestation = Attestation(
    schema: string, attestationID: string, requestID: string, cageID: string, profile: string, hostIdentity: string,
    policyDigest: string, engineReleaseDigest: string, enforcementDigest: string, issuedAt: Timestamp,
    expiresAt: Timestamp, monotonicSequence: nat, outcome: string, signatureAlgorithm: string, signature: string)

  datatype AuditEvent = AuditEvent(
    actor: string, action: string, outcome: string, resource: string, requestID: string, policyDigest: string,
    profile: string, reasonCode: string)

  datatype Engine = Engine(
    key: string, releaseDigest: string, trustedCallers: map<string, string>, requests: Scheme<Request>,
    attestations: Scheme<Attestation>, urls: UrlRules, ledger: RL.Config)

  datatype Call = Call(
    request: Request, now: int, ledgerNow: Option<int>, ioFault: bool, storeFault: RL.StoreFault, auditFault: bool)

  datatype Outcome = Attested(attestation: Attestation) | Denied(code: string) | Unavailable

  datatype World = World(file: Option<seq<RL.Record>>, sequence: nat, audit: seq<AuditEvent>)

  function Denial(req: Request, code: string): AuditEvent {
    AuditEvent(OrUnidentified(req.callerSpiffeID), req.action, "denied", OrUnidentified(req.cageID), req.requestID,
               req.policyDigest, req.profile, code)
  }

  function Authorization(req: Request): AuditEvent {
    AuditEvent(req.callerSpiffeID, req.action, "authorized", req.cageID, req.requestID, req.policyDigest, req.profile,
               "authorized")
  }

  function MinTime(left: Timestamp, right: Timestamp): Timestamp {
    if left.instant < right.instant then left else right
  }

  function NewAttestation(engine: Engine, req: Request, now: int, sequence: nat): Attestation {
    var unsigned := Attestation(
      SCHEMA, req.requestID, req.requestID, req.cageID, req.profile, req.hostIdentity, req.policyDigest,
      engine.releaseDigest, req.executableManifestDigest, Timestamp(now, 0),
      MinTime(req.expiresAt, Timestamp(now + MAX_ATTESTATION_VALIDITY, 0)), sequence, "authorized",
      SIGNATURE_ALGORITHM, "");
    unsigned.(signature := engine.attestations.sign(engine.key, unsigned))
  }

  function LedgerCall(call: Call): RL.Call {
    RL.Call(call.request.requestID, call.request.expiresAt.instant, call.ledgerNow)
  }

  /** `deny`: no denial is reported that was not audited. */
  ghost predicate DenyStep(w: World, call: Call, code: string, w': World, outcome: Outcome) {
    if call.auditFault then w' == w && outcome == Unavailable
    else w' == w.(audit := w.audit + [Denial(call.request, code)]) && outcome == Denied(code)
  }

  /** The checks before the ledger; "" when they all pass. */
  ghost function AdmissionCode(engine: Engine, req: Request, now: int): string {
    var shape := ShapeCode(engine.urls, req, now);
    if shape != "" then shape
    else if req.callerSpiffeID !in engine.trustedCallers then "unknown_caller_identity"
    else if !engine.requests.wellEncoded(req.signature) then "invalid_signature_encoding"
    else if !engine.requests.verify(engine.trustedCallers[req.callerSpiffeID], Canonical(req), req.signature) then
      "invalid_request_signature"
    else ""
  }

  /** What follows the ledger's answer. */
  ghost predicate AnswerStep(engine: Engine, w: World, call: Call, result: RL.Result, w': World, outcome: Outcome) {
    match result
    case Unavailable(_) => DenyStep(w, call, "replay_ledger_unavailable", w', outcome)
    case Replayed => DenyStep(w, call, "replayed_request", w', outcome)
    case Claimed =>
      if call.auditFault then w' == w.(sequence := w.sequence + 1) && outcome == Unavailable
      else
        && w' == w.(sequence := w.sequence + 1, audit := w.audit + [Authorization(call.request)])
        && outcome == Attested(NewAttestation(engine, call.request, call.now, w.sequence + 1))
  }

  /** One call whose checks before the ledger gave `code`. */
  ghost predicate CodedStep(engine: Engine, code: string, w: World, call: Call, w': World, outcome: Outcome) {
    if code != "" then DenyStep(w, call, code, w', outcome)
    else exists result ::
      && RL.ClaimStep(engine.ledger, w.file, LedgerCall(call), call.ioFault, call.storeFault, w'.file, result)
      && AnswerStep(engine, w.(file := w'.file), call, result, w', outcome)
  }

  /** `Authorize` as a relation between the worlds before and after one call. */
  ghost predicate AuthorizeStep(engine: Engine, w: World, call: Call, w': World, outcome: Outcome) {
    CodedStep(engine, AdmissionCode(engine, call.request, call.now), w, call, w', outcome)
  }

  /** The checks before the ledger, in the order in which they name a denial. */
  method Admit(engine: Engine, req: Request, now: int) returns (code: string)
    ensures code == AdmissionCode(engine, req, now)
  {
    code := ValidateRequestShape(engine.urls, req, now);
    if code != "" {
      return;
    }
    if req.callerSpiffeID !in engine.trustedCallers {
      return "unknown_caller_identity";
    }
    if !engine.requests.wellEncoded(req.signature) {
      return "invalid_signature_encoding";
    }
    ShapeGivesUniqueDestinations(req.mountPolicy);
    var payload := CanonicalRequest(req);
    if !engine.requests.verify(engine.trustedCallers[req.callerSpiffeID], payload, req.signature) {
      return "invalid_request_signature";
    }
    return "";
  }

  class Authority {
    const engine: Engine
    const ledger: RL.FileReplayLedger
    var sequence: nat
    var audit: seq<AuditEvent>

    constructor (engine: Engine, ledger: RL.FileReplayLedger)
      ensures this.engine == engine && this.ledger == ledger && sequence == 0 && audit == []
    {
      this.engine := engine;
      this.ledger := ledger;
      sequence := 0;
      audit := [];
    }

    ghost function Now(): World
      reads this, ledger
    {
      World(ledger.file, sequence, audit)
    }

    method Deny(call: Call, code: string) returns (outcome: Outcome)
      modifies this`audit
      ensures DenyStep(old(Now()), call, code, Now(), outcome)
    {
      if call.auditFault {
        return Unavailable;
      }
      audit := audit + [Denial(call.request, code)];
      return Denied(code);
    }

    /** The part of `Authorize` after the claim: number, sign, audit, and only then answer. */
    method Answer(call: Call, result: RL.Result) returns (outcome: Outcome)
      modifies this`sequence, this`audit
      ensures AnswerStep(engine, old(Now()), call, result, Now(), outcome)
    {
      if result.Unavailable? {
        outcome := Deny(call, "replay_ledger_unavailable");
        return;
      }
      if result.Replayed? {
        outcome := Deny(call, "replayed_request");
        return;
      }
      sequence := sequence + 1;
      var attestation := NewAttestation(engine, call.request, call.now, sequence);
      if call.auditFault {
        return Unavailable;
      }
      audit := audit + [Authorization(call.request)];
      return Attested(attestation);
    }

    /** `Authorize`. */
    method Authorize(call: Call) returns (outcome: Outcome)
      requires ledger.cfg == engine.ledger
      modifies this, ledger
      ensures AuthorizeStep(engine, old(Now()), call, Now(), outcome)
    {
      var code := Admit(engine, call.request, call.now);
      if code != "" {
        outcome := Deny(call, code);
        return;
      }
      var result := ledger.Claim(LedgerCall(call), call.ioFault, call.storeFault);
      ghost var claimed := Now();
      outcome := Answer(call, result);
      assert claimed == old(Now()).(file := Now().file);
    }
  }

  // ----- Runs

  const START: World := World(None, 0, [])

  ghost predicate Run(engine: Engine, calls: seq<Call>, worlds: seq<World>, outcomes: seq<Outcome>) {
    && |worlds| == |calls| + 1 && |outcomes| == |calls| && worlds[0] == START
    && forall n :: 0 <= n < |calls| ==> AuthorizeStep(engine, worlds[n], calls[n], worlds[n + 1], outcomes[n])
  }

  /** Authority and ledger share one clock that is constant within a call and never goes back. */
  ghost predicate OneClock(calls: seq<Call>) {
    && (forall i :: 0 <= i < |calls| ==> calls[i].ledgerNow == Some(calls[i].now))
    && (forall i, j :: 0 <= i < j < |calls| ==> calls[i].now <= calls[j].now)
  }

  /** Call `i` won its claim: only then does the sequence number move. */
  ghost predicate Won(worlds: seq<World>, i: nat)
    requires i + 1 < |worlds|
  {
    worlds[i + 1].sequence > worlds[i].sequence
  }

  function RecordOf(call: Call): RL.Record {
    RL.Record(call.request.requestID, call.request.expiresAt.instant)
  }

  /** What one call does to the ledger file and the counter. */
  lemma StepFacts(engine: Engine, code: string, w: World, call: Call, w': World, outcome: Outcome)
    requires CodedStep(engine, code, w, call, w', outcome)
    requires RL.WellFormed(LH.Contents(w.file), engine.ledger.maxEntries)
    requires call.ledgerNow == Some(call.now)
    ensures RL.WellFormed(LH.Contents(w'.file), engine.ledger.maxEntries)
    ensures forall r :: r in LH.Contents(w.file) && r.expiresAt > call.now ==> r in LH.Contents(w'.file)
    ensures forall r :: r in LH.Contents(w'.file) ==> r in LH.Contents(w.file) || r == RecordOf(call)
    ensures w'.sequence == w.sequence || w'.sequence == w.sequence + 1
    ensures w'.sequence > w.sequence ==>
      && code == ""
      && RecordOf(call) in LH.Contents(w'.file)
      && !RL.HasId(RL.Live(LH.Contents(w.file), call.now), call.request.requestID)
      && outcome == (if call.auditFault then Unavailable
                     else Attested(NewAttestation(engine, call.request, call.now, w'.sequence)))
    ensures outcome.Attested? ==> w'.sequence > w.sequence
  {
    if code == "" {
      var result :|
        && RL.ClaimStep(engine.ledger, w.file, LedgerCall(call), call.ioFault, call.storeFault, w'.file, result)
        && AnswerStep(engine, w.(file := w'.file), call, result, w', outcome);
      LedgerFacts(engine.ledger, w.file, LedgerCall(call), call.ioFault, call.storeFault, w'.file, result);
      AnswerFacts(engine, w.(file := w'.file), call, result, w', outcome);
    }
  }

  lemma AnswerFacts(engine: Engine, w: World, call: Call, result: RL.Result, w': World, outcome: Outcome)
    requires AnswerStep(engine, w, call, result, w', outcome)
    ensures w'.sequence == if result.Claimed? then w.sequence + 1 else w.sequence
    ensures result.Claimed? ==>
      outcome == (if call.auditFault then Unavailable
                  else Attested(NewAttestation(engine, call.request, call.now, w'.sequence)))
    ensures outcome.Attested? ==> result.Claimed?
  {
  }

  lemma LedgerFacts(cfg: RL.Config, file: Option<seq<RL.Record>>, call: RL.Call, ioFault: bool, fault: RL.StoreFault,
                    file': Option<seq<RL.Record>>, result: RL.Result)
    requires RL.ClaimStep(cfg, file, call, ioFault, fault, file', result)
    requires RL.WellFormed(LH.Contents(file), cfg.maxEntries) && call.now.Some?
    ensures RL.WellFormed(LH.Contents(file'), cfg.maxEntries)
    ensures forall r :: r in LH.Contents(file) && r.expiresAt > call.now.value ==> r in LH.Contents(file')
    ensures forall r :: r in LH.Contents(file') ==> r in LH.Contents(file) || r == LH.RecordOf(call)
    ensures result.Claimed? ==>
      && RL.Record(call.requestID, call.expiresAt) in LH.Contents(file')
      && !RL.HasId(RL.Live(LH.Contents(file), call.now.value), call.requestID)
  {
    if file' != file || result.Claimed? {
      var records := LH.Contents(file);
      RL.ScanIsLive(records, call.now.value, call.requestID);
      StoredMembers(records, call, file'.value, cfg.maxEntries);
    }
  }

  /** Storing keeps exactly the live records and adds the new one. */
  lemma StoredMembers(records: seq<RL.Record>, call: RL.Call, stored: seq<RL.Record>, maxEntries: nat)
    requires RL.WellFormed(records, maxEntries) && RL.InputOk(call)
    requires var live := RL.Live(records, call.now.value);
             !RL.HasId(live, call.requestID) && |live| < maxEntries
             && IsSorting(stored, live + [LH.RecordOf(call)], RL.ById())
    ensures RL.WellFormed(stored, maxEntries)
    ensures forall r :: r in stored <==> (r in records && r.expiresAt > call.now.value) || r == LH.RecordOf(call)
  {
    var live := RL.Live(records, call.now.value);
    RL.LiveMembers(records, call.now.value);
    RL.StoredIsWellFormed(records, call.now.value, call.requestID, call.expiresAt, stored, maxEntries);
    forall r
      ensures r in stored <==> r in live || r == LH.RecordOf(call)
    {
      InMultiset(r, live + [LH.RecordOf(call)]);
      InMultiset(r, stored);
    }
  }

  ghost predicate NoLaterThan(calls: seq<Call>, n: nat, t: int)
    requires n <= |calls|
  {
    forall i :: 0 <= i < n ==> calls[i].now <= t
  }

  /** The records the calls could store. */
  function Pool(calls: seq<Call>): set<RL.Record> {
    set i | 0 <= i < |calls| :: RecordOf(calls[i])
  }

  /** A well-formed file of the calls' records that still holds each won claim whose expiry the clock has not reached. */
  ghost predicate HoldsWins(engine: Engine, calls: seq<Call>, worlds: seq<World>, n: nat)
    requires n <= |calls| && |worlds| == |calls| + 1
  {
    && RL.WellFormed(LH.Contents(worlds[n].file), engine.ledger.maxEntries)
    && (forall r :: r in LH.Contents(worlds[n].file) ==> r in Pool(calls))
    && forall i, t :: 0 <= i < n && Won(worlds, i) && NoLaterThan(calls, n, t) && t < RecordOf(calls[i]).expiresAt ==>
      RecordOf(calls[i]) in LH.Contents(worlds[n].file)
  }

  /** One win survives one call whose store keeps the live records and adds its own. */
  lemma WinSurvives(engine: Engine, calls: seq<Call>, worlds: seq<World>, m: nat, i: nat, t: int)
    requires m < |calls| && |worlds| == |calls| + 1 && HoldsWins(engine, calls, worlds, m)
    requires forall r :: r in LH.Contents(worlds[m].file) && r.expiresAt > calls[m].now ==> r in LH.Contents(worlds[m + 1].file)
    requires Won(worlds, m) ==> RecordOf(calls[m]) in LH.Contents(worlds[m + 1].file)
    requires i <= m && Won(worlds, i) && NoLaterThan(calls, m + 1, t) && t < RecordOf(calls[i]).expiresAt
    ensures RecordOf(calls[i]) in LH.Contents(worlds[m + 1].file)
  {
    assert calls[m].now <= t && NoLaterThan(calls, m, t);
  }

  lemma StepHoldsWins(engine: Engine, calls: seq<Call>, worlds: seq<World>, outcomes: seq<Outcome>, m: nat)
    requires m < |calls| && |worlds| == |calls| + 1 && |outcomes| == |calls|
    requires HoldsWins(engine, calls, worlds, m) && calls[m].ledgerNow == Some(calls[m].now)
    requires AuthorizeStep(engine, worlds[m], calls[m], worlds[m + 1], outcomes[m])
    ensures HoldsWins(engine, calls, worlds, m + 1)
    ensures worlds[m].sequence <= worlds[m + 1].sequence
  {
    StepFacts(engine, AdmissionCode(engine, calls[m].request, calls[m].now), worlds[m], calls[m], worlds[m + 1], outcomes[m]);
    assert RecordOf(calls[m]) in Pool(calls);
    var n := m + 1;
    forall i, t | 0 <= i < n && Won(worlds, i) && NoLaterThan(calls, n, t) && t < RecordOf(calls[i]).expiresAt
      ensures RecordOf(calls[i]) in LH.Contents(worlds[n].file)
    {
      WinSurvives(engine, calls, worlds, m, i, t);
    }
  }

  /** A won claim stays in the file for as long as the clock has not reached its expiry. */
  lemma {:induction false} WonClaimsStay(engine: Engine, calls: seq<Call>, worlds: seq<World>, outcomes: seq<Outcome>,
                                         n: nat)
    requires Run(engine, calls, worlds, outcomes) && OneClock(calls) && n <= |calls|
    ensures HoldsWins(engine, calls, worlds, n)
    ensures forall i :: 0 <= i <= n ==> worlds[i].sequence <= worlds[n].sequence
  {
    if n > 0 {
      var m := n - 1;
      WonClaimsStay(engine, calls, worlds, outcomes, m);
      assert AuthorizeStep(engine, worlds[m], calls[m], worlds[m + 1], outcomes[m]);
      StepHoldsWins(engine, calls, worlds, outcomes, m);
    }
  }

  /** Two wins with one request ID: the first had expired when the second was read. */
  lemma WinsAreSeparated(engine: Engine, calls: seq<Call>, worlds: seq<World>, outcomes: seq<Outcome>, i: nat, j: nat)
    requires Run(engine, calls, worlds, outcomes) && OneClock(calls) && i < j < |calls|
    requires Won(worlds, i) && Won(worlds, j) && calls[i].request.requestID == calls[j].request.requestID
    ensures calls[i].request.expiresAt.instant <= calls[j].now
  {
    WonClaimsStay(engine, calls, worlds, outcomes, j);
    assert AuthorizeStep(engine, worlds[j], calls[j], worlds[j + 1], outcomes[j]);
    StepFacts(engine, AdmissionCode(engine, calls[j].request, calls[j].now), worlds[j], calls[j], worlds[j + 1], outcomes[j]);
    var r, records := RecordOf(calls[i]), LH.Contents(worlds[j].file);
    var live := RL.Live(records, calls[j].now);
    RL.LiveMembers(records, calls[j].now);
    assert r in live ==> RL.HasId(live, r.requestID);
    assert NoLaterThan(calls, j, calls[j].now);
  }

  lemma AttestedMeansWon(engine: Engine, calls: seq<Call>, worlds: seq<World>, outcomes: seq<Outcome>, i: nat)
    requires Run(engine, calls, worlds, outcomes) && OneClock(calls) && i < |calls| && outcomes[i].Attested?
    ensures Won(worlds, i) && AdmissionCode(engine, calls[i].request, calls[i].now) == ""
    ensures outcomes[i].attestation
         == NewAttestation(engine, calls[i].request, calls[i].now, worlds[i + 1].sequence)
  {
    WonClaimsStay(engine, calls, worlds, outcomes, i);
    assert AuthorizeStep(engine, worlds[i], calls[i], worlds[i + 1], outcomes[i]);
    StepFacts(engine, AdmissionCode(engine, calls[i].request, calls[i].now), worlds[i], calls[i], worlds[i + 1], outcomes[i]);
  }

  /** What the checks before the ledger let through: a well-shaped request, signed by its trusted caller. */
  lemma AdmittedIff(engine: Engine, req: Request, now: int)
    ensures AdmissionCode(engine, req, now) == "" <==>
      && ShapeOk(engine.urls, req, now) && req.callerSpiffeID in engine.trustedCallers
      && SignatureOk(engine.requests, req, engine.trustedCallers[req.callerSpiffeID])
  {
    ShapeCodeIff(engine.urls, req, now);
  }

  lemma SameFrame(a: Request, b: Request)
    ensures SameUpToOrder(a, b) ==> a.requestID == b.requestID && a.expiresAt == b.expiresAt
  {
    assert Frame(a).requestID == a.requestID && Frame(a).expiresAt == a.expiresAt;
    assert Frame(b).requestID == b.requestID && Frame(b).expiresAt == b.expiresAt;
  }

  // ----- What is attested, and what an attestation says

  /** The request is within its window: issued at most two minutes ahead, valid for at most fifteen, not expired. */
  ghost predicate InWindow(req: Request, now: int) {
    && req.issuedAt.instant <= now + 120_000_000_000 && now < req.expiresAt.instant
    && req.issuedAt.instant < req.expiresAt.instant <= req.issuedAt.instant + 900_000_000_000
  }

  /** The attestation speaks of the request, from `now` until the request expires or ten minutes have passed. */
  ghost predicate SpeaksOf(a: Attestation, req: Request, now: int) {
    && a.requestID == a.attestationID == req.requestID && a.cageID == req.cageID && a.profile == req.profile
    && a.hostIdentity == req.hostIdentity && a.policyDigest == req.policyDigest
    && a.enforcementDigest == req.executableManifestDigest && a.issuedAt.instant == now && a.outcome == "authorized"
    && a.expiresAt.instant == if req.expiresAt.instant <= now + 600_000_000_000 then req.expiresAt.instant
                              else now + 600_000_000_000
  }

  /** Over every run and fault pattern, only well-shaped requests signed by a trusted caller are attested, as what they are. */
  lemma AttestedRequestsAreSigned(engine: Engine, calls: seq<Call>, worlds: seq<World>, outcomes: seq<Outcome>, i: nat)
    requires Run(engine, calls, worlds, outcomes) && OneClock(calls) && i < |calls| && outcomes[i].Attested?
    ensures var req := calls[i].request;
            && req.callerSpiffeID in engine.trustedCallers
            && SignatureOk(engine.requests, req, engine.trustedCallers[req.callerSpiffeID])
            && ShapeOk(engine.urls, req, calls[i].now) && InWindow(req, calls[i].now)
            && SpeaksOf(outcomes[i].attestation, req, calls[i].now)
            && outcomes[i].attestation.engineReleaseDigest == engine.releaseDigest
  {
    AttestedMeansWon(engine, calls, worlds, outcomes, i);
    AdmittedIff(engine, calls[i].request, calls[i].now);
  }

  /**
   Every attested request mounts read-only, at distinct places and outside the protected host paths, names
   exactly the mandatory layers, and reaches nothing but distinct https endpoints.
   */
  lemma AttestedPolicyIsSafe(engine: Engine, calls: seq<Call>, worlds: seq<World>, outcomes: seq<Outcome>, i: nat)
    requires Run(engine, calls, worlds, outcomes) && OneClock(calls) && i < |calls| && outcomes[i].Attested?
    ensures var req := calls[i].request;
            && HarmlessMounts(req.mountPolicy, PROTECTED_HOST_PATHS, MANDATORY_LAYERS)
            && EgressIsConfined(engine.urls, req.networkPolicy)
            && req.resourcePolicy.cpuQuotaMilli > 0 && req.resourcePolicy.memoryMaxBytes > 0
            && req.resourcePolicy.pidsMax > 0 && 1 <= req.resourcePolicy.ioWeight <= 10000
  {
    AttestedRequestsAreSigned(engine, calls, worlds, outcomes, i);
    MountPolicyIff(calls[i].request.mountPolicy, PROTECTED_HOST_PATHS, MANDATORY_LAYERS);
    NetworkPolicyIff(engine.urls, calls[i].request.networkPolicy);
  }

  /** A request that differs from the one its signature was made for in more than list order is never attested. */
  lemma TamperedRequestsAreNotAttested(engine: Engine, calls: seq<Call>, worlds: seq<World>, outcomes: seq<Outcome>, i: nat,
                                       signed: Request, key: string)
    requires Run(engine, calls, worlds, outcomes) && OneClock(calls) && i < |calls| && BindsPayload(engine.requests)
    requires calls[i].request.callerSpiffeID in engine.trustedCallers
    requires engine.trustedCallers[calls[i].request.callerSpiffeID] == engine.requests.publicKey(key)
    requires calls[i].request.signature == SignRequest(engine.requests, signed, key).signature
    ensures outcomes[i].Attested? ==> SameUpToOrder(calls[i].request, SignRequest(engine.requests, signed, key))
  {
    if outcomes[i].Attested? {
      AttestedRequestsAreSigned(engine, calls, worlds, outcomes, i);
      var unsigned := signed.(signatureAlgorithm := SIGNATURE_ALGORITHM, signature := "");
      var payload := SignRequest(engine.requests, signed, key);
      assert payload.signature == engine.requests.sign(key, Canonical(unsigned));
      assert Canonical(payload) == Canonical(unsigned);
      CanonicalIffSameUpToOrder(engine.urls, calls[i].request, calls[i].now, payload);
    }
  }

  /** The ledger holds no live record of the request ID and has room. */
  ghost predicate Fresh(cfg: RL.Config, file: Option<seq<RL.Record>>, req: Request, now: int) {
    var live := RL.Live(LH.Contents(file), now);
    !RL.HasId(live, req.requestID) && |live| < cfg.maxEntries
  }

  /** Without faults, a call is attested exactly when its request is well shaped, signed by a trusted caller, and fresh. */
  lemma AttestedIff(engine: Engine, calls: seq<Call>, worlds: seq<World>, outcomes: seq<Outcome>, i: nat)
    requires Run(engine, calls, worlds, outcomes) && OneClock(calls) && i < |calls|
    requires Serviceable(engine, calls, i) && calls[i].storeFault.NoFault?
    ensures var req := calls[i].request;
            outcomes[i].Attested? <==>
              && ShapeOk(engine.urls, req, calls[i].now) && req.callerSpiffeID in engine.trustedCallers
              && SignatureOk(engine.requests, req, engine.trustedCallers[req.callerSpiffeID])
              && Fresh(engine.ledger, worlds[i].file, req, calls[i].now)
  {
    var req, now := calls[i].request, calls[i].now;
    AdmittedIff(engine, req, now);
    WonClaimsStay(engine, calls, worlds, outcomes, i);
    assert AuthorizeStep(engine, worlds[i], calls[i], worlds[i + 1], outcomes[i]);
    if AdmissionCode(engine, req, now) == "" {
      FreshIsClaimed(engine, worlds[i], calls[i], worlds[i + 1], outcomes[i]);
    }
  }

  /** An admitted call over a loadable ledger is attested exactly when it is fresh. */
  lemma FreshIsClaimed(engine: Engine, w: World, call: Call, w': World, outcome: Outcome)
    requires CodedStep(engine, "", w, call, w', outcome)
    requires RL.WellFormed(LH.Contents(w.file), engine.ledger.maxEntries)
    requires RL.LoadRecords(engine.ledger, w.file) == Some(LH.Contents(w.file))
    requires !call.ioFault && !call.auditFault && call.storeFault.NoFault? && RL.InputOk(LedgerCall(call))
    requires call.ledgerNow == Some(call.now)
    ensures outcome.Attested? <==> Fresh(engine.ledger, w.file, call.request, call.now)
  {
    var result :|
      && RL.ClaimStep(engine.ledger, w.file, LedgerCall(call), call.ioFault, call.storeFault, w'.file, result)
      && AnswerStep(engine, w.(file := w'.file), call, result, w', outcome);
    LH.StepOutcome(engine.ledger, w.file, LedgerCall(call), w'.file, result);
  }

  /** One event was recorded, about this request, that names the answer; without an answer, none. */
  ghost predicate Audited(before: seq<AuditEvent>, after: seq<AuditEvent>, outcome: Outcome, req: Request) {
    if outcome.Unavailable? then after == before
    else
      && |after| == |before| + 1 && before <= after && EventNames(after[|before|], req)
      && after[|before|].outcome == (if outcome.Attested? then "authorized" else "denied")
      && after[|before|].reasonCode == if outcome.Attested? then "authorized" else outcome.code
  }

  lemma StepIsAudited(engine: Engine, code: string, w: World, call: Call, w': World, outcome: Outcome)
    requires CodedStep(engine, code, w, call, w', outcome)
    ensures Audited(w.audit, w'.audit, outcome, call.request)
  {
  }

  /** Audit before answer: over every run and fault pattern an answer has its one event, and only an answer has one. */
  lemma AnswersAreAudited(engine: Engine, calls: seq<Call>, worlds: seq<World>, outcomes: seq<Outcome>, i: nat)
    requires Run(engine, calls, worlds, outcomes) && i < |calls|
    ensures Audited(worlds[i].audit, worlds[i + 1].audit, outcomes[i], calls[i].request)
  {
    var code := AdmissionCode(engine, calls[i].request, calls[i].now);
    assert AuthorizeStep(engine, worlds[i], calls[i], worlds[i + 1], outcomes[i]);
    StepIsAudited(engine, code, worlds[i], calls[i], worlds[i + 1], outcomes[i]);
  }

  /** The event is about this request; a missing caller or cage may show as unidentified. */
  ghost predicate EventNames(e: AuditEvent, req: Request) {
    && e.requestID == req.requestID && e.action == req.action && e.policyDigest == req.policyDigest && e.profile == req.profile
    && (e.actor == req.callerSpiffeID || (req.callerSpiffeID == "" && e.actor == "unidentified"))
    && (e.resource == req.cageID || (req.cageID == "" && e.resource == "unidentified"))
  }

  /** With a working audit sink, a well-shaped request that is not attested is told which check it failed. */
  lemma RefusalsAreNamed(engine: Engine, calls: seq<Call>, worlds: seq<World>, outcomes: seq<Outcome>, i: nat)
    requires Run(engine, calls, worlds, outcomes) && i < |calls| && !calls[i].auditFault
    requires ShapeOk(engine.urls, calls[i].request, calls[i].now)
    ensures var req := calls[i].request;
            if req.callerSpiffeID !in engine.trustedCallers then outcomes[i] == Denied("unknown_caller_identity")
            else if !engine.requests.wellEncoded(req.signature) then outcomes[i] == Denied("invalid_signature_encoding")
            else if !engine.requests.verify(engine.trustedCallers[req.callerSpiffeID], Canonical(req), req.signature) then
              outcomes[i] == Denied("invalid_request_signature")
            else outcomes[i].Attested? || outcomes[i] in {Denied("replayed_request"), Denied("replay_ledger_unavailable")}
  {
    ShapeCodeIff(engine.urls, calls[i].request, calls[i].now);
    assert AuthorizeStep(engine, worlds[i], calls[i], worlds[i + 1], outcomes[i]);
  }

  /** What `SignRequest` produces with the key of a trusted caller passes the signature test. */
  lemma SignedRequestsPass(engine: Engine, req: Request, key: string)
    requires Correct(engine.requests) && req.callerSpiffeID in engine.trustedCallers
    requires engine.trustedCallers[req.callerSpiffeID] == engine.requests.publicKey(key)
    ensures var signed := SignRequest(engine.requests, req, key);
            signed.callerSpiffeID == req.callerSpiffeID
            && SignatureOk(engine.requests, signed, engine.trustedCallers[req.callerSpiffeID])
  {
    var unsigned := req.(signatureAlgorithm := SIGNATURE_ALGORITHM, signature := "");
    var signed := SignRequest(engine.requests, req, key);
    assert Canonical(signed) == Canonical(unsigned);
  }

  /**
   Over every run and every fault pattern: no request is attested twice, even reordered or re-signed;
   attestations for one request ID have disjoint validity windows; sequence numbers strictly increase.
   */
  lemma AttestationsNeverOverlap(engine: Engine, calls: seq<Call>, worlds: seq<World>, outcomes: seq<Outcome>,
                                 i: nat, j: nat)
    requires Run(engine, calls, worlds, outcomes) && OneClock(calls) && i < j < |calls|
    requires outcomes[i].Attested? && outcomes[j].Attested?
    ensures outcomes[i].attestation.monotonicSequence < outcomes[j].attestation.monotonicSequence
    ensures outcomes[i].attestation.requestID == outcomes[j].attestation.requestID ==>
      outcomes[i].attestation.expiresAt.instant <= outcomes[j].attestation.issuedAt.instant
    ensures !SameUpToOrder(calls[i].request, calls[j].request)
  {
    AttestedMeansWon(engine, calls, worlds, outcomes, i);
    AttestedMeansWon(engine, calls, worlds, outcomes, j);
    WonClaimsStay(engine, calls, worlds, outcomes, j);
    AdmittedIff(engine, calls[j].request, calls[j].now);
    if calls[i].request.requestID == calls[j].request.requestID {
      WinsAreSeparated(engine, calls, worlds, outcomes, i, j);
    }
    SameFrame(calls[i].request, calls[j].request);
  }

  /** A loadable ledger that holds a live record with the ID answers "replayed". */
  lemma HeldRecordIsReplayed(cfg: RL.Config, file: Option<seq<RL.Record>>, call: RL.Call, fault: RL.StoreFault,
                             file': Option<seq<RL.Record>>, result: RL.Result, r: RL.Record)
    requires RL.ClaimStep(cfg, file, call, false, fault, file', result) && RL.InputOk(call)
    requires RL.WellFormed(LH.Contents(file), cfg.maxEntries) && RL.LoadRecords(cfg, file) == Some(LH.Contents(file))
    requires r in LH.Contents(file) && r.requestID == call.requestID && r.expiresAt > call.now.value
    ensures result == RL.Replayed
  {
    var records := LH.Contents(file);
    RL.ScanIsLive(records, call.now.value, call.requestID);
    RL.LiveMembers(records, call.now.value);
    assert r in RL.Live(records, call.now.value);
  }

  lemma RetryIsReplay(engine: Engine, w: World, call: Call, w': World, outcome: Outcome, r: RL.Record)
    requires CodedStep(engine, "", w, call, w', outcome)
    requires RL.WellFormed(LH.Contents(w.file), engine.ledger.maxEntries)
    requires RL.LoadRecords(engine.ledger, w.file) == Some(LH.Contents(w.file))
    requires !call.ioFault && !call.auditFault && RL.InputOk(LedgerCall(call))
    requires r in LH.Contents(w.file) && r.requestID == call.request.requestID && r.expiresAt > LedgerCall(call).now.value
    ensures outcome == Denied("replayed_request")
  {
    var result :|
      && RL.ClaimStep(engine.ledger, w.file, LedgerCall(call), call.ioFault, call.storeFault, w'.file, result)
      && AnswerStep(engine, w.(file := w'.file), call, result, w', outcome);
    HeldRecordIsReplayed(engine.ledger, w.file, LedgerCall(call), call.storeFault, w'.file, result, r);
  }

  /** Nothing about the retry's environment keeps the ledger from answering. */
  ghost predicate Serviceable(engine: Engine, calls: seq<Call>, j: nat)
    requires j < |calls|
  {
    && LH.BytesSuffice(engine.ledger, Pool(calls))
    && !calls[j].ioFault && !calls[j].auditFault && calls[j].now != ZERO_TIME
  }

  /** A request that was admitted once is admitted for as long as it has not expired. */
  lemma AdmittedUntilExpiry(engine: Engine, req: Request, now: int, later: int)
    requires AdmissionCode(engine, req, now) == "" && now <= later < req.expiresAt.instant
    ensures AdmissionCode(engine, req, later) == ""
  {
    AdmittedIff(engine, req, now);
    assert ValidWindow(req, later);
  }

  /** An admitted retry meets the record of the claim that was won. */
  lemma BurntRetry(engine: Engine, calls: seq<Call>, worlds: seq<World>, outcomes: seq<Outcome>, i: nat, j: nat)
    requires Run(engine, calls, worlds, outcomes) && OneClock(calls) && i < j < |calls| && Won(worlds, i)
    requires calls[j].request.requestID == calls[i].request.requestID && calls[j].now < calls[i].request.expiresAt.instant
    requires AdmissionCode(engine, calls[j].request, calls[j].now) == "" && Serviceable(engine, calls, j)
    ensures outcomes[j] == Denied("replayed_request")
  {
    WonClaimsStay(engine, calls, worlds, outcomes, j);
    AdmittedIff(engine, calls[j].request, calls[j].now);
    assert NoLaterThan(calls, j, calls[j].now);
    assert AuthorizeStep(engine, worlds[j], calls[j], worlds[j + 1], outcomes[j]);
    RetryIsReplay(engine, worlds[j], calls[j], worlds[j + 1], outcomes[j], RecordOf(calls[i]));
  }

  /**
   An audit failure after the claim yields no attestation. Until that claim expires, every admitted
   retry under its request ID (the same request, one reordered or re-signed, or another with that ID)
   is refused, and by a serviceable ledger it is audited as a replay; the same request stays admitted.
   */
  lemma AuditFailureBurnsRequest(engine: Engine, calls: seq<Call>, worlds: seq<World>, outcomes: seq<Outcome>,
                                 i: nat, j: nat)
    requires Run(engine, calls, worlds, outcomes) && OneClock(calls) && i < j < |calls|
    requires Won(worlds, i) && calls[i].auditFault
    requires calls[j].request.requestID == calls[i].request.requestID && calls[j].now < calls[i].request.expiresAt.instant
    ensures outcomes[i] == Unavailable && !outcomes[j].Attested?
    ensures AdmissionCode(engine, calls[j].request, calls[j].now) == "" && Serviceable(engine, calls, j) ==>
      outcomes[j] == Denied("replayed_request")
    ensures calls[j].request == calls[i].request ==> AdmissionCode(engine, calls[j].request, calls[j].now) == ""
  {
    WonClaimsStay(engine, calls, worlds, outcomes, i);
    WonClaimsStay(engine, calls, worlds, outcomes, j);
    assert AuthorizeStep(engine, worlds[i], calls[i], worlds[i + 1], outcomes[i]);
    StepFacts(engine, AdmissionCode(engine, calls[i].request, calls[i].now), worlds[i], calls[i], worlds[i + 1], outcomes[i]);
    if outcomes[j].Attested? {
      AttestedMeansWon(engine, calls, worlds, outcomes, j);
      WinsAreSeparated(engine, calls, worlds, outcomes, i, j);
    }
    if calls[j].request == calls[i].request {
      AdmittedUntilExpiry(engine, calls[i].request, calls[i].now, calls[j].now);
    }
    if AdmissionCode(engine, calls[j].request, calls[j].now) == "" && Serviceable(engine, calls, j) {
      BurntRetry(engine, calls, worlds, outcomes, i, j);
    }
  }

  // ----- Attestations verify for as long as they claim to

  /** `VerifyAttestation` accepts. */
  predicate VerifyAttestation(scheme: Scheme<Attestation>, a: Attestation, publicKey: string, now: int) {
    && a.schema == SCHEMA && a.signatureAlgorithm == SIGNATURE_ALGORITHM && IsUuid(a.attestationID)
    && a.attestationID == a.requestID && IsCageID(a.cageID) && IsHostID(a.hostIdentity) && IsDigest(a.policyDigest)
    && IsDigest(a.engineReleaseDigest) && IsDigest(a.enforcementDigest) && a.outcome == "authorized"
    && a.expiresAt.instant > now && a.expiresAt.instant > a.issuedAt.instant
    && scheme.wellEncoded(a.signature) && scheme.verify(publicKey, a.(signature := ""), a.signature)
  }

  /** Every attestation of every run verifies at exactly the instants before its expiry. */
  lemma IssuedAttestationsVerify(engine: Engine, calls: seq<Call>, worlds: seq<World>, outcomes: seq<Outcome>,
                                 i: nat, t: int)
    requires Run(engine, calls, worlds, outcomes) && OneClock(calls) && i < |calls| && outcomes[i].Attested?
    requires IsDigest(engine.releaseDigest) && Correct(engine.attestations)
    ensures VerifyAttestation(engine.attestations, outcomes[i].attestation, engine.attestations.publicKey(engine.key), t)
       <==> t < outcomes[i].attestation.expiresAt.instant
    ensures calls[i].now < outcomes[i].attestation.expiresAt.instant <= calls[i].request.expiresAt.instant
  {
    AttestedMeansWon(engine, calls, worlds, outcomes, i);
    AdmittedIff(engine, calls[i].request, calls[i].now);
    var a := outcomes[i].attestation;
    assert a.signature == engine.attestations.sign(engine.key, a.(signature := ""));
  }

  /** Verification binds: whatever carries an issued attestation's signature and verifies is that attestation. */
  lemma AlteredAttestationsAreRefused(engine: Engine, calls: seq<Call>, worlds: seq<World>, outcomes: seq<Outcome>, i: nat,
                                      a: Attestation, now: int)
    requires Run(engine, calls, worlds, outcomes) && OneClock(calls) && i < |calls| && outcomes[i].Attested?
    requires BindsPayload(engine.attestations) && a.signature == outcomes[i].attestation.signature
    ensures VerifyAttestation(engine.attestations, a, engine.attestations.publicKey(engine.key), now) ==>
      a == outcomes[i].attestation
  {
    AttestedMeansWon(engine, calls, worlds, outcomes, i);
    var issued := outcomes[i].attestation;
    assert issued.signature == engine.attestations.sign(engine.key, issued.(signature := ""));
    assert a.(signature := "").(signature := a.signature) == a;
    assert issued.(signature := "").(signature := issued.signature) == issued;
  }
}
