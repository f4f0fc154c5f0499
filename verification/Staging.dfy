/**
 The staging run that produces evidence (edition/authority.go).

 A job carries what the scenario runner, the context, the clock and the audit sink would answer.
 */
module Staging {
  import opened Common
  import opened Orders
  import opened Patterns
  import opened Lifecycle
  import opened Certification
  import Edition

  datatype Job = Job(
    actor: string, evidenceID: string, compilation: Edition.Compilation, binding: Binding,
    runner: string -> Option<Observation>, cancelledBefore: nat -> bool, now: int, auditOk: bool)

  datatype Outcome = Evidenced(evidence: Evidence) | Denied(reason: string) | Unavailable

  datatype AuditEvent =
    | Authorized(actor: string, cageID: string, evidenceID: string, bindingDigest: string)
    | Refused(actor: string, cageID: string, reason: string)

  /** The signing key and scheme, and the compiler whose digests are checked. */
  datatype Station = Station(key: string, scheme: Scheme<Evidence>, compiler: Edition.Compiler)

  predicate Admissible(a: Station, job: Job) {
    && IsUuid(job.evidenceID) && Edition.VerifyCompilation(a.compiler, job.compilation) && ValidBinding(job.binding)
  }

  predicate Passes(job: Job, i: nat)
    requires i < |SCENARIOS|
  {
    job.runner(SCENARIOS[i]).Some? && ObservationOk(job.runner(SCENARIOS[i]).value, SCENARIOS[i])
  }

  /** Why the scenarios from `i` on stop, or "". */
  function ScenarioCode(job: Job, i: nat): (code: string)
    requires i <= |SCENARIOS|
    ensures code == "" <==> forall k :: i <= k < |SCENARIOS| ==> !job.cancelledBefore(k) && Passes(job, k)
    decreases |SCENARIOS| - i
  {
    if i == |SCENARIOS| then ""
    else if job.cancelledBefore(i) then "request_cancelled"
    else if !Passes(job, i) then "staging_scenario_failed"
    else ScenarioCode(job, i + 1)
  }

  function Observations(job: Job): seq<Observation>
    requires forall k :: 0 <= k < |SCENARIOS| ==> Passes(job, k)
  {
    seq(|SCENARIOS|, i requires 0 <= i < |SCENARIOS| => assert Passes(job, i); job.runner(SCENARIOS[i]).value)
  }

  lemma ObservationsAreValid(job: Job)
    requires forall k :: 0 <= k < |SCENARIOS| ==> Passes(job, k)
    ensures ValidObservations(Observations(job))
  {
    forall i | 0 <= i < |SCENARIOS|
      ensures ObservationOk(Observations(job)[i], SCENARIOS[i])
    {
      assert Passes(job, i);
    }
  }

  function Draft(job: Job, observations: seq<Observation>): Evidence {
    var x := job.compilation;
    Evidence(EDITION_SCHEMA, job.evidenceID, x.edition, x.profile, x.cageID, x.bindingDigest, job.binding, job.now,
             observations, ALGORITHM, "")
  }

  /** `deny`: no denial is reported that was not audited. */
  function Deny(job: Job, reason: string): (Outcome, seq<AuditEvent>) {
    if job.auditOk then (Denied(reason), [Refused(OrUnidentified(job.actor), OrUnidentified(job.compilation.cageID), reason)])
    else (Unavailable, [])
  }

  /** `Run`: the outcome and the events recorded. */
  ghost function RunResult(a: Station, job: Job): (Outcome, seq<AuditEvent>) {
    if !Admissible(a, job) then Deny(job, "invalid_staging_request")
    else
      var code := ScenarioCode(job, 0);
      if code != "" then Deny(job, code)
      else if !job.auditOk then (Unavailable, [])
      else
        (Evidenced(SignEvidence(a.scheme, Draft(job, Observations(job)), a.key)),
         [Authorized(job.actor, job.compilation.cageID, job.evidenceID, job.compilation.bindingDigest)])
  }

  // ----- Signing

  /** What tells the scenario names apart. */
  function Mark(s: string): (int, char, char)
    requires |s| >= 2
  {
    (|s|, s[0], s[1])
  }

  lemma ScenarioMarks()
    ensures forall i :: 0 <= i < |SCENARIOS| ==> |SCENARIOS[i]| >= 2
    ensures forall i, j :: 0 <= i < j < |SCENARIOS| ==> Mark(SCENARIOS[i]) != Mark(SCENARIOS[j])
  {
  }

  lemma ObservationsAreUnique(os: seq<Observation>)
    requires ValidObservations(os)
    ensures UniqueKeys(os, ScenarioOf())
  {
    ScenarioMarks();
    forall i, j | 0 <= i < j < |os|
      ensures ScenarioOf()(os[i]) != ScenarioOf()(os[j])
    {
      assert ObservationOk(os[i], SCENARIOS[i]) && ObservationOk(os[j], SCENARIOS[j]);
      assert Mark(SCENARIOS[i]) != Mark(SCENARIOS[j]);
    }
  }

  /** `SignEvidence`: with one observation per scenario the sorted payload is determined. */
  method Sign(scheme: Scheme<Evidence>, e: Evidence, key: string) returns (signed: Evidence)
    requires UniqueKeys(e.observations, ScenarioOf())
    ensures signed == SignEvidence(scheme, e, key)
  {
    var unsigned := e.(signatureAlgorithm := ALGORITHM, signature := "");
    ByKeyStrictWeak(ScenarioOf());
    var sorted := Sort(unsigned.observations, ByKey(ScenarioOf()));
    UniqueKeysPermute(sorted, e.observations, ScenarioOf());
    UniqueKeysSeparate(sorted, ScenarioOf());
    SortingUnique(sorted, SortSlice(unsigned.observations, ByKey(ScenarioOf())), ByKey(ScenarioOf()));
    signed := unsigned.(signature := scheme.sign(key, unsigned.(observations := sorted)));
  }

  // ----- The run

  /** The scenario loop: all scenarios in order, stopping at the first one that is cancelled, errs or does not pass. */
  method RunScenarios(job: Job) returns (code: string, observations: seq<Observation>)
    ensures code == ScenarioCode(job, 0)
    ensures code == "" ==> observations == Observations(job)
  {
    observations := [];
    for i := 0 to |SCENARIOS|
      invariant ScenarioCode(job, 0) == ScenarioCode(job, i)
      invariant |observations| == i
      invariant forall j :: 0 <= j < i ==> Passes(job, j) && observations[j] == job.runner(SCENARIOS[j]).value
    {
      if job.cancelledBefore(i) {
        return "request_cancelled", observations;
      }
      var o := job.runner(SCENARIOS[i]);
      if o.None? || !ObservationOk(o.value, SCENARIOS[i]) {
        return "staging_scenario_failed", observations;
      }
      observations := observations + [o.value];
    }
    code := "";
  }

  class StagingAuthority {
    const station: Station
    var audit: seq<AuditEvent>

    constructor (station: Station)
      ensures this.station == station && audit == []
    {
      this.station := station;
      audit := [];
    }

    method Refuse(job: Job, reason: string) returns (outcome: Outcome)
      modifies this`audit
      ensures outcome == Deny(job, reason).0 && audit == old(audit) + Deny(job, reason).1
    {
      assert audit + [] == audit;
      if !job.auditOk {
        return Unavailable;
      }
      audit := audit + [Refused(OrUnidentified(job.actor), OrUnidentified(job.compilation.cageID), reason)];
      return Denied(reason);
    }

    /** `StagingAuthority.Run`: guards, scenarios, signature, audit, and only then the evidence. */
    method Run(job: Job) returns (outcome: Outcome)
      modifies this`audit
      ensures outcome == RunResult(station, job).0 && audit == old(audit) + RunResult(station, job).1
    {
      assert audit + [] == audit;
      if !Admissible(station, job) {
        outcome := Refuse(job, "invalid_staging_request");
        return;
      }
      var code, observations := RunScenarios(job);
      if code != "" {
        outcome := Refuse(job, code);
        return;
      }
      ObservationsAreValid(job);
      ObservationsAreUnique(observations);
      var evidence := Sign(station.scheme, Draft(job, observations), station.key);
      if !job.auditOk {
        return Unavailable;
      }
      audit := audit + [Authorized(job.actor, job.compilation.cageID, job.evidenceID, job.compilation.bindingDigest)];
      return Evidenced(evidence);
    }
  }

  // ----- What a run returns

  lemma SigningVerifies(scheme: Scheme<Evidence>, key: string, e: Evidence)
    requires Correct(scheme) && e.signatureAlgorithm == ALGORITHM && e.signature == ""
    ensures var signed := SignEvidence(scheme, e, key);
            VerifySignature(scheme, CanonicalEvidence(signed), signed.signatureAlgorithm, signed.signature, scheme.publicKey(key))
  {
    var signed := SignEvidence(scheme, e, key);
    assert e.(signatureAlgorithm := ALGORITHM, signature := "") == e;
    assert CanonicalEvidence(signed) == CanonicalEvidence(e);
  }

  /**
   A run yields evidence exactly when the request is admissible, every scenario ran uncancelled and
   passed, and the audit sink recorded it. The evidence speaks of the compilation that was staged, and
   its verifier accepts it exactly when the compilation's digest has the digest shape, as hexadecimal
   SHA-256 always has.
   */
  lemma StagedEvidenceVerifies(a: Station, job: Job)
    requires Correct(a.scheme)
    ensures RunResult(a, job).0.Evidenced? <==>
      && Admissible(a, job) && job.auditOk
      && forall k :: 0 <= k < |SCENARIOS| ==> !job.cancelledBefore(k) && Passes(job, k)
    ensures RunResult(a, job).0.Evidenced? ==>
      var e := RunResult(a, job).0.evidence;
      && (VerifyEvidence(a.scheme, e, a.scheme.publicKey(a.key)) <==>
          IsDigest(a.compiler.digest(job.compilation.(bindingDigest := ""))))
      && e.evidenceID == job.evidenceID && e.issuedAt == job.now && e.observations == Observations(job)
      && e.edition == job.compilation.edition && e.profile == job.compilation.profile && e.cageID == job.compilation.cageID
      && e.bindingDigest == a.compiler.digest(job.compilation.(bindingDigest := "")) && e.releaseBinding == job.binding
  {
    if RunResult(a, job).0.Evidenced? {
      ObservationsAreValid(job);
      SigningVerifies(a.scheme, a.key, Draft(job, Observations(job)));
    }
  }

  /** Valid observations that are the same up to order are the same. */
  lemma ObservationsKeepOrder(a: seq<Observation>, b: seq<Observation>)
    requires ValidObservations(a) && ValidObservations(b) && multiset(a) == multiset(b)
    ensures a == b
  {
    forall i | 0 <= i < |a|
      ensures a[i] == b[i]
    {
      InMultiset(a[i], a);
      InMultiset(a[i], b);
      var j :| 0 <= j < |b| && b[j] == a[i];
      ObservationsAreUnique(b);
      assert ObservationOk(a[i], SCENARIOS[i]) && ObservationOk(b[i], SCENARIOS[i]);
      assert ScenarioOf()(b[i]) == ScenarioOf()(b[j]);
    }
  }

  /** Verification binds: whatever carries a staging run's signature and verifies is that run's evidence. */
  lemma AlteredEvidenceIsRefused(a: Station, job: Job, e: Evidence)
    requires BindsPayload(a.scheme) && RunResult(a, job).0.Evidenced?
    requires e.signature == RunResult(a, job).0.evidence.signature
    ensures VerifyEvidence(a.scheme, e, a.scheme.publicKey(a.key)) ==> e == RunResult(a, job).0.evidence
  {
    var draft := Draft(job, Observations(job));
    var signed := RunResult(a, job).0.evidence;
    ObservationsAreValid(job);
    if VerifyEvidence(a.scheme, e, a.scheme.publicKey(a.key)) {
      var x, y := CanonicalEvidence(e), CanonicalEvidence(draft);
      assert x == y;
      assert multiset(e.observations) == multiset(x.observations) == multiset(y.observations) == multiset(draft.observations);
      ObservationsKeepOrder(e.observations, draft.observations);
      assert x.(signature := e.signature, observations := e.observations) == e;
      assert y.(signature := e.signature, observations := e.observations) == signed;
    }
  }
}
