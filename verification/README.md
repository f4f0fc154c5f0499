# Brick Host Isolation: a verified model

This project models the authority chain of `brick-host-isolation` in Dafny and proves what its stateful
decisions, effect protocols and canonical forms promise. `dafny verify dfyconfig.toml` checks all of it.

| file | models |
|---|---|
| `RateLimiter.dfy`, `BrokerGates.dfy` | the broker's token bucket and the gate order of a connection |
| `ReplayLedger.dfy`, `LedgerHistory.dfy`, `LedgerProtocol.dfy` | the replay ledger: one claim, whole histories, and many processes with crashes |
| `Frames.dfy` | the length-prefixed frame codec |
| `Lifecycle.dfy`, `LifecycleAuthority.dfy` | signed requests, their canonical form, and `Authorize` over the ledger |
| `Recovery.dfy` | the kill-first recovery protocol with interleaved recoveries |
| `Isolation.dfy`, `CgroupWrites.dfy`, `Resource.dfy`, `CgroupApply.dfy`, `Integrity.dfy`, `Edition.dfy`, `EditionRuns.dfy` | the plan pipeline, its digest chain, and when an intent goes through it |
| `Staging.dfy`, `Certification.dfy` | staging runs and their evidence, core gates and certificates |
| `Encoding.dfy` | an injective text form of plans and manifests, which shows that collision-free digests exist in the model |
| `HostLayer.dfy`, `Paths.dfy` | ephemeral layers, path tests and mount selection |
| `Common.dfy`, `Orders.dfy`, `Strings.dfy`, `SetEquality.dfy`, `Patterns.dfy` | shared values, string order, `sort.Slice`, splitting and joining, set comparison, identifier patterns |

## Conventions

- Times are integer nanoseconds with Go's zero time at 0. Token counts are `real`.
- `sort.Slice` is not stable. `Orders.SortSlice` picks *some* inversion-free permutation, so every statement that a
  sorted list is determined rests on a proof that the validators leave no ties.
- SHA-256 over JSON is a function parameter. A theorem that needs collision freedom says `Injective`; one that needs the
  shape of a digest asks it of the digests at hand, and `EditionRuns.ChainHasRuns` shows that the two can be had
  together. Ed25519 is an abstract scheme (`Lifecycle.Scheme`): `Correct` says that what is signed verifies, and only
  `SignatureSurvivesExactlyReordering` also needs `BindsPayload`, that a signature verifies for no other payload.
- Clocks, I/O outcomes, cancellation, file inspection, URL parsing and the answers of audit sinks are parameters, and the
  theorems range over all of them. Where a clock must not go back, the lemma says so.
- The purging ledger is not indistinguishable from the full history under every clock: `BackwardClockReclaims` gives a
  run, and `SafeIffNoPeak` proves that it is exactly for readings none of which lies above an earlier and a later one.
- The ledger reads its clock before it takes the lock. `LedgerProtocol` keeps that order; its at-most-once theorem takes
  monotone readings in the order in which claims replace the ledger as a hypothesis, and `ReplayNeedsPurge` says what
  holds without it.
- `equalSet` does not mean "is a permutation of" for every expected list: `EqualSetAcceptsNonPermutation` gives an input,
  and `EqualSetExactWhen` proves that it does mean that exactly for expected lists without repeats and without "".

## Model

| member | source | states |
|---|---|---|
| `RateLimiter.IdentityLimiter.Allow` | broker/broker.go:324-348 | one call decides and updates its identity's slot as `AllowSlot` says and touches no other; a failed or zero clock changes nothing |
| `RateLimiter.IdentitiesAreIndependent` | broker/broker.go:331-346 | a verdict depends only on the readings of the caller's own identity |
| `RateLimiter.BucketIsExact` | broker/broker.go:324-348 | over any history the lazy bucket grants a call exactly when it is in order and, for every earlier grant i, (grants from i through it - Capacity) * RefillInterval <= t - t_i, in integers |
| `RateLimiter.OutOfOrderChangesNothing` | broker/broker.go:326-338 | failed-clock and out-of-order calls are denied and leave every bucket as it was |
| `BrokerGates.Broker.ServeConnection` | broker/broker.go:153-226 | the gates in order over the shared limiter; other identities' buckets stay |
| `BrokerGates.AnswersAreAudited` | broker/broker.go:206-226 | an answer is the last action and follows its accepted audit record; "authorized" is answered exactly for an authorization |
| `BrokerGates.AuthorityBehindLimiter` | broker/broker.go:155-206 | in the connection's own fields: the authority is called exactly when the peer, deadline, handshake, frame and envelope are good, the caller is the authenticated identity, the limiter grants and the preflight passes |
| `BrokerGates.FirstClosedGateDecides` | broker/broker.go:155-205 | the first of the eleven gates that is closed decides the reason recorded, and whether and with which status it is answered |
| `BrokerGates.VerdictDecides` | broker/broker.go:206-219 | behind open gates the authority's verdict decides what is recorded and answered |
| `BrokerGates.AuthorityIsRateLimited` | broker/broker.go:196-206 | in every run, for the times the authority is reached from connection i through j of one identity, (times - Capacity) * RefillInterval <= t_j - t_i |
| `ReplayLedger.FileReplayLedger.Claim` | broker/ledger.go:71-117 | the claim's outcome and new file, for every clock, load and store outcome |
| `ReplayLedger.Collect` | broker/ledger.go:96-107 | the loop returns malformed, replay or the active records, whichever comes first |
| `ReplayLedger.ScanIsLive` | broker/ledger.go:97-107 | on well-formed records the loop reports a replay exactly when the ID is live, and otherwise keeps exactly the live records |
| `ReplayLedger.StoredIsWellFormed` | broker/ledger.go:108-113 | storing keeps IDs unique, sorted and non-empty and the entry bound, whatever the clock said |
| `LedgerHistory.PurgingRefinesHistory` | broker/ledger.go:92-116 | without faults, and with a byte bound that holds the ledgers these calls can produce, every outcome equals the one computed from the full history of accepted records, replay before capacity, for every clock without a peak and so for every non-decreasing one; every reachable file is well formed |
| `LedgerHistory.SafeIffNoPeak` | broker/ledger.go:75-116 | for every sequence of clock readings: whatever is asked at these readings, no outcome differs from the full history's, if and only if no usable reading lies above an earlier and a later one |
| `LedgerHistory.PeakBreaks` | broker/ledger.go:97-107 | around any such reading some run gives an outcome the full history contradicts, and with room for two records claims one pair twice |
| `LedgerHistory.BackwardClockReclaims` | broker/ledger.go:75-107 | a concrete run with a clock that goes back claims one pair twice, where the full history reports a replay |
| `LedgerProtocol.StepKeepsInv` | broker/ledger.go:71-189 | every step of every process, failure and power loss keeps the protocol invariant |
| `LedgerProtocol.ReplayNeedsPurge` | broker/ledger.go:71-117 | between two successes for one request ID, the later claim read a time at or past the first expiry, or another claim with such a reading replaced the ledger; when both carry the same expiry it was another claim |
| `LedgerProtocol.ClaimedAtMostOnce` | broker/ledger.go:71-117 | with monotone readings no (requestID, expiresAt) pair succeeds twice, and a second success for an ID comes after the first expiry |
| `LedgerProtocol.CrashDurability` | broker/ledger.go:152-189 | power loss at any moment leaves a complete, well-formed version that holds every success not purged since by a late reading |
| `LedgerProtocol.ClaimRunsProtocol` | broker/ledger.go:71-189 | every result of a claim is a run of the protocol's steps: the same file, only steps the faults allow, and a success in the trace exactly when one was reported, after the directory sync |
| `Frames.WriteAll` | broker/broker.go:435-447 | terminates for every writer; what was sent is a prefix of the payload, and all of it if the writer always progresses |
| `Frames.WriteFrame` | broker/broker.go:423-433 | sends a whole frame or a prefix of one; unsendable payloads send nothing |
| `Frames.Stream.ReadFrame` | broker/broker.go:407-421 | consumes and returns exactly what the frame grammar says at the current position |
| `Frames.ParsedIsFrame` | broker/broker.go:407-433 | the reader accepts only what the writer produces |
| `Frames.HeaderIsBigEndian` | broker/broker.go:407-433 | the header is the payload length with its most significant byte first |
| `Frames.Exchange` | broker/broker.go:407-447 | end to end: payloads of length 1..max written through a connection that makes arbitrary positive short writes, and followed by any bytes, are read back as exactly those payloads and the reader stops where they end |
| `Frames.SendAll` | broker/broker.go:423-447 | for every writer, what reaches the connection is a prefix of the frames of all payloads, and all of them if the writer always progresses |
| `Frames.ReceiveAll` | broker/broker.go:407-421 | as many reads as there are frames return exactly their payloads and leave what follows unread |
| `Frames.StreamRoundTrip` | broker/broker.go:407-433 | reading a stream of frames yields exactly their payloads and then goes on with whatever follows |
| `Frames.TornStreamIsPrefix` | broker/broker.go:407-421 | a stream cut anywhere is read as exactly the frames that arrived whole |
| `Lifecycle.ValidateMountPolicy` | lifecycle/authority.go:321-336 | accepts exactly safe mounts with unique destinations; otherwise the first offender's code |
| `Lifecycle.MountPolicyIff` | lifecycle/authority.go:321-336 | accepted mount policies are exactly those with the mandatory layers whose root and mounts are proper component lists with no protected path as a prefix, mounted read-only at distinct places |
| `Lifecycle.ValidateNetworkPolicy` | lifecycle/authority.go:338-354 | accepts exactly distinct https endpoints under default deny; otherwise the first offender's code |
| `Lifecycle.NetworkPolicyIff` | lifecycle/authority.go:338-354 | accepted network policies are exactly default deny with distinct https endpoints |
| `Lifecycle.ValidateRequestShape` | lifecycle/authority.go:298-319 | accepts exactly the declared shape; otherwise the code of the first failed group |
| `Lifecycle.CanonicalRequest` | lifecycle/authority.go:356-370 | with unique destinations the three sorts leave one canonical value |
| `Lifecycle.CanonicalIffSameUpToOrder` | lifecycle/authority.go:356-370 | for accepted requests, canonical payloads are equal exactly when the requests agree except for signature and list order |
| `Lifecycle.SignatureSurvivesExactlyReordering` | lifecycle/authority.go:196-203 | a signature verifies for another request exactly when that request only reorders mounts, layers and endpoints |
| `LifecycleAuthority.Authority.Authorize` | lifecycle/authority.go:184-249 | one call: admission, claim, numbering, signing and audit before answer, for every fault |
| `LifecycleAuthority.AttestedRequestsAreSigned` | lifecycle/authority.go:184-234 | over every run and fault pattern an attested request has the accepted shape, is within its time window, and its signature verifies under the key of its trusted caller; the attestation carries that request's fields, and ends with the request or after ten minutes |
| `LifecycleAuthority.AttestedPolicyIsSafe` | lifecycle/authority.go:298-354 | over every run an attested request mounts only harmless paths read-only, names exactly the mandatory layers, reaches only distinct https endpoints, and sets positive limits |
| `LifecycleAuthority.TamperedRequestsAreNotAttested` | lifecycle/authority.go:196-203 | a request that differs in more than list order from the one its signature was made for is never attested |
| `LifecycleAuthority.AttestedIff` | lifecycle/authority.go:184-234 | without faults a call is attested exactly when its request has the accepted shape, is signed by a trusted caller, and the ledger holds no live record of its ID and has room |
| `LifecycleAuthority.SignedRequestsPass` | lifecycle/authority.go:255-267 | what `SignRequest` produces with a trusted caller's key passes the signature test |
| `LifecycleAuthority.RefusalsAreNamed` | lifecycle/authority.go:189-213 | a well-shaped request that is not attested is told which check it failed |
| `LifecycleAuthority.AnswersAreAudited` | lifecycle/authority.go:226-253 | over every run an answer has exactly one audit event, which names it and the request, and no answer has none |
| `LifecycleAuthority.AttestationsNeverOverlap` | lifecycle/authority.go:184-234 | over every run: no request is attested twice even if reordered, attestations for one ID have disjoint windows, sequence numbers strictly increase |
| `LifecycleAuthority.AuditFailureBurnsRequest` | lifecycle/authority.go:204-232 | an audit failure after the claim yields no attestation; until that claim expires no retry under its request ID is attested, and every admitted one, reordered, re-signed or different, is denied as a replay by a ledger that can be read; the same request stays admitted |
| `LifecycleAuthority.IssuedAttestationsVerify` | lifecycle/authority.go:283-296 | an issued attestation verifies at exactly the instants before its expiry, which is after its issue and not after the request's |
| `LifecycleAuthority.AlteredAttestationsAreRefused` | lifecycle/authority.go:283-296 | whatever carries an issued attestation's signature and verifies is that attestation |
| `Recovery.RecoveryAuthority.SuspendAndRecover` | recovery/authority.go:125-208 | every run of the method is a run of the step machine that starts with the request, and it finishes; it attests exactly when the request is valid and nothing stops any stage, and denies exactly when the request is invalid and the denial is recorded, with the code of the group at fault |
| `Recovery.OnlyValidRequestsTakeEffect` | recovery/authority.go:133-278 | over every execution: a recovery's events carry its request and its effects are on that request's cage; an effect or attestation implies well-formed parties and one of the four reasons, and an effect an accepted record before it; a denial names the group of fields at fault |
| `Recovery.StepKeepsInv` | recovery/authority.go:125-208 | every step of every interleaved recovery keeps the protocol invariant |
| `Recovery.EffectsArePrefix` | recovery/authority.go:138-172 | each recovery's effects are, by name, a prefix of kill, freeze, withdrawNetwork, captureEvidence, destroy, cleanRebuildHandoff, all successful but perhaps the last |
| `Recovery.EffectsFollowRecords` | recovery/authority.go:146-172 | before an effect every earlier effect succeeded, every earlier stage was journaled and then audited as a success, and nothing of that recovery failed |
| `Recovery.NothingFollowsFailure` | recovery/authority.go:146-208 | after a failure a recovery only records that failure, breaks again or returns without attestation, and after its return it does nothing |
| `Recovery.RecordsAreJustified` | recovery/authority.go:150-208 | a journaled success is of a valid request and has its successful effect before it, a journaled failure has the code of the cancellation or failed effect before it, a journaled denial is deserved, and only journaled events are audited |
| `Recovery.AttestationIsBacked` | recovery/authority.go:173-194 | an attestation implies that all six effects succeeded and nothing failed, that seven successes were journaled and audited, that its evidence digest is the recorded one, and that its number is above that recovery's others; a denial implies no effect |
| `Recovery.SequenceNumbersAreDistinct` | recovery/authority.go:196-207 | no two journaled events of any recoveries share a sequence number |
| `SetEquality.EqualSet` | isolation/authority.go:234-254 | the two loops decide length, repeat-freedom and inclusion |
| `SetEquality.EqualSetExactWhen` | isolation/authority.go:234-254 | the comparison means permutation for every candidate exactly when the expected list has no repeats and no empty string |
| `SetEquality.EqualSetAcceptsNonPermutation` | isolation/authority.go:248-253 | an expected list with a repeat admits a list that is no permutation |
| `SetEquality.SameSetIsPermutation` | lifecycle/authority.go:403-420 | against a repeat-free list, set equality is permutation |
| `Isolation.ValidMounts` | isolation/authority.go:189-220 | accepts exactly the mount policy; otherwise the code of the first mount that departs from it |
| `Isolation.AcceptedMountsAreStandard` | isolation/authority.go:189-271 | accepted mounts normalise to the four standard mounts in any order |
| `Isolation.NormalForm` | isolation/authority.go:130-135 | accepted requests that agree on cage, profile, seccomp digest and host IDs yield one plan and digest |
| `Isolation.VerifyPlanIffSameUpToOrder` | isolation/authority.go:155-164 | a plan with an issued digest is accepted exactly when it is the issued plan up to list order |
| `Isolation.SameDigestSamePlan` | isolation/authority.go:155-164 | two accepted plans with one digest differ at most in list order |
| `CgroupWrites.ValidLimits` | resource/authority.go:225-243 | accepts exactly limits within the maximum with well-formed throttles on distinct devices |
| `CgroupWrites.AcceptedIffBounded` | resource/authority.go:225-243 | accepted limits are exactly those that are set, within the maximum in every field, with positive rates on distinct devices |
| `CgroupWrites.RenderWrites` | resource/authority.go:266-275 | with distinct devices the write sequence is determined |
| `CgroupWrites.WritesIffSameControls` | resource/authority.go:266-292 | on accepted limits, equal writes mean equal CPU, memory, swap and pids values and the same throttles, and conversely |
| `CgroupWrites.WritesTellLimits` | resource/authority.go:266-292 | files that hold the rendered writes read back as the limits: each file its own limit, cpu.max as quota and period, io.max as one line per throttle with its four tagged rates |
| `CgroupWrites.RenderedWritesAreCanonical` | resource/authority.go:276-287 | rendered writes name the six files in order and none is empty |
| `Resource.CanonicalNetworkIff` | resource/authority.go:294-304 | accepted network policies have one canonical form exactly when they differ at most in endpoint order |
| `Resource.AcceptedIffConfined` | resource/authority.go:245-264 | accepted network policies are exactly no egress, or a SPIFFE-named proxy to https servers on port 443, each named once |
| `Resource.CagesAreDirectChildren` | resource/authority.go:132 | a cage's path is a direct child of the root and distinct cages have distinct paths |
| `Resource.IssuedPlanVerifies` | resource/authority.go:182-194 | every issued plan passes verification |
| `Resource.VerifyPlanIffSameUpToOrder` | resource/authority.go:182-194 | a plan with an issued digest is accepted exactly when only its endpoints are reordered |
| `CgroupApply.CgroupHost.Apply` | resource/authority.go:148-180 | the host after the call, for every fault and cancellation point |
| `CgroupApply.ApplyIsAllOrNothing` | resource/authority.go:148-180 | success leaves exactly the six planned files and one audit record; failure after Mkdir removes the child exactly once; a refused Mkdir neither writes nor removes; success exactly when nothing refuses |
| `CgroupApply.AppliedFilesTell` | resource/authority.go:148-180 | after a successful application the child's files read back as the limits the plan was rendered from |
| `Integrity.CanonicalManifestIff` | integrity/authority.go:371-387 | valid manifests have one canonical form exactly when they differ at most in signature and in the order of entries, dependencies and variables |
| `Integrity.FindEntry` | integrity/authority.go:363-370 | returns an entry with the path, or none exists |
| `Integrity.PlannedFilesAreIntact` | integrity/authority.go:167-247 | behind every issued plan is an entry of the signed manifest with its executable, arguments and variables, and the executable, its interpreter and each dependency were regular files with the manifest's contents, owner and mode |
| `Integrity.IssuedPlanVerifies` | integrity/authority.go:167-232 | every issued execution plan passes verification |
| `Integrity.SameDigestSamePlan` | integrity/authority.go:197-205 | issued execution plans with one digest are equal |
| `Integrity.VerifyPlanIffSameUpToOrder` | integrity/authority.go:212-232 | a plan carrying an accepted plan's digest is itself accepted exactly when it differs from it in nothing but the order of its variables |
| `Edition.CompilationsVerify` | edition/authority.go:101-123 | every compilation passes its own verification |
| `Edition.StrictRequestAcceptedIff` | edition/authority.go:186-188 | the isolation stage accepts what an accepted intent compiles to exactly when its cage ID is well formed |
| `Edition.AcceptedIffStrictUpToOrder` | isolation/authority.go:166-220 | the isolation stage accepts exactly the reorderings of the strict request, for well-formed identities and any positive host IDs |
| `Edition.ChainIsLinked` | edition/authority.go:101-159 | all plans of a successful run and all copies handed on share cage and profile, and each plan carries the digest of the one below |
| `Edition.PlansFollowIntent` | edition/authority.go:101-188 | in a successful run the isolation plan carries the intent's seccomp digest and the fixed host IDs, its request the base-root digest, the resource plan the limits and network of the edition's template, and the execution plan its path and arguments |
| `Edition.EqualExecDigestsFixTheChain` | edition/authority.go:101-159 | equal execution-plan digests force equal execution, resource and isolation plans, presented copies equal up to list order, the same kernel controls and network policy, and the same manifest up to order |
| `EditionRuns.RunExistsIffReady` | edition/authority.go:101-159 | an intent can be taken through every stage, by whatever copies of the plans, if and only if its cage ID, template limits, network policy, executable and the shape of the two issued digests meet the later stages' conditions |
| `EditionRuns.HonestRunSucceeds` | edition/authority.go:101-159 | under those conditions the run that hands each plan on as issued succeeds |
| `EditionRuns.CollisionFreeRun` | edition/authority.go:101-159 | whatever is otherwise fit to run does run under some digests that never collide |
| `EditionRuns.ChainHasRuns` | edition/authority.go:101-159 | the hypotheses of the digest-chain theorem are met together: there is a valid stack with collision-free digests and a successful run |
| `EditionRuns.AppliedRunTellsTemplate` | resource/authority.go:148-180 | when the resource plan of a successful run, or a reordered copy, is applied successfully, the control files of the intent's cage read back as the limits of the edition's template, none above the host's maximum |
| `Certification.VerifyCoreGates` | certification/authority.go:383-403 | accepts exactly when every gate is good and the six gates cover editions and gates once each; the final loop never decides |
| `Certification.SixDistinctIsExactCover` | certification/authority.go:383-403 | six good gates with distinct identities are exactly the exact covers |
| `Staging.StagingAuthority.Run` | edition/authority.go:249-277 | guards, scenarios, signature and audit in order: the outcome and the audit events of one staging run |
| `Staging.RunScenarios` | edition/authority.go:257-267 | the loop returns the observations of all scenarios, or the code of the first one that was cancelled, erred or did not pass |
| `Staging.StagedEvidenceVerifies` | edition/authority.go:249-309 | a staging run yields evidence exactly when the request is admissible, every scenario passes uncancelled and the record is accepted; the evidence is of the staged compilation and its verifier accepts it exactly when that compilation's digest has the digest shape |
| `Staging.AlteredEvidenceIsRefused` | edition/authority.go:296-309 | whatever carries a staging run's signature and verifies is that run's evidence |
| `Certification.CollectGateDigests` | certification/authority.go:267-274 | the gate map is the one keyed by edition and gate |
| `Certification.CertificatesVerifyForTheirLifetime` | certification/authority.go:185-311 | a certificate for an accepted request verifies at exactly the instants from issue up to expiry |
| `Certification.AlteredCertificatesAreRefused` | certification/authority.go:306-311 | whatever carries a certificate's signature and verifies is that certificate |
| `Certification.CertificateSpeaksOfRequest` | certification/authority.go:246-279 | each certificate field is the value or digest of the evidence it names, edition by edition and gate by gate |
| `Certification.AcceptedEvidenceStands` | certification/authority.go:222-245 | a request is accepted only with a current signed manifest and benchmark, an approved review in force, current signed evidence of both editions for this manifest in which every scenario passed, and an approved gate of each kind per edition |
| `HostLayer.BaseRootAuthority.PrepareLayer` | host/host.go:279-328 | all three directories, exactly when nothing refuses, or the tree exactly as found |
| `HostLayer.OneLayerPerCage` | host/host.go:279-328 | over every sequence of calls a cage ID gets at most one layer |
| `HostLayer.TreeIsInitialPlusLayers` | host/host.go:279-328 | the directories are always those found plus the granted layers, whole |
| `HostLayer.FailuresAreInvisible` | host/host.go:298-309 | over every sequence of calls, leaving out those that granted nothing changes neither what the others are granted nor the final directories |
| `HostLayer.LayerPathComponents` | host/host.go:297-310 | the joined paths are safe and their components are those of the root, the cage ID and the leaf |
| `HostLayer.LayersAreDisjoint` | host/host.go:297-310 | the joined upper and work paths of distinct cages never contain one another |
| `Paths.SafePathIsProperComponents` | lifecycle/authority.go:390-392 | a safe path is exactly a rooted non-empty list of components none of which is empty, "." or ".." |
| `Paths.AtOrBelowIsComponentPrefix` | lifecycle/authority.go:394-401 | the string test is the component-prefix test for every pair of strings |
| `Paths.ProtectedPath` | lifecycle/authority.go:394-401 | true exactly when a protected component list is a prefix of the path's |
| `Paths.CoveringMount` | host/host.go:403-415 | the first covering mount with the longest mount point, if any covers |
| `Paths.CoveringMountIsLongestPrefix` | host/host.go:403-415 | on distinct clean mount points the chosen mount alone has the longest component prefix |

## Left out

- Bit-exact float64 rounding in the limiter, uint64 wrap-around of sequence numbers and saturation of durations.
- TLS handshakes, sockets, peer credentials, listener set-up and socket permissions; `BrokerGates` takes their answers as inputs.
- Ed25519, SHA-256, base64, JSON and URL parsing themselves; JSON is taken to be injective on the modelled values, so invalid UTF-8 and the difference between a nil and an empty list before canonicalisation are not modelled.
- File ownership and permission checks of the ledger, the base-root scan and mount-table parsing; their verdicts are inputs.
- Denial reasons of the plan authorities' `Prepare` functions and of the compiler, which are merged into one refusal; their audit events are reduced to an accept-or-refuse answer.
- The name, value and prefix tables for environment variables, which leave exactly the four variables listed in `Integrity.SafeEnvironment`.
- `validNetwork`, `validManifest`, `validArtifacts` and similar validators appear as predicates, not as loops, because they would repeat the loops already modelled.
- A claim that every compiled template passes the resource stage: template validation is weaker than limit validation, so chain statements are about successful runs.
- Availability of the ledger when its byte bound is smaller than its entry bound needs: `storeRecords` does not check the byte bound, so `LedgerHistory.BytesSuffice`, over the records that the calls at hand can store, is a hypothesis.
- The actor check, rate limit, cancellation and audit record of `Certify`; its certificate is modelled as a function of the accepted request.
- Verification of single recovery events and of recovery attestations, and the signatures on them.
- Release evidence binding files, benchmark and artifact evidence contents beyond their validity checks, and the command-line verifiers.
