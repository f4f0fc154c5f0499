/**
 The kill-first recovery protocol (recovery/authority.go).

 Any number of recoveries run at once over one atomic sequence counter. Every effect, journal
 append and audit record may fail, and a context may be cancelled at any moment; the model
 interleaves the recoveries at each of these actions.
 */
module Recovery {
  import opened Patterns

  /** The actions by stage number: stage 0 records the request, stages 1 to 6 run an effect and record it. */
  const ACTIONS: seq<string> := [
    "recordRequest", "kill", "freeze", "withdrawNetwork", "captureEvidence", "destroy", "cleanRebuildHandoff"]
  const CAPTURE: nat := 4
  const LAST: nat := 6

  datatype Request = Request(
    schema: string, recoveryID: string, cageID: string, callerSpiffeID: string, hostIdentity: string,
    policyDigest: string, reasonCode: string)

  datatype Event = Event(
    request: Request, sequence: nat, stage: nat, outcome: string, code: string, evidence: string)

  datatype Result = Attested(finalSequence: nat, evidence: string) | Denied(code: string) | Unavailable

  /** Where `emit` stands: before the counter, before the journal, before the audit sink. */
  datatype Phase = Unnumbered | Numbered(number: nat) | Journalled(number: nat)

  datatype Process =
    | Emitting(request: Request, stage: nat, outcome: string, code: string, evidence: string, phase: Phase)
    | AboutToRun(request: Request, stage: nat, evidence: string)
    | Finished(result: Result)

  /** What a recovery does, in the order in which the world sees it. */
  datatype Act =
    | Journaled(p: nat, event: Event)
    | Audited(p: nat, event: Event)
    | Effect(p: nat, stage: nat, cageID: string, ok: bool)
    | Broke(p: nat)
    | Returned(p: nat, result: Result)

  datatype State = State(counter: nat, processes: map<nat, Process>, trace: seq<Act>)

  datatype Step =
    | Start(p: nat, request: Request, cancelled: bool)
    | TakeNumber(p: nat)
    | Journal(p: nat, ok: bool)
    | Audit(p: nat, ok: bool)
    | NoticeCancel(p: nat)
    | RunEffect(p: nat, ok: bool, digest: string)

  function RequestCode(r: Request): string {
    if r.schema != "brick.host-isolation.recovery.v1" || !IsUuid(r.recoveryID) || !IsCageID(r.cageID)
       || !IsSpiffe(r.callerSpiffeID) || !IsHostID(r.hostIdentity) || !IsDigest(r.policyDigest)
    then "invalid_request_identity"
    else if r.reasonCode !in ["anomaly", "integrityViolation", "policyViolation", "operatorEmergency"]
    then "invalid_reason_code"
    else ""
  }

  /** The fields of a request that name its parties are well formed. */
  predicate IdentityOk(r: Request) {
    && r.schema == "brick.host-isolation.recovery.v1" && IsUuid(r.recoveryID) && IsCageID(r.cageID)
    && IsSpiffe(r.callerSpiffeID) && IsHostID(r.hostIdentity) && IsDigest(r.policyDigest)
  }

  predicate ReasonOk(r: Request) {
    || r.reasonCode == "anomaly" || r.reasonCode == "integrityViolation" || r.reasonCode == "policyViolation"
    || r.reasonCode == "operatorEmergency"
  }

  /** `code` says which group of fields is at fault. */
  predicate DeservesDenial(r: Request, code: string) {
    || (!IdentityOk(r) && code == "invalid_request_identity")
    || (IdentityOk(r) && !ReasonOk(r) && code == "invalid_reason_code")
  }

  lemma RequestCodeMeans(r: Request)
    ensures RequestCode(r) == "" <==> IdentityOk(r) && ReasonOk(r)
    ensures RequestCode(r) != "" <==> DeservesDenial(r, RequestCode(r))
  {
  }

  predicate Success(outcome: string) {
    outcome == "accepted" || outcome == "completed"
  }

  function EventOf(e: Process): Event
    requires e.Emitting? && !e.phase.Unnumbered?
  {
    Event(e.request, e.phase.number, e.stage, e.outcome, e.code, e.evidence)
  }

  function Set(s: State, p: nat, process: Process, acts: seq<Act>): State {
    s.(processes := s.processes[p := process], trace := s.trace + acts)
  }

  function Stop(s: State, p: nat, result: Result, acts: seq<Act>): State {
    Set(s, p, Finished(result), acts + [Returned(p, result)])
  }

  /** What follows an event that was journaled and audited. */
  function AfterEmit(s: State, p: nat, e: Process): State
    requires e.Emitting? && e.phase.Journalled?
  {
    var audited := Audited(p, EventOf(e));
    if e.outcome == "denied" then Stop(s, p, Denied(e.code), [audited])
    else if e.outcome == "failed" then Stop(s, p, Unavailable, [audited])
    else if e.stage == LAST then Stop(s, p, Attested(e.phase.number, e.evidence), [audited])
    else Set(s, p, AboutToRun(e.request, e.stage + 1, e.evidence), [audited])
  }

  /** The state after one step, when the step is possible. */
  ghost predicate Next(s: State, step: Step, s': State) {
    match step
    case Start(p, request, cancelled) =>
      && p !in s.processes
      && s' == if cancelled then Stop(s, p, Unavailable, [])
               else if RequestCode(request) != "" then
                 Set(s, p, Emitting(request, 0, "denied", RequestCode(request), "", Unnumbered), [])
               else Set(s, p, Emitting(request, 0, "accepted", "accepted", "", Unnumbered), [])
    case TakeNumber(p) =>
      && p in s.processes && s.processes[p].Emitting? && s.processes[p].phase.Unnumbered?
      && s' == Set(s.(counter := s.counter + 1), p, s.processes[p].(phase := Numbered(s.counter + 1)), [])
    case Journal(p, ok) =>
      && p in s.processes && s.processes[p].Emitting? && s.processes[p].phase.Numbered?
      && var e := s.processes[p];
         s' == if ok then Set(s, p, e.(phase := Journalled(e.phase.number)), [Journaled(p, EventOf(e))])
               else Stop(s, p, Unavailable, [Broke(p)])
    case Audit(p, ok) =>
      && p in s.processes && s.processes[p].Emitting? && s.processes[p].phase.Journalled?
      && s' == if ok then AfterEmit(s, p, s.processes[p]) else Stop(s, p, Unavailable, [Broke(p)])
    case NoticeCancel(p) =>
      && p in s.processes && s.processes[p].AboutToRun? && s.processes[p].stage < CAPTURE
      && var r := s.processes[p];
         s' == Set(s, p, Emitting(r.request, r.stage, "failed", "contextCancelled", "", Unnumbered), [Broke(p)])
    case RunEffect(p, ok, digest) =>
      && p in s.processes && s.processes[p].AboutToRun?
      && var r := s.processes[p];
         var done := ok && (r.stage == CAPTURE ==> IsDigest(digest));
         var evidence := if r.stage == CAPTURE then (if done then digest else "") else r.evidence;
         var code := if r.stage == CAPTURE then "evidenceUnavailable" else "stepFailed";
         s' == Set(s, p, if done then Emitting(r.request, r.stage, "completed", "completed", evidence, Unnumbered)
                         else Emitting(r.request, r.stage, "failed", code, evidence, Unnumbered),
                   [Effect(p, r.stage, r.request.cageID, done)])
  }

  const INITIAL: State := State(0, map[], [])

  ghost predicate Execution(states: seq<State>, steps: seq<Step>) {
    && |states| == |steps| + 1 && states[0] == INITIAL
    && forall i :: 0 <= i < |steps| ==> Next(states[i], steps[i], states[i + 1])
  }

  // ----- What the trace shows of one recovery

  /** The effects recovery `p` attempted, in order, with their outcomes. */
  function EffectsOf(trace: seq<Act>, p: nat): seq<(nat, bool)> {
    if trace == [] then []
    else
      var before, last := EffectsOf(trace[..|trace| - 1], p), trace[|trace| - 1];
      if last.Effect? && last.p == p then before + [(last.stage, last.ok)] else before
  }

  /** Recovery `p` journaled and then audited the event. */
  ghost predicate RecordedAs(trace: seq<Act>, p: nat, event: Event) {
    exists j, m :: 0 <= j < m < |trace| && trace[j] == Journaled(p, event) && trace[m] == Audited(p, event)
  }

  ghost predicate Recorded(trace: seq<Act>, p: nat, stage: nat) {
    exists event: Event :: event.stage == stage && Success(event.outcome) && RecordedAs(trace, p, event)
  }

  ghost predicate AllRecorded(trace: seq<Act>, p: nat, stages: nat) {
    forall k: nat :: k < stages ==> Recorded(trace, p, k)
  }

  /** `evidence` is a digest, and recovery `p` journaled and audited it with its successful capture. */
  ghost predicate Captured(trace: seq<Act>, p: nat, evidence: string) {
    IsDigest(evidence) && exists event: Event ::
      event.stage == CAPTURE && Success(event.outcome) && event.evidence == evidence && RecordedAs(trace, p, event)
  }

  /** Effects 1, 2, ... in order, all successful except perhaps the last. */
  ghost predicate InOrder(effects: seq<(nat, bool)>) {
    && |effects| <= LAST
    && forall i :: 0 <= i < |effects| ==> effects[i].0 == i + 1 && (i < |effects| - 1 ==> effects[i].1)
  }

  ghost predicate AllDone(effects: seq<(nat, bool)>, stages: nat) {
    |effects| == stages && forall i :: 0 <= i < |effects| ==> effects[i] == (i + 1, true)
  }

  predicate IsFailure(a: Act, p: nat) {
    a.p == p && (a.Broke? || (a.Effect? && !a.ok))
  }

  ghost predicate Unbroken(trace: seq<Act>, p: nat) {
    forall i :: 0 <= i < |trace| ==> !IsFailure(trace[i], p)
  }

  /** Recovery `p` has not returned. */
  ghost predicate Running(trace: seq<Act>, p: nat) {
    forall i :: 0 <= i < |trace| ==> !(trace[i].p == p && trace[i].Returned?)
  }

  // ----- Which acts a history allows

  /** What a recovery may still do once something of it failed: record the failure, break again, return empty-handed. */
  predicate Aftermath(a: Act) {
    || a.Broke?
    || ((a.Journaled? || a.Audited?) && a.event.outcome == "failed")
    || (a.Returned? && !a.result.Attested?)
  }

  /** The act carries this request: an event names it, an effect is on its cage. */
  predicate Carries(a: Act, request: Request) {
    (a.Journaled? ==> a.event.request == request) && (a.Effect? ==> a.cageID == request.cageID)
  }

  /** Every act of recovery `p` carries this request. */
  ghost predicate AllCarry(trace: seq<Act>, p: nat, request: Request) {
    forall i :: 0 <= i < |trace| && trace[i].p == p ==> Carries(trace[i], request)
  }

  /** A failure of `stage` with this code: a cancellation noticed before an early effect, or the effect itself. */
  ghost predicate Explained(trace: seq<Act>, p: nat, request: Request, stage: nat, code: string) {
    if code == "contextCancelled" then 1 <= stage < CAPTURE && Broke(p) in trace
    else
      && Effect(p, stage, request.cageID, false) in trace
      && code == if stage == CAPTURE then "evidenceUnavailable" else "stepFailed"
  }

  /**
   A success is journaled only after its effect succeeded, a failure only after something failed. A
   request is accepted only if it is valid, and denied only for the fault it has. All events of one
   recovery carry one request.
   */
  ghost predicate Justified(before: seq<Act>, p: nat, event: Event) {
    && AllCarry(before, p, event.request)
    && (Success(event.outcome) ==> IdentityOk(event.request) && ReasonOk(event.request))
    && (Success(event.outcome) && event.stage == 0 ==> event.outcome == "accepted")
    && (event.outcome == "denied" ==> event.stage == 0 && DeservesDenial(event.request, event.code))
    && (Success(event.outcome) && event.stage > 0 ==> Effect(p, event.stage, event.request.cageID, true) in before)
    && (event.outcome == "failed" ==> Explained(before, p, event.request, event.stage, event.code))
  }

  /** Recovery `p` journaled and audited a denial with this code. */
  ghost predicate DenialRecorded(before: seq<Act>, p: nat, code: string) {
    exists event: Event :: event.outcome == "denied" && event.code == code && RecordedAs(before, p, event)
  }

  /** Seven recorded events and six successful effects, the recorded evidence, and the largest number of its recovery. */
  ghost predicate Backed(before: seq<Act>, p: nat, finalSequence: nat, evidence: string) {
    && Captured(before, p, evidence)
    && AllRecorded(before, p, LAST + 1) && AllDone(EffectsOf(before, p), LAST) && Unbroken(before, p)
    && (exists event: Event :: event.stage == LAST && event.sequence == finalSequence && RecordedAs(before, p, event))
    && forall i :: 0 <= i < |before| && before[i].Journaled? && before[i].p == p ==>
      before[i].event.sequence <= finalSequence
      && (before[i].event.sequence == finalSequence ==> before[i].event.stage == LAST)
  }

  ghost predicate Allowed(before: seq<Act>, a: Act) {
    && Running(before, a.p)
    && (!Unbroken(before, a.p) ==> Aftermath(a))
    && match a
       case Effect(p, stage, _, _) => 1 <= stage <= LAST && AllRecorded(before, p, stage) && AllDone(EffectsOf(before, p), stage - 1)
       case Journaled(p, event) => Justified(before, p, event)
       case Audited(p, event) => Journaled(p, event) in before
       case Broke(_) => true
       case Returned(p, Attested(finalSequence, evidence)) => Backed(before, p, finalSequence, evidence)
       case Returned(p, Denied(code)) => EffectsOf(before, p) == [] && DenialRecorded(before, p, code)
       case Returned(_, Unavailable) => true
  }

  /** Every act was allowed by what came before it. */
  ghost predicate TraceOk(trace: seq<Act>) {
    forall i :: 0 <= i < |trace| ==> Allowed(trace[..i], trace[i])
  }

  // ----- Invariant

  predicate HasNumber(process: Process) {
    process.Emitting? && !process.phase.Unnumbered?
  }

  ghost predicate ProcessOk(trace: seq<Act>, p: nat, process: Process) {
    var effects := EffectsOf(trace, p);
    match process
    case Finished(_) => InOrder(effects)
    case AboutToRun(request, stage, evidence) =>
      && AllCarry(trace, p, request) && IdentityOk(request) && ReasonOk(request)
      && (stage > CAPTURE ==> Captured(trace, p, evidence))
      && 1 <= stage <= LAST && AllDone(effects, stage - 1) && AllRecorded(trace, p, stage)
      && Unbroken(trace, p) && Running(trace, p)
    case Emitting(request, stage, outcome, code, evidence, phase) =>
      && AllCarry(trace, p, request)
      && (outcome == "denied" ==> stage == 0 && DeservesDenial(request, code))
      && (Success(outcome) ==> IdentityOk(request) && ReasonOk(request) && (stage == 0 ==> outcome == "accepted"))
      && (Success(outcome) && stage == CAPTURE ==> IsDigest(evidence))
      && (Success(outcome) && stage > CAPTURE ==> Captured(trace, p, evidence))
      && stage <= LAST && Running(trace, p)
      && outcome in ["accepted", "completed", "failed", "denied"]
      && (Success(outcome) ==> AllDone(effects, stage) && AllRecorded(trace, p, stage))
      && (outcome == "denied" ==> effects == [])
      && (if outcome == "failed" then InOrder(effects) && Explained(trace, p, request, stage, code) else Unbroken(trace, p))
      && (phase.Journalled? ==> Journaled(p, EventOf(process)) in trace)
  }

  /** Journaled numbers have been handed out, and none is journaled twice. */
  ghost predicate JournalOk(trace: seq<Act>, counter: nat) {
    && (forall i :: 0 <= i < |trace| && trace[i].Journaled? ==> trace[i].event.sequence <= counter)
    && (forall i, j :: 0 <= i < j < |trace| && trace[i].Journaled? && trace[j].Journaled? ==>
        trace[i].event.sequence != trace[j].event.sequence)
  }

  /** The number a recovery holds: nobody else's, not yet journaled before its turn, and its own largest. */
  ghost predicate PendingOk(trace: seq<Act>, p: nat, process: Process)
    requires HasNumber(process)
  {
    forall i :: 0 <= i < |trace| && trace[i].Journaled? ==>
      && (process.phase.Numbered? ==> trace[i].event.sequence != process.phase.number)
      && (trace[i].p == p ==> trace[i].event.sequence <= process.phase.number)
      && (trace[i].p != p ==> trace[i].event.sequence != process.phase.number)
  }

  /** Numbers are handed out once and each recovery's numbers grow. */
  ghost predicate NumbersOk(s: State) {
    && JournalOk(s.trace, s.counter)
    && (forall p :: p in s.processes && HasNumber(s.processes[p]) ==>
          s.processes[p].phase.number <= s.counter && PendingOk(s.trace, p, s.processes[p]))
    && (forall p, q | p in s.processes && q in s.processes && p != q ::
          HasNumber(s.processes[p]) && HasNumber(s.processes[q]) ==>
            s.processes[p].phase.number != s.processes[q].phase.number)
  }

  ghost predicate OthersOk(trace: seq<Act>, processes: map<nat, Process>, p: nat) {
    forall q :: q in processes && q != p ==> ProcessOk(trace, q, processes[q])
  }

  /** Everything about the trace that does not depend on where recovery `p` stands. */
  ghost predicate Around(trace: seq<Act>, processes: map<nat, Process>, p: nat) {
    && TraceOk(trace) && OthersOk(trace, processes, p)
    && forall i :: 0 <= i < |trace| ==> trace[i].p in processes || trace[i].p == p
  }

  ghost predicate Inv(s: State) {
    && TraceOk(s.trace) && NumbersOk(s)
    && (forall p :: p in s.processes ==> ProcessOk(s.trace, p, s.processes[p]))
    && (forall i :: 0 <= i < |s.trace| ==> s.trace[i].p in s.processes)
  }

  // ----- Growing the trace by one act

  lemma EffectsAppend(trace: seq<Act>, a: Act, p: nat)
    ensures EffectsOf(trace + [a], p)
         == if a.Effect? && a.p == p then EffectsOf(trace, p) + [(a.stage, a.ok)] else EffectsOf(trace, p)
  {
    assert (trace + [a])[..|trace|] == trace;
  }

  lemma RecordedAsGrows(trace: seq<Act>, a: Act, p: nat, event: Event)
    requires RecordedAs(trace, p, event)
    ensures RecordedAs(trace + [a], p, event)
  {
    var j, m :| 0 <= j < m < |trace| && trace[j] == Journaled(p, event) && trace[m] == Audited(p, event);
    var grown := trace + [a];
    assert grown[j] == trace[j] && grown[m] == trace[m];
  }

  lemma AllRecordedGrows(trace: seq<Act>, a: Act, p: nat, stages: nat)
    requires AllRecorded(trace, p, stages)
    ensures AllRecorded(trace + [a], p, stages)
  {
    forall k: nat | k < stages
      ensures Recorded(trace + [a], p, k)
    {
      assert Recorded(trace, p, k);
      var event: Event :| event.stage == k && Success(event.outcome) && RecordedAs(trace, p, event);
      RecordedAsGrows(trace, a, p, event);
    }
  }

  lemma CapturedGrows(trace: seq<Act>, a: Act, p: nat, evidence: string)
    requires Captured(trace, p, evidence)
    ensures Captured(trace + [a], p, evidence)
  {
    var event: Event :|
      event.stage == CAPTURE && Success(event.outcome) && event.evidence == evidence && RecordedAs(trace, p, event);
    RecordedAsGrows(trace, a, p, event);
  }

  lemma MarksGrow(trace: seq<Act>, a: Act, p: nat)
    ensures Unbroken(trace + [a], p) <==> Unbroken(trace, p) && !IsFailure(a, p)
    ensures Running(trace + [a], p) <==> Running(trace, p) && !(a.p == p && a.Returned?)
    ensures forall request :: AllCarry(trace, p, request) && (a.p == p ==> Carries(a, request)) ==> AllCarry(trace + [a], p, request)
  {
    var grown := trace + [a];
    assert grown[|trace|] == a && forall i :: 0 <= i < |trace| ==> grown[i] == trace[i];
    assert !Unbroken(trace, p) ==> !Unbroken(grown, p);
    assert !Running(trace, p) ==> !Running(grown, p);
  }

  lemma TraceGrows(trace: seq<Act>, a: Act)
    requires TraceOk(trace) && Allowed(trace, a)
    ensures TraceOk(trace + [a])
  {
    var grown := trace + [a];
    forall i | 0 <= i < |grown|
      ensures Allowed(grown[..i], grown[i])
    {
      assert grown[..i] == if i < |trace| then trace[..i] else trace;
    }
  }

  /** What one recovery does says nothing about another. */
  lemma OtherUnaffected(trace: seq<Act>, a: Act, q: nat, process: Process)
    requires a.p != q && ProcessOk(trace, q, process)
    ensures ProcessOk(trace + [a], q, process)
  {
    EffectsAppend(trace, a, q);
    MarksGrow(trace, a, q);
    if !process.Finished? && AllRecorded(trace, q, process.stage) {
      AllRecordedGrows(trace, a, q, process.stage);
    }
    if !process.Finished? && Captured(trace, q, process.evidence) {
      CapturedGrows(trace, a, q, process.evidence);
    }
  }

  lemma AroundGrows(trace: seq<Act>, processes: map<nat, Process>, p: nat, a: Act)
    requires Around(trace, processes, p) && a.p == p && Allowed(trace, a)
    ensures Around(trace + [a], processes, p)
  {
    TraceGrows(trace, a);
    forall q | q in processes && q != p
      ensures ProcessOk(trace + [a], q, processes[q])
    {
      OtherUnaffected(trace, a, q, processes[q]);
    }
  }

  /** The frame of every step: only `p` moves. */
  lemma StepFrame(s: State, s': State, p: nat, process: Process)
    requires s'.processes == s.processes[p := process] && Around(s'.trace, s.processes, p)
    requires ProcessOk(s'.trace, p, process) && NumbersOk(s')
    ensures Inv(s')
  {
  }

  lemma NumbersQuiet(s: State, s': State, p: nat, process: Process, acts: seq<Act>)
    requires NumbersOk(s) && s'.counter == s.counter
    requires s'.processes == s.processes[p := process] && !HasNumber(process)
    requires s'.trace == s.trace + acts && forall i :: 0 <= i < |acts| ==> !acts[i].Journaled?
    ensures NumbersOk(s')
  {
    assert forall i :: 0 <= i < |s'.trace| && s'.trace[i].Journaled? ==> i < |s.trace| && s'.trace[i] == s.trace[i];
    forall q | q in s'.processes && HasNumber(s'.processes[q])
      ensures PendingOk(s'.trace, q, s'.processes[q])
    {
      assert PendingOk(s.trace, q, s.processes[q]);
    }
  }

  // ----- Each step keeps the invariant

  /** One act that journals nothing, after which `p` holds no number. */
  lemma QuietStepKeeps(s: State, s': State, p: nat, process: Process, a: Act)
    requires Inv(s) && a.p == p && !a.Journaled? && Allowed(s.trace, a)
    requires s' == Set(s, p, process, [a]) && !HasNumber(process)
    requires ProcessOk(s'.trace, p, process)
    ensures Inv(s')
  {
    AroundGrows(s.trace, s.processes, p, a);
    NumbersQuiet(s, s', p, process, [a]);
    StepFrame(s, s', p, process);
  }

  /** One act and the return that follows it. */
  lemma AroundStops(trace: seq<Act>, processes: map<nat, Process>, p: nat, a: Act, result: Result)
    requires Around(trace, processes, p) && a.p == p && !a.Effect? && InOrder(EffectsOf(trace, p))
    requires Allowed(trace, a) && Allowed(trace + [a], Returned(p, result))
    ensures Around(trace + [a] + [Returned(p, result)], processes, p)
    ensures ProcessOk(trace + [a] + [Returned(p, result)], p, Finished(result))
  {
    AroundGrows(trace, processes, p, a);
    AroundGrows(trace + [a], processes, p, Returned(p, result));
    EffectsAppend(trace, a, p);
    EffectsAppend(trace + [a], Returned(p, result), p);
  }

  lemma StopKeeps(s: State, p: nat, a: Act, s': State, result: Result)
    requires Inv(s) && s' == Stop(s, p, result, [a]) && a.p == p && (a.Broke? || a.Audited?)
    requires Allowed(s.trace, a) && Allowed(s.trace + [a], Returned(p, result)) && InOrder(EffectsOf(s.trace, p))
    ensures Inv(s')
  {
    AroundStops(s.trace, s.processes, p, a, result);
    NumbersStop(s, p, a, s', result);
    StepFrame(s, s', p, Finished(result));
  }

  lemma NumbersStop(s: State, p: nat, a: Act, s': State, result: Result)
    requires NumbersOk(s) && s' == Stop(s, p, result, [a]) && !a.Journaled?
    ensures NumbersOk(s') && s'.trace == s.trace + [a] + [Returned(p, result)]
  {
    var acts := [a] + [Returned(p, result)];
    assert acts == [a, Returned(p, result)];
    NumbersQuiet(s, s', p, Finished(result), acts);
  }

  /** Whatever `emit` was recording, a refusing journal or sink ends the recovery. */
  lemma BreakKeeps(s: State, p: nat, s': State)
    requires Inv(s) && p in s.processes && s.processes[p].Emitting?
    requires s' == Stop(s, p, Unavailable, [Broke(p)])
    ensures Inv(s')
  {
    assert ProcessOk(s.trace, p, s.processes[p]);
    MarksGrow(s.trace, Broke(p), p);
    StopKeeps(s, p, Broke(p), s', Unavailable);
  }

  lemma {:induction false} NoActsYet(s: State, p: nat, trace: seq<Act>)
    requires Inv(s) && p !in s.processes && trace <= s.trace
    ensures EffectsOf(trace, p) == [] && Unbroken(trace, p) && Running(trace, p)
    ensures forall i :: 0 <= i < |trace| ==> trace[i].p != p
  {
    if trace != [] {
      var last := trace[|trace| - 1];
      assert last == s.trace[|trace| - 1];
      NoActsYet(s, p, trace[..|trace| - 1]);
    }
  }

  /** A recovery that has not acted may begin to record what its request deserves. */
  lemma FirstEmit(trace: seq<Act>, p: nat, request: Request)
    requires EffectsOf(trace, p) == [] && Unbroken(trace, p) && Running(trace, p)
    requires forall i :: 0 <= i < |trace| ==> trace[i].p != p
    ensures RequestCode(request) != "" ==>
      ProcessOk(trace, p, Emitting(request, 0, "denied", RequestCode(request), "", Unnumbered))
    ensures RequestCode(request) == "" ==> ProcessOk(trace, p, Emitting(request, 0, "accepted", "accepted", "", Unnumbered))
  {
    RequestCodeMeans(request);
    assert AllCarry(trace, p, request);
  }

  lemma StartKeeps(s: State, step: Step, s': State)
    requires Inv(s) && step.Start? && Next(s, step, s')
    ensures Inv(s')
  {
    var p := step.p;
    NoActsYet(s, p, s.trace);
    if step.cancelled {
      var returned := Returned(p, Unavailable);
      EffectsAppend(s.trace, returned, p);
      assert [] + [returned] == [returned];
      QuietStepKeeps(s, s', p, Finished(Unavailable), returned);
    } else {
      assert s.trace + [] == s.trace;
      FirstEmit(s.trace, p, step.request);
      NumbersQuiet(s, s', p, s'.processes[p], []);
      StepFrame(s, s', p, s'.processes[p]);
    }
  }

  lemma TakeNumberKeeps(s: State, p: nat, s': State)
    requires Inv(s) && Next(s, TakeNumber(p), s')
    ensures Inv(s')
  {
    assert s'.trace == s.trace;
    assert ProcessOk(s.trace, p, s.processes[p]);
    NumberTaken(s, p, s');
    StepFrame(s, s', p, s'.processes[p]);
  }

  lemma NumberTaken(s: State, p: nat, s': State)
    requires NumbersOk(s) && Next(s, TakeNumber(p), s')
    ensures NumbersOk(s')
  {
    assert s'.trace == s.trace;
    forall q | q in s'.processes && HasNumber(s'.processes[q])
      ensures PendingOk(s'.trace, q, s'.processes[q])
    {
      assert q != p ==> PendingOk(s.trace, q, s.processes[q]);
    }
  }

  lemma {:induction false} EffectInTrace(trace: seq<Act>, p: nat, k: nat)
    requires k < |EffectsOf(trace, p)|
    ensures exists i :: 0 <= i < |trace| && trace[i].p == p && trace[i].Effect?
                     && (trace[i].stage, trace[i].ok) == EffectsOf(trace, p)[k]
  {
    var n := |trace| - 1;
    var init, last := trace[..n], trace[n];
    if k < |EffectsOf(init, p)| {
      EffectInTrace(init, p, k);
      var i :| 0 <= i < |init| && init[i].p == p && init[i].Effect? && (init[i].stage, init[i].ok) == EffectsOf(init, p)[k];
      assert trace[i] == init[i];
    } else {
      assert last == trace[n];
    }
  }

  /** The event of `emit` may be journaled, and the process stands right after it. */
  lemma JournalProcessOk(trace: seq<Act>, p: nat, e: Process)
    requires e.Emitting? && e.phase.Numbered? && ProcessOk(trace, p, e)
    ensures Allowed(trace, Journaled(p, EventOf(e)))
    ensures ProcessOk(trace + [Journaled(p, EventOf(e))], p, e.(phase := Journalled(e.phase.number)))
  {
    var a := Journaled(p, EventOf(e));
    EffectsAppend(trace, a, p);
    MarksGrow(trace, a, p);
    if Success(e.outcome) {
      AllRecordedGrows(trace, a, p, e.stage);
      if e.stage > CAPTURE {
        CapturedGrows(trace, a, p, e.evidence);
      }
      if e.stage > 0 {
        EffectInTrace(trace, p, e.stage - 1);
        assert Effect(p, e.stage, e.request.cageID, true) in trace;
      }
    }
  }

  lemma JournalKeeps(s: State, p: nat, s': State)
    requires Inv(s) && Next(s, Journal(p, true), s')
    ensures Inv(s')
  {
    var e := s.processes[p];
    var a := Journaled(p, EventOf(e));
    assert ProcessOk(s.trace, p, e);
    JournalProcessOk(s.trace, p, e);
    JournalNumbers(s, p, s');
    AroundGrows(s.trace, s.processes, p, a);
    StepFrame(s, s', p, s'.processes[p]);
  }

  lemma JournalNumbers(s: State, p: nat, s': State)
    requires NumbersOk(s) && Next(s, Journal(p, true), s')
    ensures NumbersOk(s')
  {
    var e := s.processes[p];
    var act := Journaled(p, EventOf(e));
    assert PendingOk(s.trace, p, e);
    JournalExtends(s.trace, s.counter, act);
    forall q | q in s'.processes && HasNumber(s'.processes[q])
      ensures s'.processes[q].phase.number <= s'.counter && PendingOk(s'.trace, q, s'.processes[q])
    {
      if q != p {
        assert PendingOk(s.trace, q, s.processes[q]);
        PendingExtends(s.trace, q, s.processes[q], act);
      } else {
        OwnPending(s.trace, p, e, act);
      }
    }
  }

  lemma JournalExtends(trace: seq<Act>, counter: nat, act: Act)
    requires JournalOk(trace, counter) && act.Journaled? && act.event.sequence <= counter
    requires forall i :: 0 <= i < |trace| && trace[i].Journaled? ==> trace[i].event.sequence != act.event.sequence
    ensures JournalOk(trace + [act], counter)
  {
  }

  lemma PendingExtends(trace: seq<Act>, q: nat, process: Process, act: Act)
    requires HasNumber(process) && PendingOk(trace, q, process)
    requires act.Journaled? && act.p != q && act.event.sequence != process.phase.number
    ensures PendingOk(trace + [act], q, process)
  {
  }

  lemma OwnPending(trace: seq<Act>, p: nat, e: Process, act: Act)
    requires HasNumber(e) && e.phase.Numbered? && PendingOk(trace, p, e) && act == Journaled(p, EventOf(e))
    ensures PendingOk(trace + [act], p, e.(phase := Journalled(e.phase.number)))
  {
  }

  /** Auditing the journaled event completes its record. */
  lemma AuditRecords(trace: seq<Act>, p: nat, e: Process)
    requires e.Emitting? && e.phase.Journalled? && ProcessOk(trace, p, e)
    ensures Allowed(trace, Audited(p, EventOf(e)))
    ensures RecordedAs(trace + [Audited(p, EventOf(e))], p, EventOf(e))
    ensures Success(e.outcome) ==> AllRecorded(trace + [Audited(p, EventOf(e))], p, e.stage + 1)
    ensures Success(e.outcome) && e.stage >= CAPTURE ==> Captured(trace + [Audited(p, EventOf(e))], p, e.evidence)
  {
    var event, a := EventOf(e), Audited(p, EventOf(e));
    var grown := trace + [a];
    var j :| 0 <= j < |trace| && trace[j] == Journaled(p, event);
    assert grown[j] == trace[j] && grown[|trace|] == a;
    assert RecordedAs(grown, p, event);
    if Success(e.outcome) {
      AllRecordedGrows(trace, a, p, e.stage);
      assert Recorded(grown, p, e.stage);
      if e.stage > CAPTURE {
        CapturedGrows(trace, a, p, e.evidence);
      }
    }
  }

  /** The recovery ends with the audited record of a denial or of a failure. */
  lemma AuditStops(s: State, p: nat, e: Process, s': State, result: Result)
    requires Inv(s) && p in s.processes && s.processes[p] == e && e.Emitting? && e.phase.Journalled?
    requires s' == Stop(s, p, result, [Audited(p, EventOf(e))])
    requires if e.outcome == "denied" then result == Denied(e.code) else e.outcome == "failed" && result.Unavailable?
    ensures Inv(s')
  {
    var a := Audited(p, EventOf(e));
    assert ProcessOk(s.trace, p, e);
    AuditRecords(s.trace, p, e);
    EffectsAppend(s.trace, a, p);
    MarksGrow(s.trace, a, p);
    StopKeeps(s, p, a, s', result);
  }

  lemma AuditAttests(s: State, p: nat, e: Process, s': State)
    requires Inv(s) && p in s.processes && s.processes[p] == e && e.Emitting? && e.phase.Journalled?
    requires Success(e.outcome) && e.stage == LAST
    requires s' == Stop(s, p, Attested(e.phase.number, e.evidence), [Audited(p, EventOf(e))])
    ensures Inv(s')
  {
    var a := Audited(p, EventOf(e));
    FinalAudit(s.trace, p, e);
    FinalIsBacked(s, p, e, s.trace + [a]);
    BackedIsAllowed(s.trace + [a], p, e.phase.number, e.evidence);
    StopKeeps(s, p, a, s', Attested(e.phase.number, e.evidence));
  }

  lemma FinalAudit(trace: seq<Act>, p: nat, e: Process)
    requires e.Emitting? && e.phase.Journalled? && Success(e.outcome) && ProcessOk(trace, p, e)
    ensures Allowed(trace, Audited(p, EventOf(e))) && InOrder(EffectsOf(trace, p))
    ensures Running(trace + [Audited(p, EventOf(e))], p)
  {
    AuditRecords(trace, p, e);
    MarksGrow(trace, Audited(p, EventOf(e)), p);
  }

  lemma BackedIsAllowed(trace: seq<Act>, p: nat, finalSequence: nat, evidence: string)
    requires Backed(trace, p, finalSequence, evidence) && Running(trace, p)
    ensures Allowed(trace, Returned(p, Attested(finalSequence, evidence)))
  {
  }

  lemma FinalIsBacked(s: State, p: nat, e: Process, grown: seq<Act>)
    requires Inv(s) && p in s.processes && s.processes[p] == e && e.Emitting? && e.phase.Journalled?
    requires Success(e.outcome) && e.stage == LAST
    requires grown == s.trace + [Audited(p, EventOf(e))]
    ensures Backed(grown, p, e.phase.number, e.evidence)
  {
    var a := Audited(p, EventOf(e));
    assert ProcessOk(s.trace, p, e);
    AuditRecords(s.trace, p, e);
    EffectsAppend(s.trace, a, p);
    MarksGrow(s.trace, a, p);
    FinalIsLargest(s, p, e, grown);
  }

  lemma FinalIsLargest(s: State, p: nat, e: Process, grown: seq<Act>)
    requires NumbersOk(s) && p in s.processes && s.processes[p] == e && e.Emitting? && e.phase.Journalled?
    requires Journaled(p, EventOf(e)) in s.trace && grown == s.trace + [Audited(p, EventOf(e))]
    ensures forall i :: 0 <= i < |grown| && grown[i].Journaled? && grown[i].p == p ==>
      && grown[i].event.sequence <= e.phase.number
      && (grown[i].event.sequence == e.phase.number ==> grown[i].event.stage == e.stage)
  {
    var j :| 0 <= j < |s.trace| && s.trace[j] == Journaled(p, EventOf(e));
    forall i | 0 <= i < |grown| && grown[i].Journaled? && grown[i].p == p
      ensures grown[i].event.sequence <= e.phase.number
      ensures grown[i].event.sequence == e.phase.number ==> grown[i].event.stage == e.stage
    {
      assert i < |s.trace| && grown[i] == s.trace[i];
      assert PendingOk(s.trace, p, e);
      if s.trace[i].event.sequence == e.phase.number {
        assert i == j;
      }
    }
  }

  lemma AdvanceKeeps(s: State, p: nat, e: Process, s': State)
    requires Inv(s) && p in s.processes && s.processes[p] == e && e.Emitting? && e.phase.Journalled?
    requires Success(e.outcome) && e.stage < LAST
    requires s' == Set(s, p, AboutToRun(e.request, e.stage + 1, e.evidence), [Audited(p, EventOf(e))])
    ensures Inv(s')
  {
    var a := Audited(p, EventOf(e));
    assert ProcessOk(s.trace, p, e);
    AuditRecords(s.trace, p, e);
    EffectsAppend(s.trace, a, p);
    MarksGrow(s.trace, a, p);
    QuietStepKeeps(s, s', p, s'.processes[p], a);
  }

  lemma EmittingOutcome(trace: seq<Act>, p: nat, e: Process)
    requires e.Emitting? && ProcessOk(trace, p, e)
    ensures e.stage <= LAST && (e.outcome == "denied" || e.outcome == "failed" || Success(e.outcome))
  {
  }

  lemma AuditKeeps(s: State, p: nat, s': State)
    requires Inv(s) && Next(s, Audit(p, true), s')
    ensures Inv(s')
  {
    var e := s.processes[p];
    assert s' == AfterEmit(s, p, e);
    EmittingOutcome(s.trace, p, e);
    if e.outcome == "denied" {
      AuditStops(s, p, e, s', Denied(e.code));
    } else if e.outcome == "failed" {
      AuditStops(s, p, e, s', Unavailable);
    } else if e.stage == LAST {
      AuditAttests(s, p, e, s');
    } else {
      AdvanceKeeps(s, p, e, s');
    }
  }

  lemma CancelProcessOk(trace: seq<Act>, p: nat, r: Process)
    requires r.AboutToRun? && r.stage < CAPTURE && ProcessOk(trace, p, r)
    ensures Allowed(trace, Broke(p))
    ensures ProcessOk(trace + [Broke(p)], p, Emitting(r.request, r.stage, "failed", "contextCancelled", "", Unnumbered))
  {
    assert (trace + [Broke(p)])[|trace|] == Broke(p);
    EffectsAppend(trace, Broke(p), p);
    MarksGrow(trace, Broke(p), p);
  }

  lemma CancelKeeps(s: State, p: nat, s': State)
    requires Inv(s) && Next(s, NoticeCancel(p), s')
    ensures Inv(s')
  {
    CancelProcessOk(s.trace, p, s.processes[p]);
    QuietStepKeeps(s, s', p, s'.processes[p], Broke(p));
  }

  lemma RunEffectKeeps(s: State, step: Step, s': State)
    requires Inv(s) && step.RunEffect? && Next(s, step, s')
    ensures Inv(s')
  {
    var p, r := step.p, s.processes[step.p];
    var done := step.ok && (r.stage == CAPTURE ==> IsDigest(step.digest));
    assert ProcessOk(s.trace, p, r);
    EffectProcessOk(s.trace, p, r, Effect(p, r.stage, r.request.cageID, done), s'.processes[p]);
    QuietStepKeeps(s, s', p, s'.processes[p], Effect(p, r.stage, r.request.cageID, done));
  }

  lemma EffectProcessOk(trace: seq<Act>, p: nat, r: Process, a: Act, e: Process)
    requires r.AboutToRun? && ProcessOk(trace, p, r) && a.Effect? && a.p == p && a.stage == r.stage
    requires e.Emitting? && e.request == r.request && e.stage == r.stage && e.phase.Unnumbered?
    requires a.cageID == r.request.cageID && (!a.ok ==> e.code == if r.stage == CAPTURE then "evidenceUnavailable" else "stepFailed")
    requires a.ok ==> if e.stage == CAPTURE then IsDigest(e.evidence) else e.evidence == r.evidence
    requires e.outcome == if a.ok then "completed" else "failed"
    ensures ProcessOk(trace + [a], p, e)
  {
    assert (trace + [a])[|trace|] == a;
    EffectsAppend(trace, a, p);
    MarksGrow(trace, a, p);
    AllRecordedGrows(trace, a, p, r.stage);
    if r.stage > CAPTURE {
      CapturedGrows(trace, a, p, r.evidence);
    }
  }

  lemma StepKeepsInv(s: State, step: Step, s': State)
    requires Inv(s) && Next(s, step, s')
    ensures Inv(s')
  {
    match step
    case Start(_, _, _) => StartKeeps(s, step, s');
    case TakeNumber(p) => TakeNumberKeeps(s, p, s');
    case Journal(p, ok) =>
      if ok {
        JournalKeeps(s, p, s');
      } else {
        BreakKeeps(s, p, s');
      }
    case Audit(p, ok) =>
      if ok {
        AuditKeeps(s, p, s');
      } else {
        BreakKeeps(s, p, s');
      }
    case NoticeCancel(p) => CancelKeeps(s, p, s');
    case RunEffect(_, _, _) => RunEffectKeeps(s, step, s');
  }

  lemma {:induction false} ExecutionKeepsInv(states: seq<State>, steps: seq<Step>, n: nat)
    requires Execution(states, steps) && n <= |steps|
    ensures Inv(states[n])
  {
    if n > 0 {
      ExecutionKeepsInv(states, steps, n - 1);
      StepKeepsInv(states[n - 1], steps[n - 1], states[n]);
    }
  }

  // ----- Theorems over every execution

  function NamesOf(effects: seq<(nat, bool)>): seq<string>
    requires forall i :: 0 <= i < |effects| ==> effects[i].0 <= LAST
  {
    seq(|effects|, i requires 0 <= i < |effects| => ACTIONS[effects[i].0])
  }

  /** Each recovery's effects are a prefix of kill, freeze, withdrawNetwork, capture, destroy, handoff. */
  lemma EffectsArePrefix(states: seq<State>, steps: seq<Step>, n: nat, p: nat)
    requires Execution(states, steps) && n <= |steps|
    ensures InOrder(EffectsOf(states[n].trace, p))
    ensures NamesOf(EffectsOf(states[n].trace, p)) <= ACTIONS[1..]
  {
    ExecutionKeepsInv(states, steps, n);
    EffectsInOrder(states[n], p);
  }

  lemma EffectsInOrder(s: State, p: nat)
    requires Inv(s)
    ensures InOrder(EffectsOf(s.trace, p))
  {
    if p in s.processes {
      assert ProcessOk(s.trace, p, s.processes[p]);
    } else {
      NoActsYet(s, p, s.trace);
    }
  }

  /**
   Before any effect runs, the earlier effects of that recovery all succeeded, every earlier stage has
   been journaled and then audited as a success, and nothing of that recovery has failed.
   */
  lemma EffectsFollowRecords(states: seq<State>, steps: seq<Step>, n: nat, i: nat)
    requires Execution(states, steps) && n <= |steps| && i < |states[n].trace| && states[n].trace[i].Effect?
    ensures var before, a := states[n].trace[..i], states[n].trace[i];
            && 1 <= a.stage <= LAST && AllDone(EffectsOf(before, a.p), a.stage - 1)
            && AllRecorded(before, a.p, a.stage) && Unbroken(before, a.p)
  {
    ExecutionKeepsInv(states, steps, n);
    assert Allowed(states[n].trace[..i], states[n].trace[i]);
  }

  /**
   After a failure of a recovery its only acts are the record of that failure, a further refusal and a
   return without attestation; after its return it does nothing.
   */
  lemma NothingFollowsFailure(states: seq<State>, steps: seq<Step>, n: nat, i: nat, j: nat)
    requires Execution(states, steps) && n <= |steps| && i < j < |states[n].trace|
    requires states[n].trace[i].p == states[n].trace[j].p
    ensures IsFailure(states[n].trace[i], states[n].trace[j].p) ==> Aftermath(states[n].trace[j])
    ensures !states[n].trace[i].Returned?
  {
    ExecutionKeepsInv(states, steps, n);
    var trace := states[n].trace;
    assert Allowed(trace[..j], trace[j]);
    assert trace[..j][i] == trace[i];
  }

  /**
   Records are true: a journaled success of an effect stage has its successful effect before it, a
   journaled failure has a failure before it, and nothing is audited that was not journaled.
   */
  lemma RecordsAreJustified(states: seq<State>, steps: seq<Step>, n: nat, i: nat)
    requires Execution(states, steps) && n <= |steps| && i < |states[n].trace|
    ensures var before, a := states[n].trace[..i], states[n].trace[i];
            && (a.Journaled? ==> Justified(before, a.p, a.event))
            && (a.Audited? ==> Journaled(a.p, a.event) in before)
  {
    ExecutionKeepsInv(states, steps, n);
    assert Allowed(states[n].trace[..i], states[n].trace[i]);
  }

  /**
   An attestation implies that all six effects succeeded, nothing failed, and seven successes were
   journaled and audited; it carries the captured evidence and the recovery's largest number. A denial
   implies no effect.
   */
  lemma AttestationIsBacked(states: seq<State>, steps: seq<Step>, n: nat, i: nat)
    requires Execution(states, steps) && n <= |steps| && i < |states[n].trace| && states[n].trace[i].Returned?
    ensures var before, a := states[n].trace[..i], states[n].trace[i];
            && (a.result.Attested? ==> Backed(before, a.p, a.result.finalSequence, a.result.evidence))
            && (a.result.Denied? ==> EffectsOf(before, a.p) == [])
  {
    ExecutionKeepsInv(states, steps, n);
    assert Allowed(states[n].trace[..i], states[n].trace[i]);
  }

  // ----- Which requests take effect

  /** Recovery `p` works for this request. */
  ghost predicate Serves(s: State, p: nat, request: Request) {
    && p in s.processes && AllCarry(s.trace, p, request)
    && (s.processes[p].Finished? || s.processes[p].request == request)
  }

  lemma StartServes(s: State, step: Step, s': State)
    requires Inv(s) && step.Start? && Next(s, step, s')
    ensures Serves(s', step.p, step.request)
  {
    NoActsYet(s, step.p, s.trace);
    assert forall i :: |s.trace| <= i < |s'.trace| ==> s'.trace[i].Returned?;
  }

  /** No later step changes what a recovery works for. */
  lemma StepServes(s: State, step: Step, s': State, p: nat, request: Request)
    requires Serves(s, p, request) && Next(s, step, s')
    ensures Serves(s', p, request)
  {
    assert s.trace <= s'.trace;
    forall i | 0 <= i < |s'.trace| && s'.trace[i].p == p
      ensures Carries(s'.trace[i], request)
    {
      if i < |s.trace| {
        assert s'.trace[i] == s.trace[i];
      }
    }
  }

  lemma {:induction false} ServesThroughout(states: seq<State>, steps: seq<Step>, k: nat, n: nat)
    requires Execution(states, steps) && k < n <= |steps| && steps[k].Start?
    ensures Serves(states[n], steps[k].p, steps[k].request)
  {
    if n == k + 1 {
      ExecutionKeepsInv(states, steps, k);
      StartServes(states[k], steps[k], states[n]);
    } else {
      ServesThroughout(states, steps, k, n - 1);
      StepServes(states[n - 1], steps[n - 1], states[n], steps[k].p, steps[k].request);
    }
  }

  /** A recorded event was journaled, and rightly. */
  lemma RecordedIsJustified(trace: seq<Act>, i: nat, p: nat, event: Event) returns (j: nat)
    requires TraceOk(trace) && i <= |trace| && RecordedAs(trace[..i], p, event)
    ensures j < i && trace[j] == Journaled(p, event) && Justified(trace[..j], p, event)
  {
    var a, b :| 0 <= a < b < i && trace[..i][a] == Journaled(p, event) && trace[..i][b] == Audited(p, event);
    j := a;
    assert Allowed(trace[..j], trace[j]);
  }

  /** The request was recorded as accepted. */
  ghost predicate AcceptedAs(trace: seq<Act>, p: nat, request: Request) {
    exists event: Event ::
      event.stage == 0 && event.outcome == "accepted" && event.request == request && RecordedAs(trace, p, event)
  }

  lemma AcceptedBeforeEffects(trace: seq<Act>, i: nat, p: nat, request: Request)
    requires TraceOk(trace) && i <= |trace| && AllCarry(trace, p, request) && Recorded(trace[..i], p, 0)
    ensures AcceptedAs(trace[..i], p, request) && IdentityOk(request) && ReasonOk(request)
  {
    var event: Event :| event.stage == 0 && Success(event.outcome) && RecordedAs(trace[..i], p, event);
    var j := RecordedIsJustified(trace, i, p, event);
    assert Carries(trace[j], request);
  }

  lemma DenialIsDeserved(trace: seq<Act>, i: nat, p: nat, request: Request, code: string)
    requires TraceOk(trace) && i <= |trace| && AllCarry(trace, p, request) && DenialRecorded(trace[..i], p, code)
    ensures DeservesDenial(request, code)
  {
    var event: Event :| event.outcome == "denied" && event.code == code && RecordedAs(trace[..i], p, event);
    var j := RecordedIsJustified(trace, i, p, event);
    assert Carries(trace[j], request);
  }

  /**
   Over every execution, what a recovery started with a request does is about that request: its events
   carry it and its effects are on its cage. An effect happens only if the request has well-formed
   parties and one of the four reasons, and only after it was recorded as accepted; a denial is
   returned only for the group of fields at fault.
   */
  lemma OnlyValidRequestsTakeEffect(states: seq<State>, steps: seq<Step>, k: nat, n: nat, i: nat)
    requires Execution(states, steps) && k < n <= |steps| && steps[k].Start?
    requires i < |states[n].trace| && states[n].trace[i].p == steps[k].p
    ensures var before, a, request := states[n].trace[..i], states[n].trace[i], steps[k].request;
            && Carries(a, request)
            && (a.Effect? ==> IdentityOk(request) && ReasonOk(request) && AcceptedAs(before, a.p, request))
            && (a.Returned? && a.result.Attested? ==> IdentityOk(request) && ReasonOk(request))
            && (a.Returned? && a.result.Denied? ==> DeservesDenial(request, a.result.code))
  {
    ExecutionKeepsInv(states, steps, n);
    ServesThroughout(states, steps, k, n);
    var trace, request := states[n].trace, steps[k].request;
    var a := trace[i];
    assert Allowed(trace[..i], a);
    if a.Effect? || (a.Returned? && a.result.Attested?) {
      assert Recorded(trace[..i], a.p, 0);
      AcceptedBeforeEffects(trace, i, a.p, request);
    }
    if a.Returned? && a.result.Denied? {
      DenialIsDeserved(trace, i, a.p, request, a.result.code);
    }
  }

  /** No two journaled events, of any recoveries, share a sequence number. */
  lemma SequenceNumbersAreDistinct(states: seq<State>, steps: seq<Step>, n: nat, i: nat, j: nat)
    requires Execution(states, steps) && n <= |steps| && i < j < |states[n].trace|
    requires states[n].trace[i].Journaled? && states[n].trace[j].Journaled?
    ensures states[n].trace[i].event.sequence != states[n].trace[j].event.sequence
  {
    ExecutionKeepsInv(states, steps, n);
  }

  // ----- One recovery as the source runs it

  /** `s'` is reached from `s` by these steps. */
  ghost predicate RunsTo(s: State, steps: seq<Step>, s': State) {
    if steps == [] then s' == s
    else
      var init, last := steps[..|steps| - 1], steps[|steps| - 1];
      exists mid :: RunsTo(s, init, mid) && Next(mid, last, s')
  }

  lemma {:induction false} RunsKeepInv(s: State, steps: seq<Step>, s': State)
    requires Inv(s) && RunsTo(s, steps, s')
    ensures Inv(s')
  {
    if steps != [] {
      var init, last := steps[..|steps| - 1], steps[|steps| - 1];
      var mid :| RunsTo(s, init, mid) && Next(mid, last, s');
      RunsKeepInv(s, init, mid);
      StepKeepsInv(mid, last, s');
    }
  }

  lemma RunsOn(s: State, steps: seq<Step>, mid: State, step: Step, s': State)
    requires RunsTo(s, steps, mid) && Next(mid, step, s')
    ensures RunsTo(s, steps + [step], s')
  {
    assert (steps + [step])[..|steps|] == steps;
  }

  /** What the environment decides at each stage. */
  datatype Oracle = Oracle(
    cancelledAtEntry: bool, cancelledBefore: nat -> bool, effectOk: nat -> bool, digest: string, journalOk: nat -> bool,
    auditOk: nat -> bool)

  /** Nothing the environment decides stops the recovery at this stage. */
  ghost predicate StageWell(oracle: Oracle, stage: nat) {
    && oracle.journalOk(stage) && oracle.auditOk(stage)
    && (stage > 0 ==> EffectWell(oracle, stage))
  }

  ghost predicate EffectWell(oracle: Oracle, stage: nat) {
    && !(stage < CAPTURE && oracle.cancelledBefore(stage)) && oracle.effectOk(stage)
    && (stage == CAPTURE ==> IsDigest(oracle.digest))
  }

  ghost predicate AllWell(oracle: Oracle, stages: nat) {
    forall k: nat :: k < stages ==> StageWell(oracle, k)
  }

  /** Where `emit` leaves the process when nothing refuses. */
  function Told(e: Process): Process
    requires e.Emitting? && e.phase.Journalled?
  {
    if e.outcome == "denied" then Finished(Denied(e.code))
    else if e.outcome == "failed" then Finished(Unavailable)
    else if e.stage == LAST then Finished(Attested(e.phase.number, e.evidence))
    else AboutToRun(e.request, e.stage + 1, e.evidence)
  }

  /** About to run a stage before which all went well, or finished with what the stages deserve. */
  ghost predicate OnCourse(oracle: Oracle, process: Process) {
    match process
    case AboutToRun(_, stage, _) => stage <= LAST && AllWell(oracle, stage)
    case Finished(result) => !result.Denied? && (result.Attested? <==> AllWell(oracle, LAST + 1))
    case Emitting(_, _, _, _, _, _) => false
  }

  lemma StageStaysOnCourse(oracle: Oracle, e: Process, next: Process)
    requires e.Emitting? && e.phase.Journalled? && e.stage <= LAST && AllWell(oracle, e.stage)
    requires e.outcome == if e.stage == 0 then "accepted" else if EffectWell(oracle, e.stage) then "completed" else "failed"
    requires next == if oracle.journalOk(e.stage) && oracle.auditOk(e.stage) then Told(e) else Finished(Unavailable)
    ensures OnCourse(oracle, next)
  {
    if StageWell(oracle, e.stage) {
      assert AllWell(oracle, e.stage + 1);
    } else {
      assert !AllWell(oracle, LAST + 1);
    }
  }

  class RecoveryAuthority {
    var s: State

    constructor ()
      ensures s == INITIAL
    {
      s := INITIAL;
    }

    /** `emit` takes its number. */
    method Number(p: nat, ghost start: State, ghost before: seq<Step>)
      requires p in s.processes && s.processes[p].Emitting? && s.processes[p].phase.Unnumbered?
      requires RunsTo(start, before, s)
      modifies this
      ensures RunsTo(start, before + [TakeNumber(p)], s) && p in s.processes && s.counter == old(s.counter) + 1
      ensures s.processes[p] == old(s.processes[p]).(phase := Numbered(s.counter))
    {
      ghost var s0 := s;
      s := Set(s.(counter := s.counter + 1), p, s.processes[p].(phase := Numbered(s.counter + 1)), []);
      RunsOn(start, before, s0, TakeNumber(p), s);
    }

    /** `emit` appends to the journal. */
    method Append(p: nat, ok: bool, ghost start: State, ghost before: seq<Step>)
      requires p in s.processes && s.processes[p].Emitting? && s.processes[p].phase.Numbered?
      requires RunsTo(start, before, s)
      modifies this
      ensures RunsTo(start, before + [Journal(p, ok)], s) && p in s.processes && s.counter == old(s.counter)
      ensures var e := old(s.processes[p]);
              s.processes[p] == if ok then e.(phase := Journalled(e.phase.number)) else Finished(Unavailable)
    {
      ghost var s0 := s;
      var e := s.processes[p];
      if ok {
        s := Set(s, p, e.(phase := Journalled(e.phase.number)), [Journaled(p, EventOf(e))]);
      } else {
        s := Stop(s, p, Unavailable, [Broke(p)]);
      }
      RunsOn(start, before, s0, Journal(p, ok), s);
    }

    /** `emit` tells the audit sink, and its caller goes on or returns. */
    method Tell(p: nat, ok: bool, ghost start: State, ghost before: seq<Step>)
      requires p in s.processes && s.processes[p].Emitting? && s.processes[p].phase.Journalled?
      requires RunsTo(start, before, s)
      modifies this
      ensures RunsTo(start, before + [Audit(p, ok)], s) && p in s.processes && s.counter == old(s.counter)
      ensures s.processes[p] == if ok then Told(old(s.processes[p])) else Finished(Unavailable)
    {
      ghost var s0 := s;
      if ok {
        s := AfterEmit(s, p, s.processes[p]);
      } else {
        s := Stop(s, p, Unavailable, [Broke(p)]);
      }
      RunsOn(start, before, s0, Audit(p, ok), s);
    }

    /** `emit`, with what its caller does on each outcome. */
    method Emit(p: nat, oracle: Oracle, ghost start: State, ghost before: seq<Step>) returns (ghost steps: seq<Step>)
      requires p in s.processes && s.processes[p].Emitting? && s.processes[p].phase.Unnumbered?
      requires RunsTo(start, before, s)
      modifies this
      ensures RunsTo(start, steps, s) && p in s.processes
      ensures before <= steps && s.counter == old(s.counter) + 1
      ensures var e := old(s.processes[p]);
              s.processes[p] == if oracle.journalOk(e.stage) && oracle.auditOk(e.stage)
                                then Told(e.(phase := Journalled(s.counter))) else Finished(Unavailable)
    {
      Number(p, start, before);
      steps := before + [TakeNumber(p)];
      var journaled := oracle.journalOk(s.processes[p].stage);
      Append(p, journaled, start, steps);
      steps := steps + [Journal(p, journaled)];
      if !journaled {
        return;
      }
      var audited := oracle.auditOk(s.processes[p].stage);
      Tell(p, audited, start, steps);
      steps := steps + [Audit(p, audited)];
    }

    /** One effect stage, or the cancellation noticed before it. */
    method Perform(p: nat, oracle: Oracle, ghost start: State, ghost before: seq<Step>) returns (ghost steps: seq<Step>)
      requires p in s.processes && s.processes[p].AboutToRun? && s.processes[p].stage <= LAST && RunsTo(start, before, s)
      modifies this
      ensures RunsTo(start, steps, s) && p in s.processes && before <= steps && s.counter == old(s.counter)
      ensures s.processes[p].Emitting? && s.processes[p].phase.Unnumbered?
      ensures s.processes[p].stage == old(s.processes[p].stage)
      ensures s.processes[p].outcome == if EffectWell(oracle, old(s.processes[p].stage)) then "completed" else "failed"
    {
      var r := s.processes[p];
      ghost var s0 := s;
      if r.stage < CAPTURE && oracle.cancelledBefore(r.stage) {
        s := Set(s, p, Emitting(r.request, r.stage, "failed", "contextCancelled", "", Unnumbered), [Broke(p)]);
        RunsOn(start, before, s0, NoticeCancel(p), s);
        steps := before + [NoticeCancel(p)];
        return;
      }
      var ok := oracle.effectOk(r.stage);
      var done := ok && (r.stage == CAPTURE ==> IsDigest(oracle.digest));
      var evidence := if r.stage == CAPTURE then (if done then oracle.digest else "") else r.evidence;
      var code := if r.stage == CAPTURE then "evidenceUnavailable" else "stepFailed";
      s := Set(s, p, if done then Emitting(r.request, r.stage, "completed", "completed", evidence, Unnumbered)
                     else Emitting(r.request, r.stage, "failed", code, evidence, Unnumbered),
               [Effect(p, r.stage, r.request.cageID, done)]);
      RunsOn(start, before, s0, RunEffect(p, ok, oracle.digest), s);
      steps := before + [RunEffect(p, ok, oracle.digest)];
    }

    /**
     `SuspendAndRecover`: every run of it is a run of the step machine that starts with the request, and
     it always finishes. It attests exactly when the request is valid and nothing stops any stage, and
     denies exactly when the request is invalid and the denial is recorded.
     */
    method SuspendAndRecover(p: nat, request: Request, oracle: Oracle) returns (result: Result, ghost steps: seq<Step>)
      requires p !in s.processes
      modifies this
      ensures RunsTo(old(s), steps, s) && p in s.processes && s.processes[p] == Finished(result)
      ensures steps != [] && steps[0] == Start(p, request, oracle.cancelledAtEntry)
      ensures result.Attested? <==>
        !oracle.cancelledAtEntry && IdentityOk(request) && ReasonOk(request) && AllWell(oracle, LAST + 1)
      ensures result.Denied? <==>
        && !oracle.cancelledAtEntry && !(IdentityOk(request) && ReasonOk(request))
        && oracle.journalOk(0) && oracle.auditOk(0)
      ensures result.Denied? ==> DeservesDenial(request, result.code)
      ensures Inv(old(s)) ==> Inv(s)
    {
      ghost var start, s0 := s, s;
      RequestCodeMeans(request);
      if oracle.cancelledAtEntry {
        s := Stop(s, p, Unavailable, []);
      } else if RequestCode(request) != "" {
        s := Set(s, p, Emitting(request, 0, "denied", RequestCode(request), "", Unnumbered), []);
      } else {
        s := Set(s, p, Emitting(request, 0, "accepted", "accepted", "", Unnumbered), []);
      }
      steps := [];
      RunsOn(start, steps, s0, Start(p, request, oracle.cancelledAtEntry), s);
      steps := steps + [Start(p, request, oracle.cancelledAtEntry)];
      if oracle.cancelledAtEntry {
        result := Unavailable;
      } else if RequestCode(request) != "" {
        steps := Emit(p, oracle, start, steps);
        result := s.processes[p].result;
      } else {
        result, steps := Proceed(p, oracle, start, steps);
      }
      if Inv(start) {
        RunsKeepInv(start, steps, s);
      }
    }

    /** Everything after a valid request: stage after stage until something stops it. */
    method Proceed(p: nat, oracle: Oracle, ghost start: State, ghost before: seq<Step>)
      returns (result: Result, ghost steps: seq<Step>)
      requires p in s.processes && s.processes[p].Emitting? && s.processes[p].phase.Unnumbered?
      requires s.processes[p].stage == 0 && s.processes[p].outcome == "accepted" && RunsTo(start, before, s)
      modifies this
      ensures RunsTo(start, steps, s) && before <= steps && p in s.processes && s.processes[p] == Finished(result)
      ensures !result.Denied? && (result.Attested? <==> AllWell(oracle, LAST + 1))
    {
      ghost var e := s.processes[p];
      steps := Emit(p, oracle, start, before);
      StageStaysOnCourse(oracle, e.(phase := Journalled(s.counter)), s.processes[p]);
      while s.processes[p].AboutToRun?
        invariant p in s.processes && RunsTo(start, steps, s) && before <= steps && OnCourse(oracle, s.processes[p])
        decreases if s.processes[p].AboutToRun? then LAST + 1 - s.processes[p].stage else 0
      {
        steps := Perform(p, oracle, start, steps);
        e := s.processes[p];
        steps := Emit(p, oracle, start, steps);
        StageStaysOnCourse(oracle, e.(phase := Journalled(s.counter)), s.processes[p]);
      }
      result := s.processes[p].result;
    }
  }
}
