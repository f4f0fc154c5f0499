/**
 The order of gates in `serveConnection` (broker/broker.go).

 A connection carries what the operating system, TLS, the JSON decoder, the preflight, the authority
 and the audit sink would answer. The model keeps the limiter's state across connections and the
 visible actions of each.
 */
module BrokerGates {
  import opened Common
  import opened RateLimiter

  datatype Verdict = Authorized | DeniedBy(code: string) | AuthorityDown | OtherFailure

  datatype Connection = Connection(
    peerKnown: bool, peerAllowed: bool, deadlineKnown: bool, deadlineSet: bool, handshakeOk: bool,
    identity: Option<string>, frameOk: bool, envelopeOk: bool, caller: string, reading: Reading, preflightOk: bool,
    verdict: Verdict, auditOk: bool)

  datatype Action =
    | Recorded(reason: string, ok: bool)
    | RateChecked(granted: bool)
    | Preflighted
    | AuthorizeCalled
    | Responded(status: string, reason: string)

  /** The gates before the limiter, in order; Some(reason) closes the connection. */
  function EarlyRefusal(c: Connection): Option<string> {
    if !c.peerKnown then Some("peer_credential_unavailable")
    else if !c.peerAllowed then Some("unexpected_peer_uid")
    else if !c.deadlineKnown then Some("clock_unavailable")
    else if !c.deadlineSet then Some("")
    else if !c.handshakeOk then Some("mutual_tls_failed")
    else if c.identity.None? then Some("untrusted_spiffe_identity")
    else None
  }

  /** The refusals that are answered on the authenticated connection. */
  function FrameRefusal(c: Connection): Option<string>
    requires c.identity.Some?
  {
    if !c.frameOk then Some("malformed_or_oversized_frame")
    else if !c.envelopeOk then Some("malformed_envelope")
    else if c.caller != c.identity.value then Some("spiffe_request_identity_mismatch")
    else None
  }

  /** Record first; answer only what was recorded. */
  function RecordThenAnswer(c: Connection, reason: string, status: string, answer: string): seq<Action> {
    if c.auditOk then [Recorded(reason, true), Responded(status, answer)] else [Recorded(reason, false)]
  }

  predicate ReachesLimiter(c: Connection) {
    EarlyRefusal(c).None? && FrameRefusal(c).None?
  }

  function AfterGrant(c: Connection): seq<Action> {
    if !c.preflightOk then
      [Preflighted] + RecordThenAnswer(c, "host_preflight_unavailable", "unavailable", "host_preflight_unavailable")
    else
      [Preflighted, AuthorizeCalled]
      + match c.verdict
        case Authorized => RecordThenAnswer(c, "authorized", "authorized", "")
        case DeniedBy(code) => RecordThenAnswer(c, code, "denied", code)
        case AuthorityDown => RecordThenAnswer(c, "authority_unavailable", "unavailable", "authority_unavailable")
        case OtherFailure => RecordThenAnswer(c, "authorization_unavailable", "unavailable", "authorization_unavailable")
  }

  /** The limiter's slot for the identity after `serveConnection`. */
  function SlotAfter(limit: Limit, slot: Option<Bucket>, c: Connection): Option<Bucket>
    requires ValidLimit(limit)
  {
    if ReachesLimiter(c) then AllowSlot(limit, slot, c.reading).0 else slot
  }

  /** The actions `serveConnection` takes. */
  function Actions(limit: Limit, slot: Option<Bucket>, c: Connection): seq<Action>
    requires ValidLimit(limit)
  {
    var early := EarlyRefusal(c);
    if early.Some? then (if early.value == "" then [] else [Recorded(early.value, c.auditOk)])
    else
      var refusal := FrameRefusal(c);
      if refusal.Some? then RecordThenAnswer(c, refusal.value, "denied", refusal.value)
      else if !AllowSlot(limit, slot, c.reading).1 then
        [RateChecked(false)] + RecordThenAnswer(c, "rate_limit_exhausted", "denied", "rate_limit_exhausted")
      else [RateChecked(true)] + AfterGrant(c)
  }

  class Broker {
    const limiter: IdentityLimiter

    constructor (limiter: IdentityLimiter)
      ensures this.limiter == limiter
    {
      this.limiter := limiter;
    }

    /** `serveConnection` over the shared limiter. */
    method ServeConnection(c: Connection) returns (actions: seq<Action>)
      requires ValidLimit(limiter.limit)
      modifies limiter
      ensures c.identity.Some? ==>
        var slot := old(Slot(limiter.entries, c.identity.value));
        && Slot(limiter.entries, c.identity.value) == SlotAfter(limiter.limit, slot, c)
        && actions == Actions(limiter.limit, slot, c)
      ensures c.identity.None? ==> limiter.entries == old(limiter.entries) && actions == Actions(limiter.limit, None, c)
      ensures forall other | c.identity != Some(other) :: Slot(limiter.entries, other) == old(Slot(limiter.entries, other))
    {
      var early := EarlyRefusal(c);
      if early.Some? {
        return if early.value == "" then [] else [Recorded(early.value, c.auditOk)];
      }
      var refusal := FrameRefusal(c);
      if refusal.Some? {
        return RecordThenAnswer(c, refusal.value, "denied", refusal.value);
      }
      var granted := limiter.Allow(c.identity.value, c.reading);
      if !granted {
        return [RateChecked(false)] + RecordThenAnswer(c, "rate_limit_exhausted", "denied", "rate_limit_exhausted");
      }
      return [RateChecked(true)] + AfterGrant(c);
    }
  }

  /** Every answer is the last action and follows its audit record; "authorized" is answered only for an authorization. */
  lemma AnswersAreAudited(limit: Limit, slot: Option<Bucket>, c: Connection, i: nat)
    requires ValidLimit(limit) && i < |Actions(limit, slot, c)| && Actions(limit, slot, c)[i].Responded?
    ensures var actions := Actions(limit, slot, c);
            && i == |actions| - 1 && i > 0 && actions[i - 1].Recorded? && actions[i - 1].ok
            && (actions[i].status == "authorized" <==> AuthorizeCalled in actions && c.verdict.Authorized?)
  {
    AuthorityBehindLimiter(limit, slot, c);
    if CallsAuthority(limit, slot, c) {
      AnswerAfterGrant(c, i);
    }
  }

  lemma AnswerAfterGrant(c: Connection, i: nat)
    requires c.preflightOk && i < |[RateChecked(true)] + AfterGrant(c)| && ([RateChecked(true)] + AfterGrant(c))[i].Responded?
    ensures var actions := [RateChecked(true)] + AfterGrant(c);
            && i == |actions| - 1 && i > 0 && actions[i - 1].Recorded? && actions[i - 1].ok
            && (actions[i].status == "authorized" <==> c.verdict.Authorized?)
  {
  }

  /** Every gate in the connection's own fields, the limiter and the preflight let the connection through. */
  ghost predicate CallsAuthority(limit: Limit, slot: Option<Bucket>, c: Connection)
    requires ValidLimit(limit)
  {
    && c.peerKnown && c.peerAllowed && c.deadlineKnown && c.deadlineSet && c.handshakeOk && c.frameOk && c.envelopeOk
    && c.identity == Some(c.caller) && AllowSlot(limit, slot, c.reading).1 && c.preflightOk
  }

  /** The authority is called exactly when every gate, the limiter and the preflight let the connection through. */
  lemma AuthorityBehindLimiter(limit: Limit, slot: Option<Bucket>, c: Connection)
    requires ValidLimit(limit)
    ensures AuthorizeCalled in Actions(limit, slot, c) <==> CallsAuthority(limit, slot, c)
  {
    var actions := Actions(limit, slot, c);
    if CallsAuthority(limit, slot, c) {
      assert actions[2] == AuthorizeCalled;
    }
  }

  // ----- Which gate gives which reason

  /** The reasons of the gates in their order; the deadline that cannot be set closes without one. */
  const REASONS: seq<string> := [
    "peer_credential_unavailable", "unexpected_peer_uid", "clock_unavailable", "", "mutual_tls_failed",
    "untrusted_spiffe_identity", "malformed_or_oversized_frame", "malformed_envelope",
    "spiffe_request_identity_mismatch", "rate_limit_exhausted", "host_preflight_unavailable"]
  const FIRST_ANSWERED: nat := 6
  const PREFLIGHT: nat := 10

  ghost function Gates(limit: Limit, slot: Option<Bucket>, c: Connection): (gates: seq<bool>)
    requires ValidLimit(limit)
    ensures |gates| == |REASONS|
  {
    [c.peerKnown, c.peerAllowed, c.deadlineKnown, c.deadlineSet, c.handshakeOk, c.identity.Some?, c.frameOk, c.envelopeOk,
     c.identity == Some(c.caller), AllowSlot(limit, slot, c.reading).1, c.preflightOk]
  }

  /** Gate `g` is the first closed one. */
  ghost predicate ClosesAt(gates: seq<bool>, g: nat) {
    g < |gates| && !gates[g] && forall h :: 0 <= h < g ==> gates[h]
  }

  /** The actions end in `report`, and before it nothing is recorded, answered or authorized. */
  ghost predicate EndsIn(actions: seq<Action>, report: seq<Action>) {
    && |report| <= |actions| && actions[|actions| - |report|..] == report
    && forall i :: 0 <= i < |actions| - |report| ==> actions[i].RateChecked? || actions[i].Preflighted?
  }

  /** A report that is answered once it is recorded. */
  function Answered(reason: string, status: string, answer: string, recorded: bool): seq<Action> {
    if recorded then [Recorded(reason, true), Responded(status, answer)] else [Recorded(reason, false)]
  }

  /** The first closed gate decides the reason recorded, and whether and how it is answered. */
  lemma FirstClosedGateDecides(limit: Limit, slot: Option<Bucket>, c: Connection, g: nat)
    requires ValidLimit(limit) && ClosesAt(Gates(limit, slot, c), g)
    ensures EndsIn(Actions(limit, slot, c),
                   if REASONS[g] == "" then []
                   else if g < FIRST_ANSWERED then [Recorded(REASONS[g], c.auditOk)]
                   else Answered(REASONS[g], if g == PREFLIGHT then "unavailable" else "denied", REASONS[g], c.auditOk))
  {
    ClosedGate(limit, slot, c, g);
    if g < FIRST_ANSWERED {
      EarlyReport(limit, slot, c);
    } else {
      LateReport(limit, slot, c, g);
    }
  }

  /** The closed gate in terms of the refusals. */
  lemma ClosedGate(limit: Limit, slot: Option<Bucket>, c: Connection, g: nat)
    requires ValidLimit(limit) && ClosesAt(Gates(limit, slot, c), g)
    ensures g < FIRST_ANSWERED ==> EarlyRefusal(c) == Some(REASONS[g])
    ensures FIRST_ANSWERED <= g ==> EarlyRefusal(c) == None
    ensures FIRST_ANSWERED <= g < 9 ==> FrameRefusal(c) == Some(REASONS[g])
    ensures 9 <= g ==> FrameRefusal(c) == None && (g == 9 <==> !AllowSlot(limit, slot, c.reading).1)
    ensures g == PREFLIGHT ==> !c.preflightOk
  {
    var gates := Gates(limit, slot, c);
    assert forall h :: 0 <= h < g ==> gates[h];
    assert g > 0 ==> gates[0];
    assert g > 1 ==> gates[1];
    assert g > 2 ==> gates[2];
    assert g > 3 ==> gates[3];
    assert g > 4 ==> gates[4];
    assert g > 5 ==> gates[5];
    assert g > 6 ==> gates[6];
    assert g > 7 ==> gates[7];
    assert g > 8 ==> gates[8];
    assert g > 9 ==> gates[9];
  }

  lemma EarlyReport(limit: Limit, slot: Option<Bucket>, c: Connection)
    requires ValidLimit(limit) && EarlyRefusal(c).Some?
    ensures Actions(limit, slot, c) == if EarlyRefusal(c).value == "" then [] else [Recorded(EarlyRefusal(c).value, c.auditOk)]
  {
  }

  lemma LateReport(limit: Limit, slot: Option<Bucket>, c: Connection, g: nat)
    requires ValidLimit(limit) && FIRST_ANSWERED <= g <= PREFLIGHT && EarlyRefusal(c).None?
    requires FrameRefusal(c) == if g < 9 then Some(REASONS[g]) else None
    requires g >= 9 ==> (g == 9 <==> !AllowSlot(limit, slot, c.reading).1)
    requires g == PREFLIGHT ==> !c.preflightOk
    ensures EndsIn(Actions(limit, slot, c),
                   Answered(REASONS[g], if g == PREFLIGHT then "unavailable" else "denied", REASONS[g], c.auditOk))
  {
    var report := Answered(REASONS[g], if g == PREFLIGHT then "unavailable" else "denied", REASONS[g], c.auditOk);
    if g < 9 {
      assert Actions(limit, slot, c) == report;
    } else if g == 9 {
      assert Actions(limit, slot, c) == [RateChecked(false)] + report;
    } else {
      assert Actions(limit, slot, c) == [RateChecked(true)] + ([Preflighted] + report);
    }
  }

  /** Behind open gates the authority's verdict decides the report. */
  lemma VerdictDecides(limit: Limit, slot: Option<Bucket>, c: Connection)
    requires ValidLimit(limit) && CallsAuthority(limit, slot, c)
    ensures Actions(limit, slot, c) == [RateChecked(true), Preflighted, AuthorizeCalled] +
      match c.verdict
      case Authorized => Answered("authorized", "authorized", "", c.auditOk)
      case DeniedBy(code) => Answered(code, "denied", code, c.auditOk)
      case AuthorityDown => Answered("authority_unavailable", "unavailable", "authority_unavailable", c.auditOk)
      case OtherFailure => Answered("authorization_unavailable", "unavailable", "authorization_unavailable", c.auditOk)
  {
  }

  // ----- Runs of connections

  /** The limiter's map after the first `n` connections. */
  function EntriesAfter(limit: Limit, cs: seq<Connection>, n: nat): map<string, Bucket>
    requires ValidLimit(limit) && n <= |cs|
  {
    if n == 0 then map[]
    else
      var before, c := EntriesAfter(limit, cs, n - 1), cs[n - 1];
      if c.identity.None? then before
      else
        var slot := SlotAfter(limit, Slot(before, c.identity.value), c);
        if slot.Some? then before[c.identity.value := slot.value] else before
  }

  /** The limiter readings of `identity` among the first `n` connections. */
  function LimiterReadings(cs: seq<Connection>, n: nat, identity: string): seq<Reading>
    requires n <= |cs|
  {
    if n == 0 then []
    else
      var before, c := LimiterReadings(cs, n - 1, identity), cs[n - 1];
      if ReachesLimiter(c) && c.identity.value == identity then before + [c.reading] else before
  }

  /** Only its own connections that reach the limiter touch an identity's slot. */
  lemma SlotStep(limit: Limit, cs: seq<Connection>, n: nat, identity: string)
    requires ValidLimit(limit) && n < |cs|
    ensures var c, slot := cs[n], Slot(EntriesAfter(limit, cs, n), identity);
            Slot(EntriesAfter(limit, cs, n + 1), identity)
            == if ReachesLimiter(c) && c.identity.value == identity then AllowSlot(limit, slot, c.reading).0 else slot
  {
  }

  lemma {:induction false} BrokerSlotIsReplay(limit: Limit, cs: seq<Connection>, n: nat, identity: string)
    requires ValidLimit(limit) && n <= |cs|
    ensures var rs := LimiterReadings(cs, n, identity);
            Slot(EntriesAfter(limit, cs, n), identity) == Replay(limit, rs, |rs|)
  {
    if n > 0 {
      var m := n - 1;
      BrokerSlotIsReplay(limit, cs, m, identity);
      SlotStep(limit, cs, m, identity);
      ReplayAppend(limit, LimiterReadings(cs, m, identity), cs[m].reading);
    }
  }

  /** Connection `n` was of `identity` and nothing kept it from the authority. */
  ghost predicate Reached(limit: Limit, cs: seq<Connection>, n: nat, identity: string)
    requires ValidLimit(limit) && n < |cs|
  {
    && cs[n].identity == Some(identity) && cs[n].reading.At?
    && CallsAuthority(limit, Slot(EntriesAfter(limit, cs, n), identity), cs[n])
  }

  /** Reaching the authority shows in the actions of the connection. */
  lemma ReachedIsCalled(limit: Limit, cs: seq<Connection>, n: nat, identity: string)
    requires ValidLimit(limit) && n < |cs|
    ensures Reached(limit, cs, n, identity) <==>
      && cs[n].identity == Some(identity)
      && AuthorizeCalled in Actions(limit, Slot(EntriesAfter(limit, cs, n), identity), cs[n])
  {
    AuthorityBehindLimiter(limit, Slot(EntriesAfter(limit, cs, n), identity), cs[n]);
  }

  lemma ReachedMeansAllowed(limit: Limit, cs: seq<Connection>, n: nat, identity: string)
    requires ValidLimit(limit) && n < |cs| && Reached(limit, cs, n, identity)
    ensures ReachesLimiter(cs[n]) && cs[n].identity.value == identity && cs[n].reading.At?
    ensures AllowSlot(limit, Slot(EntriesAfter(limit, cs, n), identity), cs[n].reading).1
  {
  }

  /** How many of the connections `i..n` reached the authority for `identity`. */
  ghost function ReachedCount(limit: Limit, cs: seq<Connection>, i: nat, n: nat, identity: string): nat
    requires ValidLimit(limit) && i <= n <= |cs|
  {
    if i == n then 0
    else ReachedCount(limit, cs, i, n - 1, identity) + if Reached(limit, cs, n - 1, identity) then 1 else 0
  }

  lemma {:induction false} ReadingsGrow(cs: seq<Connection>, m: nat, n: nat, identity: string)
    requires m <= n <= |cs|
    ensures LimiterReadings(cs, m, identity) <= LimiterReadings(cs, n, identity)
  {
    if m < n {
      ReadingsGrow(cs, m, n - 1, identity);
    }
  }

  /** Position of connection `n` in its identity's readings: it reaches the authority only if the window rule grants it. */
  lemma ReachedIsGranted(limit: Limit, cs: seq<Connection>, n: nat, end: nat, identity: string)
    requires ValidLimit(limit) && n < end <= |cs| && ReachesLimiter(cs[n]) && cs[n].identity.value == identity
    ensures var rs, k := LimiterReadings(cs, end, identity), |LimiterReadings(cs, n, identity)|;
            k < |rs| && rs[k] == cs[n].reading && (Reached(limit, cs, n, identity) ==> HistoryGrants(limit, rs, k))
  {
    var rs, before := LimiterReadings(cs, end, identity), LimiterReadings(cs, n, identity);
    var k := |before|;
    ReadingsGrow(cs, n + 1, end, identity);
    assert LimiterReadings(cs, n + 1, identity) == before + [cs[n].reading];
    assert rs[..k] == before && rs == before + rs[k..];
    BrokerSlotIsReplay(limit, cs, n, identity);
    ReplayPrefix(limit, before, rs[k..], k);
    ReplaySummarises(limit, rs, k);
    StepIsExact(limit, rs, k, Replay(limit, rs, k));
  }

  /** One more connection adds at most one reading, and a granted one if it reached the authority. */
  lemma ReachedStep(limit: Limit, cs: seq<Connection>, m: nat, end: nat, identity: string)
    requires ValidLimit(limit) && m < end <= |cs|
    ensures var rs, k, k' := LimiterReadings(cs, end, identity), |LimiterReadings(cs, m, identity)|,
                             |LimiterReadings(cs, m + 1, identity)|;
            && k <= k' <= k + 1 && k' <= |rs|
            && (Reached(limit, cs, m, identity) ==> k' == k + 1 && rs[k] == cs[m].reading && HistoryGrants(limit, rs, k))
  {
    ReadingsGrow(cs, m + 1, end, identity);
    if Reached(limit, cs, m, identity) {
      ReachedMeansAllowed(limit, cs, m, identity);
      ReachedIsGranted(limit, cs, m, end, identity);
    }
  }

  lemma {:induction false} ReachedWithinGrants(limit: Limit, cs: seq<Connection>, i: nat, n: nat, end: nat, identity: string)
    requires ValidLimit(limit) && i <= n <= end <= |cs|
    ensures var rs := LimiterReadings(cs, end, identity);
            var a, b := |LimiterReadings(cs, i, identity)|, |LimiterReadings(cs, n, identity)|;
            a <= b <= |rs| && ReachedCount(limit, cs, i, n, identity) <= GrantCount(limit, rs, a, b)
  {
    ReadingsGrow(cs, n, end, identity);
    if i < n {
      var m := n - 1;
      ReachedWithinGrants(limit, cs, i, m, end, identity);
      ReachedStep(limit, cs, m, end, identity);
    }
  }

  /** Two grants and at most as many in between as the window rule counts. */
  lemma GrantedWindow(limit: Limit, rs: seq<Reading>, a: nat, b: nat, count: nat)
    requires ValidLimit(limit) && a < b < |rs| && HistoryGrants(limit, rs, a) && HistoryGrants(limit, rs, b)
    requires count <= GrantCount(limit, rs, a, b)
    ensures (count + 1 - limit.capacity) * limit.refillInterval <= rs[b].ns - rs[a].ns
  {
    var granted := GrantCount(limit, rs, a, b);
    assert Affordable(limit, granted + 1, rs[b].ns - rs[a].ns);
    Scaled(count + 1 - limit.capacity, granted + 1 - limit.capacity, limit.refillInterval);
  }

  lemma Scaled(x: int, y: int, m: nat)
    requires x <= y
    ensures x * m <= y * m
  {
  }

  /**
   In every run of connections and for every identity, the authority is reached, from any connection i
   through any later connection j, at most Capacity + (t_j - t_i) / RefillInterval times: each time beyond
   the capacity is paid for by one whole refill interval.
   */
  lemma AuthorityIsRateLimited(limit: Limit, cs: seq<Connection>, i: nat, j: nat, identity: string)
    requires ValidLimit(limit) && i < j < |cs|
    requires Reached(limit, cs, i, identity) && Reached(limit, cs, j, identity)
    ensures (ReachedCount(limit, cs, i, j + 1, identity) - limit.capacity) * limit.refillInterval
         <= cs[j].reading.ns - cs[i].reading.ns
  {
    var rs, a, b := ReachedPositions(limit, cs, i, j, identity);
    GrantedWindow(limit, rs, a, b, ReachedCount(limit, cs, i, j, identity));
  }

  /** Where two connections that reached the authority stand among their identity's readings. */
  lemma ReachedPositions(limit: Limit, cs: seq<Connection>, i: nat, j: nat, identity: string)
    returns (rs: seq<Reading>, a: nat, b: nat)
    requires ValidLimit(limit) && i < j < |cs|
    requires Reached(limit, cs, i, identity) && Reached(limit, cs, j, identity)
    ensures a < b < |rs| && rs[a] == cs[i].reading && rs[b] == cs[j].reading
    ensures HistoryGrants(limit, rs, a) && HistoryGrants(limit, rs, b)
    ensures ReachedCount(limit, cs, i, j, identity) <= GrantCount(limit, rs, a, b)
  {
    var end := j + 1;
    rs := LimiterReadings(cs, end, identity);
    a, b := |LimiterReadings(cs, i, identity)|, |LimiterReadings(cs, j, identity)|;
    ReachedStep(limit, cs, i, end, identity);
    ReachedStep(limit, cs, j, end, identity);
    ReachedWithinGrants(limit, cs, i, j, end, identity);
    ReadingsGrow(cs, i + 1, j, identity);
  }
}
