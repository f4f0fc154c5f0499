/**
 The purging ledger against a ledger that never forgets (broker/ledger.go).

 The reference keeps every record ever accepted and filters it by the current reading. The
 implementation keeps only what survived the last store. Without I/O faults, and with a byte
 bound that holds the ledgers the calls can produce, callers with given clock readings can never
 tell them apart exactly when no reading lies above an earlier and a later one.
 */
module LedgerHistory {
  import opened Common
  import opened Orders
  import opened ReplayLedger

  /** The outcome computed from the full history of accepted records. */
  ghost function ReferenceOutcome(cfg: Config, accepted: seq<Record>, call: Call): Result {
    if call.requestID == "" || call.expiresAt == ZERO_TIME then Unavailable(InvalidInput)
    else if !InputOk(call) then Unavailable(ClockOrStale)
    else
      var live := Live(accepted, call.now.value);
      if HasId(live, call.requestID) then Replayed
      else if |live| >= cfg.maxEntries then Unavailable(CapacityExhausted)
      else Claimed
  }

  /** Everything the reference has accepted after `n` calls. */
  ghost function Accepted(cfg: Config, calls: seq<Call>, n: nat): seq<Record>
    requires n <= |calls|
  {
    if n == 0 then []
    else
      var before, call := Accepted(cfg, calls, n - 1), calls[n - 1];
      if ReferenceOutcome(cfg, before, call).Claimed? then before + [Record(call.requestID, call.expiresAt)] else before
  }

  /** A fault-free run of the implementation from a missing file. */
  ghost predicate Run(cfg: Config, calls: seq<Call>, files: seq<Option<seq<Record>>>, results: seq<Result>) {
    && |files| == |calls| + 1 && |results| == |calls|
    && files[0] == None
    && forall n :: 0 <= n < |calls| ==> ClaimStep(cfg, files[n], calls[n], false, NoFault, files[n + 1], results[n])
  }

  // ----- Hypotheses

  /** Well-formed ledgers over these records are within the byte bound. */
  ghost predicate BytesSuffice(cfg: Config, pool: set<Record>) {
    forall records :: WellFormed(records, cfg.maxEntries) && (forall r :: r in records ==> r in pool) ==>
      cfg.size(records) <= cfg.maxLedgerBytes
  }

  function RecordOf(call: Call): Record {
    Record(call.requestID, call.expiresAt)
  }

  /** The records the calls could store. */
  function Pool(calls: seq<Call>): set<Record> {
    set i | 0 <= i < |calls| :: RecordOf(calls[i])
  }

  function Readings(calls: seq<Call>): (r: seq<Option<int>>)
    ensures |r| == |calls| && forall i :: 0 <= i < |calls| ==> r[i] == calls[i].now
  {
    seq(|calls|, i requires 0 <= i < |calls| => calls[i].now)
  }

  predicate Usable(reading: Option<int>) {
    reading.Some? && reading.value != ZERO_TIME
  }

  /** A usable reading above an earlier and a later one. */
  ghost predicate Peak(readings: seq<Option<int>>, i: nat, j: nat, k: nat) {
    && i < j < k < |readings| && Usable(readings[i]) && Usable(readings[j]) && Usable(readings[k])
    && readings[i].value < readings[j].value && readings[k].value < readings[j].value
  }

  ghost predicate NoPeak(readings: seq<Option<int>>) {
    forall i, j, k :: !Peak(readings, i, j, k)
  }

  ghost predicate NonDecreasing(readings: seq<Option<int>>) {
    forall i, j :: 0 <= i < j < |readings| && readings[i].Some? && readings[j].Some? ==>
      readings[i].value <= readings[j].value
  }

  lemma NonDecreasingHasNoPeak(readings: seq<Option<int>>)
    requires NonDecreasing(readings)
    ensures NoPeak(readings)
  {
  }

  function Contents(file: Option<seq<Record>>): seq<Record> {
    if file.Some? then file.value else []
  }

  /** The file and the full history have the same unexpired records at every usable reading still to come. */
  ghost predicate Agrees(cfg: Config, calls: seq<Call>, n: nat, file: Option<seq<Record>>)
    requires n <= |calls|
  {
    forall k :: n <= k < |calls| && Usable(calls[k].now) ==>
      multiset(Live(Contents(file), calls[k].now.value)) == multiset(Live(Accepted(cfg, calls, n), calls[k].now.value))
  }

  /** One of the first `n` calls was valid and asked for `r`. */
  ghost predicate AskedFor(calls: seq<Call>, n: nat, r: Record)
    requires n <= |calls|
  {
    exists i :: 0 <= i < n && InputOk(calls[i]) && RecordOf(calls[i]) == r
  }

  /** What every reachable ledger satisfies. */
  ghost predicate LedgerOk(cfg: Config, calls: seq<Call>, n: nat, file: Option<seq<Record>>)
    requires n <= |calls|
  {
    && WellFormed(Contents(file), cfg.maxEntries)
    && (forall r :: r in Contents(file) ==> AskedFor(calls, n, r))
    && Agrees(cfg, calls, n, file)
  }

  // ----- Live records

  lemma {:induction false} LiveConcat(a: seq<Record>, b: seq<Record>, t: int)
    ensures Live(a + b, t) == Live(a, t) + Live(b, t)
  {
    if a == [] {
      assert a + b == b;
    } else {
      assert (a + b)[1..] == a[1..] + b && (a + b)[0] == a[0];
      LiveConcat(a[1..], b, t);
    }
  }

  lemma {:induction false} LiveLive(s: seq<Record>, now: int, t: int)
    requires now <= t
    ensures Live(Live(s, now), t) == Live(s, t)
  {
    if s != [] {
      LiveLive(s[1..], now, t);
      if s[0].expiresAt > now {
        assert Live(s, now)[1..] == Live(s[1..], now);
      }
    }
  }

  /** Counting the live records commutes with reordering. */
  lemma {:induction false} LiveCount(s: seq<Record>, t: int, r: Record)
    ensures multiset(Live(s, t))[r] == if r.expiresAt > t then multiset(s)[r] else 0
  {
    if s != [] {
      LiveCount(s[1..], t, r);
      assert s == [s[0]] + s[1..];
    }
  }

  lemma LivePermute(s: seq<Record>, u: seq<Record>, t: int)
    requires multiset(s) == multiset(u)
    ensures multiset(Live(s, t)) == multiset(Live(u, t))
  {
    forall r
      ensures multiset(Live(s, t))[r] == multiset(Live(u, t))[r]
    {
      LiveCount(s, t, r);
      LiveCount(u, t, r);
    }
  }

  lemma SameLiveSameOutcome(cfg: Config, a: seq<Record>, b: seq<Record>, call: Call)
    requires InputOk(call)
    requires multiset(Live(a, call.now.value)) == multiset(Live(b, call.now.value))
    ensures ReferenceOutcome(cfg, a, call) == ReferenceOutcome(cfg, b, call)
  {
    var x, y := Live(a, call.now.value), Live(b, call.now.value);
    assert |x| == |multiset(x)| == |multiset(y)| == |y|;
    assert forall r :: r in x <==> r in y by {
      forall r
        ensures r in x <==> r in y
      {
        InMultiset(r, x);
        InMultiset(r, y);
      }
    }
  }

  /** A loadable well-formed file: the implementation's own outcome is the reference outcome of its contents. */
  lemma StepOutcome(cfg: Config, file: Option<seq<Record>>, call: Call, file': Option<seq<Record>>, result: Result)
    requires WellFormed(Contents(file), cfg.maxEntries) && LoadRecords(cfg, file) == Some(Contents(file))
    requires ClaimStep(cfg, file, call, false, NoFault, file', result)
    ensures result == ReferenceOutcome(cfg, Contents(file), call)
    ensures !result.Claimed? ==> file' == file
    ensures result.Claimed? ==>
      && InputOk(call) && file'.Some? && WellFormed(file'.value, cfg.maxEntries)
      && IsSorting(file'.value, Live(Contents(file), call.now.value) + [RecordOf(call)], ById())
  {
    if InputOk(call) {
      ScanIsLive(Contents(file), call.now.value, call.requestID);
      if result.Claimed? {
        StoredIsWellFormed(Contents(file), call.now.value, call.requestID, call.expiresAt, file'.value, cfg.maxEntries);
      }
    }
  }

  lemma ReachableLoads(cfg: Config, calls: seq<Call>, n: nat, file: Option<seq<Record>>)
    requires n <= |calls| && LedgerOk(cfg, calls, n, file) && BytesSuffice(cfg, Pool(calls))
    ensures LoadRecords(cfg, file) == Some(Contents(file))
  {
    forall r | r in Contents(file)
      ensures r in Pool(calls)
    {
      assert AskedFor(calls, n, r);
    }
  }

  /** A reading below the claim's own finds nothing purged: every stored record outlives the claim. */
  lemma {:induction false} AllLive(s: seq<Record>, now: int)
    requires forall r :: r in s ==> r.expiresAt > now
    ensures Live(s, now) == s
  {
    if s != [] {
      AllLive(s[1..], now);
    }
  }

  /** Purging at `calls[n]` is invisible to every later reading. */
  lemma PurgeIsInvisible(cfg: Config, calls: seq<Call>, n: nat, file: Option<seq<Record>>, k: nat)
    requires n < k < |calls| && NoPeak(Readings(calls)) && LedgerOk(cfg, calls, n, file)
    requires InputOk(calls[n]) && Usable(calls[k].now)
    ensures Live(Live(Contents(file), calls[n].now.value), calls[k].now.value) == Live(Contents(file), calls[k].now.value)
  {
    var now, t := calls[n].now.value, calls[k].now.value;
    if now <= t {
      LiveLive(Contents(file), now, t);
    } else {
      forall r | r in Contents(file)
        ensures r.expiresAt > now
      {
        var i :| 0 <= i < n && InputOk(calls[i]) && RecordOf(calls[i]) == r;
        assert !Peak(Readings(calls), i, n, k);
      }
      AllLive(Contents(file), now);
    }
  }

  lemma ClaimKeepsAgreement(cfg: Config, calls: seq<Call>, n: nat, file: Option<seq<Record>>, file': Option<seq<Record>>)
    requires n < |calls| && NoPeak(Readings(calls)) && LedgerOk(cfg, calls, n, file) && InputOk(calls[n])
    requires ReferenceOutcome(cfg, Accepted(cfg, calls, n), calls[n]).Claimed?
    requires file'.Some?
    requires multiset(file'.value) == multiset(Live(Contents(file), calls[n].now.value) + [RecordOf(calls[n])])
    ensures Agrees(cfg, calls, n + 1, file')
  {
    var kept, new_ := Live(Contents(file), calls[n].now.value), [RecordOf(calls[n])];
    forall k | n + 1 <= k < |calls| && Usable(calls[k].now)
      ensures multiset(Live(file'.value, calls[k].now.value)) == multiset(Live(Accepted(cfg, calls, n + 1), calls[k].now.value))
    {
      var t := calls[k].now.value;
      LivePermute(file'.value, kept + new_, t);
      LiveConcat(kept, new_, t);
      PurgeIsInvisible(cfg, calls, n, file, k);
      LiveConcat(Accepted(cfg, calls, n), new_, t);
    }
  }

  lemma ClaimKeepsOrigins(cfg: Config, calls: seq<Call>, n: nat, file: Option<seq<Record>>, stored: seq<Record>)
    requires n < |calls| && LedgerOk(cfg, calls, n, file) && InputOk(calls[n])
    requires multiset(stored) == multiset(Live(Contents(file), calls[n].now.value) + [RecordOf(calls[n])])
    ensures forall r :: r in stored ==> AskedFor(calls, n + 1, r)
  {
    var kept := Live(Contents(file), calls[n].now.value) + [RecordOf(calls[n])];
    LiveMembers(Contents(file), calls[n].now.value);
    forall r | r in stored
      ensures AskedFor(calls, n + 1, r)
    {
      InMultiset(r, stored);
      InMultiset(r, kept);
      if r != RecordOf(calls[n]) {
        assert AskedFor(calls, n, r);
      }
    }
  }

  lemma RefusalKeepsLedger(cfg: Config, calls: seq<Call>, n: nat, file: Option<seq<Record>>)
    requires n < |calls| && LedgerOk(cfg, calls, n, file)
    requires !ReferenceOutcome(cfg, Accepted(cfg, calls, n), calls[n]).Claimed?
    ensures LedgerOk(cfg, calls, n + 1, file)
  {
    forall r | r in Contents(file)
      ensures AskedFor(calls, n + 1, r)
    {
      assert AskedFor(calls, n, r);
    }
  }

  /** One call: the outcome is the full history's, and the ledger stays in agreement. */
  lemma StepRefines(cfg: Config, calls: seq<Call>, n: nat, file: Option<seq<Record>>, file': Option<seq<Record>>,
                    result: Result)
    requires BytesSuffice(cfg, Pool(calls)) && NoPeak(Readings(calls)) && n < |calls|
    requires LedgerOk(cfg, calls, n, file)
    requires ClaimStep(cfg, file, calls[n], false, NoFault, file', result)
    ensures result == ReferenceOutcome(cfg, Accepted(cfg, calls, n), calls[n])
    ensures LedgerOk(cfg, calls, n + 1, file')
  {
    var call := calls[n];
    ReachableLoads(cfg, calls, n, file);
    StepOutcome(cfg, file, call, file', result);
    if InputOk(call) {
      SameLiveSameOutcome(cfg, Contents(file), Accepted(cfg, calls, n), call);
    }
    if result.Claimed? {
      ClaimKeepsAgreement(cfg, calls, n, file, file');
      ClaimKeepsOrigins(cfg, calls, n, file, file'.value);
    } else {
      RefusalKeepsLedger(cfg, calls, n, file);
    }
  }

  lemma {:induction false} RunInvariant(cfg: Config, calls: seq<Call>, files: seq<Option<seq<Record>>>,
                                        results: seq<Result>, n: nat)
    requires BytesSuffice(cfg, Pool(calls)) && NoPeak(Readings(calls)) && Run(cfg, calls, files, results) && n <= |calls|
    ensures LedgerOk(cfg, calls, n, files[n])
  {
    if n > 0 {
      var m := n - 1;
      RunInvariant(cfg, calls, files, results, m);
      assert ClaimStep(cfg, files[m], calls[m], false, NoFault, files[m + 1], results[m]);
      StepRefines(cfg, calls, m, files[m], files[m + 1], results[m]);
    }
  }

  /**
   The purging ledger refines one that never forgets: every outcome is the full history's outcome, as
   long as no reading lies above an earlier and a later one, as none does when the clock never goes back.
   */
  lemma PurgingRefinesHistory(cfg: Config, calls: seq<Call>, files: seq<Option<seq<Record>>>,
                              results: seq<Result>, n: nat)
    requires BytesSuffice(cfg, Pool(calls)) && Run(cfg, calls, files, results) && n < |calls|
    requires NoPeak(Readings(calls))
    ensures results[n] == ReferenceOutcome(cfg, Accepted(cfg, calls, n), calls[n])
    ensures WellFormed(Contents(files[n]), cfg.maxEntries)
  {
    RunInvariant(cfg, calls, files, results, n);
    assert ClaimStep(cfg, files[n], calls[n], false, NoFault, files[n + 1], results[n]);
    StepRefines(cfg, calls, n, files[n], files[n + 1], results[n]);
  }

  // ----- A peak makes the ledger forget

  /** One identity asks before the peak and again after it, expiring at the peak; another asks at the peak. */
  function PeakCalls(readings: seq<Option<int>>, i: nat, j: nat, k: nat, first: Record, other: Record): (calls: seq<Call>)
    ensures |calls| == |readings|
    ensures forall m :: 0 <= m < |readings| ==> calls[m] == PeakCall(readings[m], m, i, j, k, first, other)
  {
    seq(|readings|, m requires 0 <= m < |readings| => PeakCall(readings[m], m, i, j, k, first, other))
  }

  function PeakCall(reading: Option<int>, m: nat, i: nat, j: nat, k: nat, first: Record, other: Record): Call {
    if m == i || m == k then Call(first.requestID, first.expiresAt, reading)
    else if m == j then Call(other.requestID, other.expiresAt, reading)
    else Call("", ZERO_TIME, reading)
  }

  /** The two records fit a peak: the first expires at it, the other after every reading involved. */
  ghost predicate Straddles(readings: seq<Option<int>>, i: nat, j: nat, k: nat, first: Record, other: Record) {
    && Peak(readings, i, j, k) && first.requestID != "" && other.requestID != "" && first.requestID != other.requestID
    && first.expiresAt == readings[j].value < other.expiresAt && other.expiresAt != ZERO_TIME
  }

  /** The ledger loads both one-record files. */
  ghost predicate Loads(cfg: Config, first: Record, other: Record) {
    cfg.maxEntries >= 1 && cfg.size([first]) <= cfg.maxLedgerBytes && cfg.size([other]) <= cfg.maxLedgerBytes
  }

  function PeakFile(m: nat, i: nat, j: nat, k: nat, first: Record, other: Record, last: seq<Record>): Option<seq<Record>> {
    if m <= i then None else if m <= j then Some([first]) else if m <= k then Some([other]) else Some(last)
  }

  lemma {:induction false} PeakAccepted(cfg: Config, readings: seq<Option<int>>, i: nat, j: nat, k: nat,
                                        first: Record, other: Record, m: nat)
    requires Straddles(readings, i, j, k, first, other) && cfg.maxEntries >= 1 && m <= k
    ensures Accepted(cfg, PeakCalls(readings, i, j, k, first, other), m)
         == if m <= i then [] else if m <= j then [first] else [first, other]
  {
    if m > 0 {
      PeakAccepted(cfg, readings, i, j, k, first, other, m - 1);
      PeakOutcomes(cfg, readings, i, j, k, first, other, m - 1);
      assert [] + [first] == [first] && [first] + [other] == [first, other];
    }
  }

  /** The reference accepts at the first two positions and refuses the empty calls. */
  lemma PeakOutcomes(cfg: Config, readings: seq<Option<int>>, i: nat, j: nat, k: nat, first: Record, other: Record, m: nat)
    requires Straddles(readings, i, j, k, first, other) && cfg.maxEntries >= 1 && m < k
    ensures var call := PeakCall(readings[m], m, i, j, k, first, other);
            && (m == i ==> ReferenceOutcome(cfg, [], call) == Claimed && RecordOf(call) == first)
            && (m == j ==> ReferenceOutcome(cfg, [first], call) == Claimed && RecordOf(call) == other)
            && (m != i && m != j ==> forall accepted :: ReferenceOutcome(cfg, accepted, call) == Unavailable(InvalidInput))
  {
    assert [first][1..] == [] && Live([first], first.expiresAt) == [];
  }

  lemma PeakReference(cfg: Config, readings: seq<Option<int>>, i: nat, j: nat, k: nat, first: Record, other: Record)
    requires Straddles(readings, i, j, k, first, other) && cfg.maxEntries >= 1
    ensures var calls := PeakCalls(readings, i, j, k, first, other);
            ReferenceOutcome(cfg, Accepted(cfg, calls, k), calls[k]) == Replayed
  {
    PeakAccepted(cfg, readings, i, j, k, first, other, k);
    LiveMembers([first, other], readings[k].value);
    assert first in [first, other] && first in Live([first, other], readings[k].value);
  }

  /** What the implementation does after the peak has purged the first record. */
  lemma PeakLast(cfg: Config, t: int, first: Record, other: Record) returns (last: seq<Record>, result: Result)
    requires Loads(cfg, first, other) && WellFormedRecord(first) && WellFormedRecord(other)
    requires first.requestID != other.requestID && t != ZERO_TIME && t < first.expiresAt && t < other.expiresAt
    ensures ClaimStep(cfg, Some([other]), Call(first.requestID, first.expiresAt, Some(t)), false, NoFault, Some(last), result)
    ensures result == if cfg.maxEntries >= 2 then Claimed else Unavailable(CapacityExhausted)
  {
    assert [other][1..] == [] && ScanRecords([other], t, first.requestID) == Active([other]);
    if cfg.maxEntries >= 2 {
      result := Claimed;
      last := SortingExists([other] + [first], ById()) by { ByKeyStrictWeak((r: Record) => r.requestID); }
    } else {
      last, result := [other], Unavailable(CapacityExhausted);
    }
  }

  /** The first two claims of the run: the second purges the record of the first. */
  lemma PeakClaims(cfg: Config, s: int, t: int, first: Record, other: Record)
    requires Loads(cfg, first, other) && WellFormedRecord(first) && WellFormedRecord(other)
    requires first.requestID != other.requestID && s != ZERO_TIME && s < t == first.expiresAt < other.expiresAt
    ensures ClaimStep(cfg, None, Call(first.requestID, first.expiresAt, Some(s)), false, NoFault, Some([first]), Claimed)
    ensures ClaimStep(cfg, Some([first]), Call(other.requestID, other.expiresAt, Some(t)), false, NoFault, Some([other]), Claimed)
  {
    assert [first][1..] == [] && [] + [first] == [first] && [] + [other] == [other];
    assert ScanRecords([first], t, other.requestID) == Active([]);
  }

  /** Around any peak some run gives an outcome that the full history contradicts; with room it claims one pair twice. */
  lemma PeakBreaks(cfg: Config, readings: seq<Option<int>>, i: nat, j: nat, k: nat, first: Record, other: Record)
    returns (files: seq<Option<seq<Record>>>, results: seq<Result>)
    requires Straddles(readings, i, j, k, first, other) && Loads(cfg, first, other)
    ensures var calls := PeakCalls(readings, i, j, k, first, other);
            && Run(cfg, calls, files, results)
            && ReferenceOutcome(cfg, Accepted(cfg, calls, k), calls[k]) == Replayed != results[k]
            && (cfg.maxEntries >= 2 ==> results[i] == results[k] == Claimed && RecordOf(calls[i]) == RecordOf(calls[k]))
  {
    var calls := PeakCalls(readings, i, j, k, first, other);
    var last, result := PeakLast(cfg, readings[k].value, first, other);
    PeakClaims(cfg, readings[i].value, readings[j].value, first, other);
    PeakReference(cfg, readings, i, j, k, first, other);
    files := seq(|calls| + 1, m requires 0 <= m <= |calls| => PeakFile(m, i, j, k, first, other, last));
    results := seq(|calls|, m requires 0 <= m < |calls| =>
      if m == i || m == j then Claimed else if m == k then result else Unavailable(InvalidInput));
    forall m | 0 <= m < |calls|
      ensures ClaimStep(cfg, files[m], calls[m], false, NoFault, files[m + 1], results[m])
    {
      assert files[m] == PeakFile(m, i, j, k, first, other, last);
      assert files[m + 1] == PeakFile(m + 1, i, j, k, first, other, last);
    }
  }

  // ----- Exactly when the ledger refines the history

  /** In every run of these calls, every outcome is the full history's. */
  ghost predicate Indistinguishable(cfg: Config, calls: seq<Call>) {
    forall files, results, n :: Run(cfg, calls, files, results) && 0 <= n < |calls| ==>
      results[n] == ReferenceOutcome(cfg, Accepted(cfg, calls, n), calls[n])
  }

  /** Whatever is asked at these readings, no caller can tell the ledger from the full history. */
  ghost predicate ReadingsAreSafe(cfg: Config, readings: seq<Option<int>>) {
    forall calls | Readings(calls) == readings && BytesSuffice(cfg, Pool(calls)) :: Indistinguishable(cfg, calls)
  }

  /** Records of two identities with expiries at the readings and at `late`. */
  function TwoIdentities(readings: seq<Option<int>>, a: string, b: string, late: int): set<Record> {
    (set i | 0 <= i < |readings| && readings[i].Some? :: Record(a, readings[i].value))
    + {Record(b, late), Record("", ZERO_TIME)}
  }

  ghost predicate LateFor(readings: seq<Option<int>>, late: int) {
    late != ZERO_TIME && forall i :: 0 <= i < |readings| && readings[i].Some? ==> readings[i].value < late
  }

  lemma PeakIsUnsafe(cfg: Config, readings: seq<Option<int>>, a: string, b: string, late: int, i: nat, j: nat, k: nat)
    requires cfg.maxEntries >= 1 && a != "" && b != "" && a != b && LateFor(readings, late)
    requires BytesSuffice(cfg, TwoIdentities(readings, a, b, late)) && Peak(readings, i, j, k)
    ensures !ReadingsAreSafe(cfg, readings)
  {
    var pool := TwoIdentities(readings, a, b, late);
    var first, other := Record(a, readings[j].value), Record(b, late);
    var calls := PeakCalls(readings, i, j, k, first, other);
    assert first in pool && other in pool;
    assert WellFormed([first], cfg.maxEntries) && WellFormed([other], cfg.maxEntries);
    assert Pool(calls) <= pool;
    assert BytesSuffice(cfg, Pool(calls));
    assert Readings(calls) == readings;
    var files, results := PeakBreaks(cfg, readings, i, j, k, first, other);
    assert !Indistinguishable(cfg, calls);
  }

  /**
   The exact condition on the clock: for every sequence of readings, the ledger is indistinguishable
   from the full history, whatever is asked, if and only if the readings have no peak.
   */
  lemma SafeIffNoPeak(cfg: Config, readings: seq<Option<int>>, a: string, b: string, late: int)
    requires cfg.maxEntries >= 1 && a != "" && b != "" && a != b && LateFor(readings, late)
    requires BytesSuffice(cfg, TwoIdentities(readings, a, b, late))
    ensures ReadingsAreSafe(cfg, readings) <==> NoPeak(readings)
  {
    if NoPeak(readings) {
      forall calls, files, results, n | Readings(calls) == readings && BytesSuffice(cfg, Pool(calls))
                                        && Run(cfg, calls, files, results) && 0 <= n < |calls|
        ensures results[n] == ReferenceOutcome(cfg, Accepted(cfg, calls, n), calls[n])
      {
        PurgingRefinesHistory(cfg, calls, files, results, n);
      }
    } else {
      var i: nat, j: nat, k: nat :| Peak(readings, i, j, k);
      PeakIsUnsafe(cfg, readings, a, b, late, i, j, k);
    }
  }

  /** A run that claims one pair twice where the full history reports a replay. */
  ghost predicate Reclaims(cfg: Config, calls: seq<Call>, files: seq<Option<seq<Record>>>, results: seq<Result>) {
    && Run(cfg, calls, files, results) && |calls| == 3
    && calls[0] == calls[2] && results[0] == results[2] == Claimed
    && ReferenceOutcome(cfg, Accepted(cfg, calls, 2), calls[2]) == Replayed
  }

  /** A concrete run in which the clock goes back and a late reading purged what an earlier reading still needs. */
  lemma BackwardClockReclaims(cfg: Config)
    requires Loads(cfg, Record("a", 10), Record("b", 20)) && cfg.maxEntries >= 2
    ensures exists calls, files, results :: Reclaims(cfg, calls, files, results)
  {
    var readings, first, other := [Some(5), Some(10), Some(5)], Record("a", 10), Record("b", 20);
    assert Peak(readings, 0, 1, 2);
    var files, results := PeakBreaks(cfg, readings, 0, 1, 2, first, other);
    assert Reclaims(cfg, PeakCalls(readings, 0, 1, 2, first, other), files, results);
  }
}
