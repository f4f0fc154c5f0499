/**
 The single-use request ledger (broker/ledger.go) as one process sees it under the lock.

 The ledger file is modelled by its decoded records; `size` stands for the length of their
 JSON encoding. Times are integer nanoseconds with Go's zero time at 0.
 */
module ReplayLedger {
  import opened Common
  import opened Orders

  datatype Record = Record(requestID: string, expiresAt: int)

  /** `now` is None when the clock fails. */
  datatype Call = Call(requestID: string, expiresAt: int, now: Option<int>)

  datatype Result = Claimed | Replayed | Unavailable(reason: Reason)

  datatype Reason = InvalidInput | ClockOrStale | LoadFailed | MalformedRecord | CapacityExhausted | StoreFailed

  /** Where storing goes wrong, if it does: `AfterRename` has already replaced the file. */
  datatype StoreFault = NoFault | BeforeRename | AfterRename

  datatype Config = Config(maxEntries: nat, maxLedgerBytes: nat, size: seq<Record> -> nat)

  // ----- The decision taken under the lock

  datatype Scan = Malformed | Replay | Active(records: seq<Record>)

  predicate WellFormedRecord(r: Record) {
    r.requestID != "" && r.expiresAt != ZERO_TIME
  }

  /** What the loop of `Claim` finds: it stops at the first malformed record or the first live match. */
  function ScanRecords(records: seq<Record>, now: int, requestID: string): Scan {
    if records == [] then Active([])
    else
      var r := records[0];
      if !WellFormedRecord(r) then Malformed
      else if r.expiresAt > now && r.requestID == requestID then Replay
      else
        match ScanRecords(records[1..], now, requestID)
        case Active(rest) => Active(if r.expiresAt > now then [r] + rest else rest)
        case other => other
  }

  function ById(): (Record, Record) -> bool {
    ByKey((r: Record) => r.requestID)
  }

  /** `loadRecords`: a missing file is an empty ledger; both bounds are checked. */
  function LoadRecords(cfg: Config, file: Option<seq<Record>>): Option<seq<Record>> {
    if file.None? then Some([])
    else if cfg.size(file.value) > cfg.maxLedgerBytes || |file.value| > cfg.maxEntries then None
    else file
  }

  predicate InputOk(call: Call) {
    && call.requestID != "" && call.expiresAt != ZERO_TIME
    && call.now.Some? && call.now.value != ZERO_TIME && call.expiresAt > call.now.value
  }

  /** Everything `Claim` may do to the file and return, ties in the sort left open. */
  ghost predicate ClaimStep(cfg: Config, file: Option<seq<Record>>, call: Call, ioFault: bool, fault: StoreFault,
                            file': Option<seq<Record>>, result: Result)
  {
    if call.requestID == "" || call.expiresAt == ZERO_TIME then
      file' == file && result == Unavailable(InvalidInput)
    else if call.now.None? || call.now.value == ZERO_TIME || call.expiresAt <= call.now.value then
      file' == file && result == Unavailable(ClockOrStale)
    else
      var loaded := LoadRecords(cfg, file);
      if ioFault || loaded.None? then
        file' == file && result == Unavailable(LoadFailed)
      else
        match ScanRecords(loaded.value, call.now.value, call.requestID)
        case Malformed => file' == file && result == Unavailable(MalformedRecord)
        case Replay => file' == file && result == Replayed
        case Active(active) =>
          if |active| >= cfg.maxEntries then
            file' == file && result == Unavailable(CapacityExhausted)
          else
            && result == (if fault.NoFault? then Claimed else Unavailable(StoreFailed))
            && if fault.BeforeRename? then file' == file
               else file'.Some? && IsSorting(file'.value, active + [Record(call.requestID, call.expiresAt)], ById())
  }

  class FileReplayLedger {
    var file: Option<seq<Record>>
    const cfg: Config

    constructor (cfg: Config)
      ensures this.cfg == cfg && file == None
    {
      this.cfg := cfg;
      file := None;
    }

    /** `Claim`, with the I/O outcome of its load and its store passed in. */
    method Claim(call: Call, ioFault: bool, fault: StoreFault) returns (result: Result)
      modifies this`file
      ensures ClaimStep(cfg, old(file), call, ioFault, fault, file, result)
    {
      if call.requestID == "" || call.expiresAt == ZERO_TIME {
        return Unavailable(InvalidInput);
      }
      if call.now.None? || call.now.value == ZERO_TIME || call.expiresAt <= call.now.value {
        return Unavailable(ClockOrStale);
      }
      var now := call.now.value;
      var loaded := LoadRecords(cfg, file);
      if ioFault || loaded.None? {
        return Unavailable(LoadFailed);
      }
      var scan := Collect(loaded.value, now, call.requestID);
      if scan.Malformed? {
        return Unavailable(MalformedRecord);
      }
      if scan.Replay? {
        return Replayed;
      }
      var active := scan.records;
      if |active| >= cfg.maxEntries {
        return Unavailable(CapacityExhausted);
      }
      if fault.BeforeRename? {
        return Unavailable(StoreFailed);
      }
      ByKeyStrictWeak((r: Record) => r.requestID);
      var sorted := Sort(active + [Record(call.requestID, call.expiresAt)], ById());
      file := Some(sorted);
      return if fault.NoFault? then Claimed else Unavailable(StoreFailed);
    }
  }

  /** The loop of `Claim`, building `active`. */
  method Collect(records: seq<Record>, now: int, requestID: string) returns (scan: Scan)
    ensures scan == ScanRecords(records, now, requestID)
  {
    var active: seq<Record> := [];
    var i := 0;
    while i < |records|
      invariant 0 <= i <= |records|
      invariant ScanRecords(records, now, requestID) == Prefixed(active, ScanRecords(records[i..], now, requestID))
    {
      var r := records[i];
      assert records[i..][1..] == records[i + 1..];
      if r.requestID == "" || r.expiresAt == ZERO_TIME {
        return Malformed;
      }
      if r.expiresAt > now {
        if r.requestID == requestID {
          return Replay;
        }
        active := active + [r];
      }
      i := i + 1;
    }
    return Active(active);
  }

  function Prefixed(prefix: seq<Record>, scan: Scan): Scan {
    match scan
    case Active(rest) => Active(prefix + rest)
    case other => other
  }

  // ----- Well-formed ledgers

  /** Unique, sorted, non-empty IDs with real expiries, within the entry bound. */
  ghost predicate WellFormed(records: seq<Record>, maxEntries: nat) {
    && |records| <= maxEntries
    && (forall i :: 0 <= i < |records| ==> WellFormedRecord(records[i]))
    && (forall i, j :: 0 <= i < j < |records| ==> Less(records[i].requestID, records[j].requestID))
  }

  ghost predicate UniqueIds(records: seq<Record>) {
    UniqueKeys(records, (r: Record) => r.requestID)
  }

  /** The records of `s` still unexpired at `now`. */
  function Live(s: seq<Record>, now: int): seq<Record> {
    if s == [] then []
    else if s[0].expiresAt > now then [s[0]] + Live(s[1..], now)
    else Live(s[1..], now)
  }

  ghost predicate HasId(s: seq<Record>, requestID: string) {
    exists r :: r in s && r.requestID == requestID
  }

  lemma {:induction false} LiveMembers(s: seq<Record>, now: int)
    ensures forall r :: r in Live(s, now) <==> r in s && r.expiresAt > now
    ensures |Live(s, now)| <= |s|
  {
    if s != [] {
      LiveMembers(s[1..], now);
      assert s == [s[0]] + s[1..];
    }
  }

  /** On records with real fields the scan is exactly: replay if the ID is live, else the live records. */
  lemma {:induction false} ScanIsLive(records: seq<Record>, now: int, requestID: string)
    requires forall i :: 0 <= i < |records| ==> WellFormedRecord(records[i])
    ensures ScanRecords(records, now, requestID)
         == if HasId(Live(records, now), requestID) then Replay else Active(Live(records, now))
  {
    if records != [] {
      var rest := records[1..];
      ScanIsLive(rest, now, requestID);
      var live, liveRest := Live(records, now), Live(rest, now);
      assert HasId(liveRest, requestID) ==> HasId(live, requestID) by {
        if HasId(liveRest, requestID) {
          var r :| r in liveRest && r.requestID == requestID;
          assert r in live;
        }
      }
      if records[0].expiresAt > now && records[0].requestID == requestID {
        assert records[0] in live;
      } else if HasId(live, requestID) {
        var r :| r in live && r.requestID == requestID;
        assert r in liveRest;
      }
    }
  }

  lemma {:induction false} LiveKeepsUnique(s: seq<Record>, now: int)
    requires UniqueIds(s)
    ensures UniqueIds(Live(s, now))
  {
    if s != [] {
      LiveKeepsUnique(s[1..], now);
      LiveMembers(s[1..], now);
      assert forall k :: 0 <= k < |s[1..]| ==> s[1..][k] == s[k + 1];
    }
  }

  /** Storing keeps the ledger well formed, whatever the clock said. */
  lemma StoredIsWellFormed(records: seq<Record>, now: int, requestID: string, expiresAt: int,
                           stored: seq<Record>, maxEntries: nat)
    requires WellFormed(records, maxEntries) && requestID != "" && expiresAt != ZERO_TIME
    requires !HasId(Live(records, now), requestID) && |Live(records, now)| < maxEntries
    requires IsSorting(stored, Live(records, now) + [Record(requestID, expiresAt)], ById())
    ensures WellFormed(stored, maxEntries)
  {
    var kept := Live(records, now) + [Record(requestID, expiresAt)];
    LiveMembers(records, now);
    assert UniqueIds(records) by {
      forall i, j | 0 <= i < j < |records|
        ensures records[i].requestID != records[j].requestID
      {
        LessIrreflexive(records[i].requestID);
      }
    }
    LiveKeepsUnique(records, now);
    assert UniqueIds(kept);
    UniqueKeysPermute(stored, kept, (r: Record) => r.requestID);
    assert |stored| == |multiset(stored)| == |multiset(kept)| == |kept|;
    forall i | 0 <= i < |stored|
      ensures WellFormedRecord(stored[i])
    {
      assert stored[i] in multiset(stored);
      InMultiset(stored[i], kept);
    }
    forall i, j | 0 <= i < j < |stored|
      ensures Less(stored[i].requestID, stored[j].requestID)
    {
      assert !ById()(stored[j], stored[i]);
      LessTotal(stored[i].requestID, stored[j].requestID);
    }
  }
}
