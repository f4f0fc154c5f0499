/**
 The replay ledger as many processes and power losses see it (broker/ledger.go).

 A claim reads its clock before it queues for the lock, loads the visible file, writes and syncs
 a temporary file, renames it over the ledger and syncs the directory. Any process may fail or be
 killed between any two of these actions, and power may be lost at any moment. Nobody else is
 assumed to touch the files.
 */
module LedgerProtocol {
  import opened Common
  import opened Orders
  import opened ReplayLedger

  /** A claim that has passed its input and clock checks. */
  datatype Claim = Claim(requestID: string, expiresAt: int, now: int)

  /** `synced` content survives power loss; unsynced content may become anything. */
  datatype File = File(records: seq<Record>, synced: bool)

  datatype Process =
    | Idle
    | Queued(claim: Claim)
    | Locked(claim: Claim)
    | Writing(claim: Claim, toStore: seq<Record>)
    | Written(claim: Claim, temp: File)
    | Renamed(claim: Claim)

  datatype Event = Stored(claim: Claim) | Succeeded(claim: Claim)

  /**
   `versions[0]` is the directory entry that is certainly on disk; each later version is a rename not
   yet covered by a directory sync. The last one is what running processes see.
   */
  datatype State = State(
    versions: seq<Option<File>>, lock: Option<nat>, processes: map<nat, Process>, trace: seq<Event>)

  datatype Step =
    | Begin(p: nat, claim: Claim)
    | Acquire(p: nat)
    | Refuse(p: nat)
    | Decide(p: nat, toStore: seq<Record>)
    | Write(p: nat)
    | Sync(p: nat)
    | Rename(p: nat)
    | SyncDirectory(p: nat)
    | Fail(p: nat)
    | PowerLoss(survivor: nat, content: Option<File>)

  function Of(s: State, p: nat): Process {
    if p in s.processes then s.processes[p] else Idle
  }

  function To(s: State, p: nat, process: Process): State {
    s.(processes := s.processes[p := process])
  }

  function Release(s: State, p: nat): State {
    To(if s.lock == Some(p) then s.(lock := None) else s, p, Idle)
  }

  function Visible(s: State): Option<File>
    requires s.versions != []
  {
    s.versions[|s.versions| - 1]
  }

  function RecordsOf(version: Option<File>): seq<Record> {
    if version.Some? then version.value.records else []
  }

  function RecordFor(c: Claim): Record {
    Record(c.requestID, c.expiresAt)
  }

  predicate ValidClaim(c: Claim) {
    c.requestID != "" && c.expiresAt != ZERO_TIME && c.now != ZERO_TIME && c.now < c.expiresAt
  }

  /** What power loss may leave of a directory entry. */
  predicate MaySurvive(before: Option<File>, after: Option<File>) {
    if before.None? || before.value.synced then after == before else true
  }

  ghost predicate Next(maxEntries: nat, s: State, step: Step, s': State)
    requires s.versions != []
  {
    match step
    case Begin(p, claim) => Of(s, p).Idle? && ValidClaim(claim) && s' == To(s, p, Queued(claim))
    case Acquire(p) =>
      Of(s, p).Queued? && s.lock == None && s' == To(s.(lock := Some(p)), p, Locked(Of(s, p).claim))
    case Refuse(p) =>
      && Of(s, p).Locked?
      && var c := Of(s, p).claim;
         var scan := ScanRecords(RecordsOf(Visible(s)), c.now, c.requestID);
         && (scan.Active? ==> |scan.records| >= maxEntries)
         && s' == Release(s, p)
    case Decide(p, toStore) =>
      && Of(s, p).Locked?
      && var c := Of(s, p).claim;
         var scan := ScanRecords(RecordsOf(Visible(s)), c.now, c.requestID);
         && scan.Active? && |scan.records| < maxEntries
         && IsSorting(toStore, scan.records + [RecordFor(c)], ById())
         && s' == To(s, p, Writing(c, toStore))
    case Write(p) =>
      Of(s, p).Writing? && s' == To(s, p, Written(Of(s, p).claim, File(Of(s, p).toStore, false)))
    case Sync(p) =>
      Of(s, p).Written? && s' == To(s, p, Written(Of(s, p).claim, Of(s, p).temp.(synced := true)))
    case Rename(p) =>
      && Of(s, p).Written? && Of(s, p).temp.synced
      && s' == To(s.(versions := s.versions + [Some(Of(s, p).temp)], trace := s.trace + [Stored(Of(s, p).claim)]),
                  p, Renamed(Of(s, p).claim))
    case SyncDirectory(p) =>
      && Of(s, p).Renamed?
      && s' == Release(s.(versions := [Visible(s)], trace := s.trace + [Succeeded(Of(s, p).claim)]), p)
    case Fail(p) => !Of(s, p).Idle? && s' == Release(s, p)
    case PowerLoss(survivor, content) =>
      && survivor < |s.versions| && MaySurvive(s.versions[survivor], content)
      && s' == State([content], None, map[], s.trace)
  }

  const INITIAL: State := State([None], None, map[], [])

  /** Every execution: states joined by steps, from a missing file. */
  ghost predicate Execution(maxEntries: nat, states: seq<State>, steps: seq<Step>) {
    && |states| == |steps| + 1
    && states[0] == INITIAL
    && forall i :: 0 <= i < |steps| ==> states[i].versions != [] && Next(maxEntries, states[i], steps[i], states[i + 1])
  }

  // ----- Invariant

  predicate HoldsLock(process: Process) {
    !process.Idle? && !process.Queued?
  }

  /** After event `i`, some claim whose reading was at or past `expiry` replaced the ledger. */
  ghost predicate PurgedAfter(trace: seq<Event>, i: nat, end: int, expiry: int) {
    exists k :: i < k < end <= |trace| && trace[k].Stored? && trace[k].claim.now >= expiry
  }

  /** Each past success with this request ID has since been purged, or had expired by this claim's reading. */
  ghost predicate IdIsFree(trace: seq<Event>, end: int, c: Claim) {
    forall i :: 0 <= i < end <= |trace| && trace[i].Succeeded? && trace[i].claim.requestID == c.requestID ==>
      c.now >= trace[i].claim.expiresAt || PurgedAfter(trace, i, end, trace[i].claim.expiresAt)
  }

  ghost predicate VersionOk(version: Option<File>, maxEntries: nat) {
    version.Some? ==> version.value.synced && WellFormed(version.value.records, maxEntries)
  }

  /** What a claim about to store has established about the version it read. */
  ghost predicate Prepared(maxEntries: nat, s: State, c: Claim, toStore: seq<Record>)
    requires s.versions != []
  {
    && WellFormed(toStore, maxEntries)
    && RecordFor(c) in toStore
    && (forall r :: r in RecordsOf(Visible(s)) && r.expiresAt > c.now ==> r in toStore)
    && IdIsFree(s.trace, |s.trace|, c)
  }

  ghost predicate ProcessOk(maxEntries: nat, s: State, process: Process)
    requires s.versions != []
  {
    && (!process.Idle? ==> ValidClaim(process.claim))
    && (process.Writing? ==> Prepared(maxEntries, s, process.claim, process.toStore))
    && (process.Written? ==> Prepared(maxEntries, s, process.claim, process.temp.records))
    && (process.Renamed? ==>
      && s.trace != [] && s.trace[|s.trace| - 1] == Stored(process.claim)
      && RecordFor(process.claim) in RecordsOf(Visible(s))
      && IdIsFree(s.trace, |s.trace| - 1, process.claim))
  }

  /** The success at `i` is in every version that could be loaded, unless a late reading has since purged it. */
  ghost predicate Durable(s: State, i: nat)
    requires i < |s.trace|
  {
    var c := s.trace[i].claim;
    || PurgedAfter(s.trace, i, |s.trace|, c.expiresAt)
    || forall v :: 0 <= v < |s.versions| ==> RecordFor(c) in RecordsOf(s.versions[v])
  }

  /** What the trace says of a success. */
  ghost predicate SuccessOk(trace: seq<Event>, i: nat)
    requires i < |trace| && trace[i].Succeeded?
  {
    && i > 0 && trace[i - 1] == Stored(trace[i].claim)
    && ValidClaim(trace[i].claim)
    && IdIsFree(trace, i - 1, trace[i].claim)
  }

  ghost predicate Inv(maxEntries: nat, s: State) {
    && s.versions != []
    && (forall v :: 0 <= v < |s.versions| ==> VersionOk(s.versions[v], maxEntries))
    && (forall p :: p in s.processes && HoldsLock(s.processes[p]) ==> s.lock == Some(p))
    && (forall p :: p in s.processes ==> ProcessOk(maxEntries, s, s.processes[p]))
    && (forall i :: 0 <= i < |s.trace| && s.trace[i].Succeeded? ==> SuccessOk(s.trace, i) && Durable(s, i))
  }

  // ----- Appending an event keeps what the trace already says

  lemma PurgedGrows(trace: seq<Event>, more: seq<Event>, i: nat, end: int, expiry: int)
    requires PurgedAfter(trace, i, end, expiry)
    ensures forall end' :: end <= end' <= |trace + more| ==> PurgedAfter(trace + more, i, end', expiry)
  {
    var k :| i < k < end <= |trace| && trace[k].Stored? && trace[k].claim.now >= expiry;
    assert (trace + more)[k] == trace[k];
  }

  lemma FreeGrows(trace: seq<Event>, e: Event, end: int, c: Claim)
    requires 0 <= end <= |trace| && IdIsFree(trace, end, c)
    ensures IdIsFree(trace + [e], end, c)
  {
    forall i | 0 <= i < end && (trace + [e])[i].Succeeded? && (trace + [e])[i].claim.requestID == c.requestID
      ensures c.now >= (trace + [e])[i].claim.expiresAt || PurgedAfter(trace + [e], i, end, (trace + [e])[i].claim.expiresAt)
    {
      assert (trace + [e])[i] == trace[i];
      if PurgedAfter(trace, i, end, trace[i].claim.expiresAt) {
        PurgedGrows(trace, [e], i, end, trace[i].claim.expiresAt);
      }
    }
  }

  lemma SuccessGrows(trace: seq<Event>, e: Event, i: nat)
    requires i < |trace| && trace[i].Succeeded? && SuccessOk(trace, i)
    ensures SuccessOk(trace + [e], i)
  {
    assert (trace + [e])[i] == trace[i] && (trace + [e])[i - 1] == trace[i - 1];
    FreeGrows(trace, e, i - 1, trace[i].claim);
  }

  // ----- Each step keeps the invariant

  /** Steps that change only process `p`, and perhaps the lock when no other process needs it. */
  lemma LocalStepKeeps(maxEntries: nat, s: State, s': State, p: nat, process: Process)
    requires Inv(maxEntries, s) && ProcessOk(maxEntries, s, process)
    requires s'.versions == s.versions && s'.trace == s.trace && s'.processes == s.processes[p := process]
    requires HoldsLock(process) ==> s'.lock == Some(p)
    requires s'.lock == s.lock || s.lock == Some(p) || s.lock == None
    ensures Inv(maxEntries, s')
  {
    forall q | q in s'.processes
      ensures ProcessOk(maxEntries, s', s'.processes[q])
      ensures HoldsLock(s'.processes[q]) ==> s'.lock == Some(q)
    {
      assert q != p ==> q in s.processes && s'.processes[q] == s.processes[q];
    }
    forall i | 0 <= i < |s'.trace| && s'.trace[i].Succeeded?
      ensures SuccessOk(s'.trace, i) && Durable(s', i)
    {
    }
  }

  /** Deciding to store: the version just read shows that every earlier success with this ID is gone. */
  lemma DecisionIsPrepared(maxEntries: nat, s: State, p: nat, toStore: seq<Record>, s': State)
    requires Inv(maxEntries, s) && Next(maxEntries, s, Decide(p, toStore), s')
    ensures Prepared(maxEntries, s, Of(s, p).claim, toStore)
  {
    var c, records := Of(s, p).claim, RecordsOf(Visible(s));
    assert VersionOk(Visible(s), maxEntries);
    assert WellFormed(records, maxEntries);
    ScanIsLive(records, c.now, c.requestID);
    LiveMembers(records, c.now);
    var kept := Live(records, c.now) + [RecordFor(c)];
    StoredIsWellFormed(records, c.now, c.requestID, c.expiresAt, toStore, maxEntries);
    forall r | r in kept
      ensures r in toStore
    {
      InMultiset(r, kept);
      InMultiset(r, toStore);
    }
    assert RecordFor(c) in kept;
    forall i | 0 <= i < |s.trace| && s.trace[i].Succeeded? && s.trace[i].claim.requestID == c.requestID
      ensures c.now >= s.trace[i].claim.expiresAt || PurgedAfter(s.trace, i, |s.trace|, s.trace[i].claim.expiresAt)
    {
      assert Durable(s, i);
      var earlier := RecordFor(s.trace[i].claim);
      assert earlier in Live(records, c.now) ==> HasId(Live(records, c.now), c.requestID);
    }
  }

  lemma RenameKeepsDurable(maxEntries: nat, s: State, p: nat, s': State, i: nat)
    requires Inv(maxEntries, s) && Next(maxEntries, s, Rename(p), s')
    requires i < |s.trace| && s.trace[i].Succeeded?
    ensures s'.trace[i] == s.trace[i] && Durable(s', i)
  {
    var c, e := s.trace[i].claim, Stored(Of(s, p).claim);
    assert s'.trace == s.trace + [e];
    if PurgedAfter(s.trace, i, |s.trace|, c.expiresAt) {
      PurgedGrows(s.trace, [e], i, |s.trace|, c.expiresAt);
    } else if e.claim.now >= c.expiresAt {
      assert s'.trace[|s.trace|] == e;
    } else {
      assert Durable(s, i);
      assert RecordFor(c) in RecordsOf(Visible(s));
      assert Prepared(maxEntries, s, e.claim, Of(s, p).temp.records);
    }
  }

  lemma RenameKeeps(maxEntries: nat, s: State, p: nat, s': State)
    requires Inv(maxEntries, s) && Next(maxEntries, s, Rename(p), s')
    ensures Inv(maxEntries, s')
  {
    var c, e := Of(s, p).claim, Stored(Of(s, p).claim);
    assert p in s.processes && Prepared(maxEntries, s, c, Of(s, p).temp.records);
    FreeGrows(s.trace, e, |s.trace|, c);
    forall q | q in s'.processes
      ensures ProcessOk(maxEntries, s', s'.processes[q])
      ensures HoldsLock(s'.processes[q]) ==> s'.lock == Some(q)
    {
      assert q != p ==> q in s.processes && !HoldsLock(s.processes[q]);
    }
    forall i | 0 <= i < |s'.trace| && s'.trace[i].Succeeded?
      ensures SuccessOk(s'.trace, i) && Durable(s', i)
    {
      assert i < |s.trace|;
      SuccessGrows(s.trace, e, i);
      RenameKeepsDurable(maxEntries, s, p, s', i);
    }
  }

  lemma SyncDirectoryKeeps(maxEntries: nat, s: State, p: nat, s': State)
    requires Inv(maxEntries, s) && Next(maxEntries, s, SyncDirectory(p), s')
    ensures Inv(maxEntries, s')
  {
    var c, e, n := Of(s, p).claim, Succeeded(Of(s, p).claim), |s.trace|;
    assert p in s.processes && s.lock == Some(p) && s'.trace == s.trace + [e];
    forall q | q in s'.processes
      ensures ProcessOk(maxEntries, s', s'.processes[q]) && !HoldsLock(s'.processes[q])
    {
      assert q != p ==> q in s.processes && !HoldsLock(s.processes[q]);
    }
    forall i | 0 <= i < |s'.trace| && s'.trace[i].Succeeded?
      ensures SuccessOk(s'.trace, i) && Durable(s', i)
    {
      if i < n {
        SuccessGrows(s.trace, e, i);
        assert Durable(s, i);
        if PurgedAfter(s.trace, i, n, s.trace[i].claim.expiresAt) {
          PurgedGrows(s.trace, [e], i, n, s.trace[i].claim.expiresAt);
        }
      } else {
        FreeGrows(s.trace, e, n - 1, c);
      }
    }
  }

  lemma PowerLossKeeps(maxEntries: nat, s: State, step: Step, s': State)
    requires Inv(maxEntries, s) && step.PowerLoss? && Next(maxEntries, s, step, s')
    ensures Inv(maxEntries, s')
  {
    assert VersionOk(s.versions[step.survivor], maxEntries);
    forall i | 0 <= i < |s'.trace| && s'.trace[i].Succeeded?
      ensures SuccessOk(s'.trace, i) && Durable(s', i)
    {
      assert Durable(s, i);
    }
  }

  lemma StepKeepsInv(maxEntries: nat, s: State, step: Step, s': State)
    requires Inv(maxEntries, s) && Next(maxEntries, s, step, s')
    ensures Inv(maxEntries, s')
  {
    match step
    case Decide(p, toStore) =>
      DecisionIsPrepared(maxEntries, s, p, toStore, s');
      LocalStepKeeps(maxEntries, s, s', p, Writing(Of(s, p).claim, toStore));
    case Rename(p) => RenameKeeps(maxEntries, s, p, s');
    case SyncDirectory(p) => SyncDirectoryKeeps(maxEntries, s, p, s');
    case PowerLoss(_, _) => PowerLossKeeps(maxEntries, s, step, s');
    case _ =>
      LocalStepKeeps(maxEntries, s, s', step.p, s'.processes[step.p]);
  }

  lemma {:induction false} ExecutionKeepsInv(maxEntries: nat, states: seq<State>, steps: seq<Step>, n: nat)
    requires Execution(maxEntries, states, steps) && n <= |steps|
    ensures Inv(maxEntries, states[n])
  {
    if n > 0 {
      ExecutionKeepsInv(maxEntries, states, steps, n - 1);
      StepKeepsInv(maxEntries, states[n - 1], steps[n - 1], states[n]);
    }
  }

  // ----- Theorems over every execution

  /**
   Replay safety under every interleaving, fault and power loss: between two successful claims of one
   request ID, either the later claim read a time at or past the earlier expiry, or some other claim
   with such a reading replaced the ledger in between; for one (requestID, expiresAt) pair it is the latter.
   */
  lemma ReplayNeedsPurge(maxEntries: nat, states: seq<State>, steps: seq<Step>, n: nat, i: nat, j: nat)
    requires Execution(maxEntries, states, steps) && n <= |steps|
    requires i < j < |states[n].trace|
    requires states[n].trace[i].Succeeded? && states[n].trace[j].Succeeded?
    requires states[n].trace[i].claim.requestID == states[n].trace[j].claim.requestID
    ensures var trace := states[n].trace; var expiry := trace[i].claim.expiresAt;
            && (trace[j].claim.now >= expiry || PurgedAfter(trace, i, j - 1, expiry))
            && (trace[j].claim.expiresAt == expiry ==> PurgedAfter(trace, i, j - 1, expiry))
  {
    ExecutionKeepsInv(maxEntries, states, steps, n);
    var trace := states[n].trace;
    assert SuccessOk(trace, j) && SuccessOk(trace, i);
    assert i < j - 1;
  }

  /** Readings never go back in the order in which claims replace the ledger. */
  ghost predicate ReadingsMonotone(trace: seq<Event>) {
    forall i, j :: 0 <= i < j < |trace| && trace[i].Stored? && trace[j].Stored? ==>
      trace[i].claim.now <= trace[j].claim.now
  }

  /** With monotone readings no (requestID, expiresAt) pair is ever claimed twice. */
  lemma ClaimedAtMostOnce(maxEntries: nat, states: seq<State>, steps: seq<Step>, n: nat, i: nat, j: nat)
    requires Execution(maxEntries, states, steps) && n <= |steps|
    requires i < j < |states[n].trace| && ReadingsMonotone(states[n].trace)
    requires states[n].trace[i].Succeeded? && states[n].trace[j].Succeeded?
    ensures RecordFor(states[n].trace[i].claim) != RecordFor(states[n].trace[j].claim)
    ensures states[n].trace[i].claim.requestID == states[n].trace[j].claim.requestID ==>
      states[n].trace[i].claim.expiresAt <= states[n].trace[j].claim.now
  {
    var trace := states[n].trace;
    ExecutionKeepsInv(maxEntries, states, steps, n);
    assert SuccessOk(trace, j);
    if trace[i].claim.requestID == trace[j].claim.requestID {
      ReplayNeedsPurge(maxEntries, states, steps, n, i, j);
      if PurgedAfter(trace, i, j - 1, trace[i].claim.expiresAt) {
        var k :| i < k < j - 1 && trace[k].Stored? && trace[k].claim.now >= trace[i].claim.expiresAt;
        assert trace[k].claim.now <= trace[j - 1].claim.now;
      }
    }
  }

  /**
   Crash durability: at every moment each version that could be found after power loss is a complete,
   well-formed ledger, and holds every success not purged since by a reading at or past its expiry.
   */
  lemma CrashDurability(maxEntries: nat, states: seq<State>, steps: seq<Step>, n: nat, step: Step, after: State)
    requires Execution(maxEntries, states, steps) && n <= |steps|
    requires states[n].versions != [] && step.PowerLoss? && Next(maxEntries, states[n], step, after)
    ensures Visible(after) == states[n].versions[step.survivor]
    ensures WellFormed(RecordsOf(Visible(after)), maxEntries)
    ensures forall i :: 0 <= i < |after.trace| && after.trace[i].Succeeded? ==>
      || RecordFor(after.trace[i].claim) in RecordsOf(Visible(after))
      || PurgedAfter(after.trace, i, |after.trace|, after.trace[i].claim.expiresAt)
  {
    ExecutionKeepsInv(maxEntries, states, steps, n);
    assert VersionOk(states[n].versions[step.survivor], maxEntries);
    forall i | 0 <= i < |after.trace| && after.trace[i].Succeeded?
      ensures RecordFor(after.trace[i].claim) in RecordsOf(Visible(after))
           || PurgedAfter(after.trace, i, |after.trace|, after.trace[i].claim.expiresAt)
    {
      assert Durable(states[n], i);
    }
  }

  // ----- One claim as the protocol's steps

  /** The states are joined by the steps. */
  ghost predicate Path(maxEntries: nat, states: seq<State>, steps: seq<Step>) {
    && |states| == |steps| + 1
    && forall i :: 0 <= i < |steps| ==> states[i].versions != [] && Next(maxEntries, states[i], steps[i], states[i + 1])
  }

  lemma PathOn(maxEntries: nat, states: seq<State>, steps: seq<Step>, step: Step, s': State)
    requires Path(maxEntries, states, steps)
    requires var last := states[|steps|]; last.versions != [] && Next(maxEntries, last, step, s')
    ensures Path(maxEntries, states + [s'], steps + [step])
  {
    var states', steps' := states + [s'], steps + [step];
    forall i | 0 <= i < |steps'|
      ensures states'[i].versions != [] && Next(maxEntries, states'[i], steps'[i], states'[i + 1])
    {
      if i < |steps| {
        assert states'[i] == states[i] && steps'[i] == steps[i] && states'[i + 1] == states[i + 1];
      }
    }
  }

  /** The version as `Claim` sees it. */
  function FileOf(version: Option<File>): Option<seq<Record>> {
    if version.Some? then Some(version.value.records) else None
  }

  function ClaimOf(call: Call): Claim
    requires call.now.Some?
  {
    Claim(call.requestID, call.expiresAt, call.now.value)
  }

  /** Nothing of process `p` is under way and the lock is free. */
  ghost predicate Quiet(s: State, p: nat) {
    s.versions != [] && Of(s, p).Idle? && s.lock == None
  }

  function LockedState(s: State, p: nat, c: Claim): State {
    To(To(s, p, Queued(c)).(lock := Some(p)), p, Locked(c))
  }

  /** A claim with valid input starts and takes the lock. */
  lemma ClaimLocks(maxEntries: nat, s: State, p: nat, c: Claim) returns (states: seq<State>)
    requires Quiet(s, p) && ValidClaim(c)
    ensures Path(maxEntries, states, [Begin(p, c), Acquire(p)]) && states[0] == s && states[2] == LockedState(s, p, c)
  {
    var queued, locked := To(s, p, Queued(c)), LockedState(s, p, c);
    assert Next(maxEntries, s, Begin(p, c), queued) && Next(maxEntries, queued, Acquire(p), locked);
    states := [s, queued, locked];
  }

  /** The file that a claim renames over the ledger. */
  function RenamedState(s: State, p: nat, c: Claim, toStore: seq<Record>): State {
    To(s.(versions := s.versions + [Some(File(toStore, true))], trace := s.trace + [Stored(c)]), p, Renamed(c))
  }

  /** The scan of the visible file lets the claim store these records. */
  ghost predicate MayStore(maxEntries: nat, s: State, c: Claim, toStore: seq<Record>)
    requires s.versions != []
  {
    var scan := ScanRecords(RecordsOf(Visible(s)), c.now, c.requestID);
    scan.Active? && |scan.records| < maxEntries && IsSorting(toStore, scan.records + [RecordFor(c)], ById())
  }

  /** A locked claim that stores decides, writes, syncs and renames. */
  lemma ClaimStores(maxEntries: nat, s: State, p: nat, c: Claim, toStore: seq<Record>) returns (s1: State, s2: State, s3: State)
    requires s.versions != [] && Of(s, p) == Locked(c) && MayStore(maxEntries, s, c, toStore)
    ensures s1.versions == s2.versions == s3.versions == s.versions
    ensures Next(maxEntries, s, Decide(p, toStore), s1) && Next(maxEntries, s1, Write(p), s2)
    ensures Next(maxEntries, s2, Sync(p), s3) && Next(maxEntries, s3, Rename(p), RenamedState(s, p, c, toStore))
  {
    s1 := To(s, p, Writing(c, toStore));
    s2 := To(s1, p, Written(c, File(toStore, false)));
    s3 := To(s2, p, Written(c, File(toStore, true)));
    assert RenamedState(s3, p, c, toStore) == RenamedState(s, p, c, toStore);
  }

  lemma ClaimRenames(maxEntries: nat, states: seq<State>, steps: seq<Step>, p: nat, c: Claim, toStore: seq<Record>)
    returns (states': seq<State>)
    requires Path(maxEntries, states, steps) && states[|steps|].versions != [] && Of(states[|steps|], p) == Locked(c)
    requires MayStore(maxEntries, states[|steps|], c, toStore)
    ensures Path(maxEntries, states', steps + [Decide(p, toStore)] + [Write(p)] + [Sync(p)] + [Rename(p)])
    ensures states'[0] == states[0] && states'[|steps| + 4] == RenamedState(states[|steps|], p, c, toStore)
  {
    var locked := states[|steps|];
    var s1, s2, s3 := ClaimStores(maxEntries, locked, p, c, toStore);
    PathOn(maxEntries, states, steps, Decide(p, toStore), s1);
    PathOn(maxEntries, states + [s1], steps + [Decide(p, toStore)], Write(p), s2);
    PathOn(maxEntries, states + [s1] + [s2], steps + [Decide(p, toStore)] + [Write(p)], Sync(p), s3);
    var s4 := RenamedState(locked, p, c, toStore);
    PathOn(maxEntries, states + [s1] + [s2] + [s3], steps + [Decide(p, toStore)] + [Write(p)] + [Sync(p)], Rename(p), s4);
    states' := states + [s1] + [s2] + [s3] + [s4];
  }

  /** What a claim leaves in the trace: a replaced ledger, and a success only if it was reported. */
  function EventsOf(call: Call, fault: StoreFault, result: Result): seq<Event>
    requires call.now.Some? || !(result.Claimed? || result == Unavailable(StoreFailed))
  {
    if result.Claimed? then [Stored(ClaimOf(call))] + [Succeeded(ClaimOf(call))]
    else if result == Unavailable(StoreFailed) && fault.AfterRename? then [Stored(ClaimOf(call))]
    else []
  }

  /** The steps respect the faults: no load after a failed one, no rename or directory sync that failed. */
  ghost predicate Respects(steps: seq<Step>, ioFault: bool, fault: StoreFault) {
    forall i :: 0 <= i < |steps| ==>
      && (ioFault ==> steps[i].Begin? || steps[i].Acquire? || steps[i].Fail?)
      && (steps[i].Rename? ==> !fault.BeforeRename?) && (steps[i].SyncDirectory? ==> fault.NoFault?)
  }

  /** A path of one claim from `s`, which leaves this file and these events and meets these faults. */
  ghost predicate ClaimPath(maxEntries: nat, s: State, p: nat, states: seq<State>, steps: seq<Step>, file': Option<seq<Record>>,
                            events: seq<Event>, ioFault: bool, fault: StoreFault)
  {
    && Path(maxEntries, states, steps) && states[0] == s && Respects(steps, ioFault, fault)
    && var s' := states[|steps|];
       Quiet(s', p) && FileOf(Visible(s')) == file' && s'.trace == s.trace + events
  }

  /** A locked claim that stores nothing: it is refused or fails. */
  lemma IdleClaimRuns(maxEntries: nat, s: State, p: nat, c: Claim, last: Step, ioFault: bool, fault: StoreFault)
    returns (states: seq<State>, steps: seq<Step>)
    requires Quiet(s, p) && ValidClaim(c) && (last == Fail(p) || (last == Refuse(p) && !ioFault))
    requires Next(maxEntries, LockedState(s, p, c), last, Release(LockedState(s, p, c), p))
    ensures ClaimPath(maxEntries, s, p, states, steps, FileOf(Visible(s)), [], ioFault, fault)
  {
    var before := ClaimLocks(maxEntries, s, p, c);
    var s' := Release(LockedState(s, p, c), p);
    PathOn(maxEntries, before, [Begin(p, c), Acquire(p)], last, s');
    states, steps := before + [s'], [Begin(p, c), Acquire(p)] + [last];
  }

  lemma FailedClaimRuns(maxEntries: nat, s: State, p: nat, c: Claim, ioFault: bool, fault: StoreFault)
    returns (states: seq<State>, steps: seq<Step>)
    requires Quiet(s, p) && ValidClaim(c)
    ensures ClaimPath(maxEntries, s, p, states, steps, FileOf(Visible(s)), [], ioFault, fault)
  {
    states, steps := IdleClaimRuns(maxEntries, s, p, c, Fail(p), ioFault, fault);
  }

  lemma RefusedClaimRuns(maxEntries: nat, s: State, p: nat, c: Claim, fault: StoreFault)
    returns (states: seq<State>, steps: seq<Step>)
    requires Quiet(s, p) && ValidClaim(c)
    requires var scan := ScanRecords(RecordsOf(Visible(s)), c.now, c.requestID); scan.Active? ==> |scan.records| >= maxEntries
    ensures ClaimPath(maxEntries, s, p, states, steps, FileOf(Visible(s)), [], false, fault)
  {
    assert Visible(LockedState(s, p, c)) == Visible(s);
    states, steps := IdleClaimRuns(maxEntries, s, p, c, Refuse(p), false, fault);
  }

  /** A claim that replaces the ledger, with the directory synced or not. */
  lemma StoringClaimRuns(maxEntries: nat, s: State, p: nat, c: Claim, toStore: seq<Record>, fault: StoreFault)
    returns (states: seq<State>, steps: seq<Step>)
    requires Quiet(s, p) && ValidClaim(c) && MayStore(maxEntries, s, c, toStore) && !fault.BeforeRename?
    ensures ClaimPath(maxEntries, s, p, states, steps, Some(toStore),
                      if fault.NoFault? then [Stored(c)] + [Succeeded(c)] else [Stored(c)], false, fault)
    ensures fault.NoFault? ==> |states[|steps|].versions| == 1
  {
    var stored, storing := ClaimReplaces(maxEntries, s, p, c, toStore);
    var renamed := RenamedState(LockedState(s, p, c), p, c, toStore);
    var last, s' := ClaimEnds(maxEntries, renamed, p, c, toStore, fault);
    PathOn(maxEntries, stored, storing, last, s');
    states, steps := stored + [s'], storing + [last];
    assert s.trace + [Stored(c)] + [Succeeded(c)] == s.trace + ([Stored(c)] + [Succeeded(c)]);
  }

  /** From the start of a claim to its rename. */
  lemma ClaimReplaces(maxEntries: nat, s: State, p: nat, c: Claim, toStore: seq<Record>)
    returns (states: seq<State>, steps: seq<Step>)
    requires Quiet(s, p) && ValidClaim(c) && MayStore(maxEntries, s, c, toStore)
    ensures Path(maxEntries, states, steps) && states[0] == s
    ensures states[|steps|] == RenamedState(LockedState(s, p, c), p, c, toStore)
    ensures forall i :: 0 <= i < |steps| ==> !steps[i].SyncDirectory?
  {
    var locked, locking := LockedState(s, p, c), [Begin(p, c), Acquire(p)];
    var before := ClaimLocks(maxEntries, s, p, c);
    assert MayStore(maxEntries, locked, c, toStore);
    states := ClaimRenames(maxEntries, before, locking, p, c, toStore);
    steps := locking + [Decide(p, toStore)] + [Write(p)] + [Sync(p)] + [Rename(p)];
  }

  lemma ClaimEnds(maxEntries: nat, renamed: State, p: nat, c: Claim, toStore: seq<Record>, fault: StoreFault)
    returns (last: Step, s': State)
    requires renamed.versions != [] && Visible(renamed) == Some(File(toStore, true)) && Of(renamed, p) == Renamed(c)
    requires renamed.lock == Some(p)
    ensures last == (if fault.NoFault? then SyncDirectory(p) else Fail(p)) && Next(maxEntries, renamed, last, s')
    ensures Quiet(s', p) && FileOf(Visible(s')) == Some(toStore)
    ensures s'.trace == renamed.trace + if fault.NoFault? then [Succeeded(c)] else []
    ensures fault.NoFault? ==> |s'.versions| == 1
  {
    if fault.NoFault? {
      last := SyncDirectory(p);
      s' := Release(renamed.(versions := [Visible(renamed)], trace := renamed.trace + [Succeeded(c)]), p);
    } else {
      last, s' := Fail(p), Release(renamed, p);
    }
  }

  /**
   Every result of `Claim` is a run of the protocol's steps by one process: the run leaves the same file,
   its steps respect the faults that were met, and the trace shows a success exactly when one was
   reported, which is only after the directory was synced.
   */
  lemma ClaimRunsProtocol(cfg: Config, s: State, p: nat, call: Call, ioFault: bool, fault: StoreFault,
                          file': Option<seq<Record>>, result: Result)
    returns (states: seq<State>, steps: seq<Step>)
    requires Quiet(s, p) && ClaimStep(cfg, FileOf(Visible(s)), call, ioFault, fault, file', result)
    ensures call.now.Some? || !(result.Claimed? || result == Unavailable(StoreFailed))
    ensures ClaimPath(cfg.maxEntries, s, p, states, steps, file', EventsOf(call, fault, result), ioFault, fault)
    ensures result.Claimed? ==> |states[|steps|].versions| == 1
  {
    var max, records := cfg.maxEntries, RecordsOf(Visible(s));
    if !InputOk(call) {
      states, steps := [s], [];
      assert s.trace + [] == s.trace;
    } else {
      var c := ClaimOf(call);
      var scan := ScanRecords(records, c.now, c.requestID);
      if ioFault || LoadRecords(cfg, FileOf(Visible(s))).None? {
        states, steps := FailedClaimRuns(max, s, p, c, ioFault, fault);
      } else if !scan.Active? || |scan.records| >= max {
        states, steps := RefusedClaimRuns(max, s, p, c, fault);
      } else if fault.BeforeRename? {
        states, steps := FailedClaimRuns(max, s, p, c, ioFault, fault);
      } else {
        states, steps := StoringClaimRuns(max, s, p, c, file'.value, fault);
      }
    }
  }
}
