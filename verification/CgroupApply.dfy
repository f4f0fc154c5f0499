/**
 Applying a resource plan to the cgroup filesystem with deferred rollback (resource/authority.go).

 A call carries which of its actions the filesystem refuses, when its context is cancelled and
 whether the audit sink accepts; the theorems range over all of them.
 */
module CgroupApply {
  import opened Orders
  import opened CgroupWrites
  import Resource

  datatype Op = Mkdir(path: string, ok: bool) | WriteFile(path: string, write: ControlWrite, ok: bool)
              | Remove(path: string)

  /** `writeFails(i)` and `cancelledBefore(i)` speak of the i-th control write. */
  datatype Faults = Faults(
    cancelledAtEntry: bool, mkdirFails: bool, cancelledBefore: nat -> bool, writeFails: nat -> bool, auditFails: bool,
    removeFails: bool)

  /** The broker's child cgroups with their control values, the operations performed, and the audit records. */
  datatype Host = Host(children: map<string, map<string, string>>, log: seq<Op>, audit: seq<string>)

  function WriteOp(path: string): ControlWrite -> Op {
    (w: ControlWrite) => WriteFile(path, w, true)
  }

  /** The files present after these writes. */
  function FilesAfter(writes: seq<ControlWrite>): map<string, string> {
    if writes == [] then map[]
    else
      var last := writes[|writes| - 1];
      FilesAfter(writes[..|writes| - 1])[last.file := last.value]
  }

  /** Mkdir and these writes. */
  function MakeOps(path: string, writes: seq<ControlWrite>): seq<Op> {
    [Mkdir(path, true)] + Map(WriteOp(path), writes)
  }

  /** How far the control writes get: to the first one refused or pre-empted by cancellation, or to the end. */
  function Progress(faults: Faults, writes: seq<ControlWrite>, i: nat): (n: nat)
    requires i <= |writes|
    ensures i <= n <= |writes|
    decreases |writes| - i
  {
    if i == |writes| || faults.cancelledBefore(i) || faults.writeFails(i) then i else Progress(faults, writes, i + 1)
  }

  /** The operations until the write loop ends; a refused write is still an operation. */
  function AttemptOps(path: string, writes: seq<ControlWrite>, faults: Faults): seq<Op> {
    var n := Progress(faults, writes, 0);
    if n == |writes| || faults.cancelledBefore(n) then MakeOps(path, writes[..n])
    else MakeOps(path, writes[..n]) + [WriteFile(path, writes[n], false)]
  }

  function Attempted(h: Host, path: string, writes: seq<ControlWrite>, faults: Faults): Host {
    Host(h.children[path := FilesAfter(writes[..Progress(faults, writes, 0)])],
         h.log + AttemptOps(path, writes, faults), h.audit)
  }

  /** The deferred removal. */
  function RolledBack(h: Host, path: string, faults: Faults): Host {
    Host(if faults.removeFails then h.children else h.children - {path}, h.log + [Remove(path)], h.audit)
  }

  /** `ApplyCgroup` as a function of the fault pattern; `verified` is the answer of `VerifyPlan`. */
  function ApplyResult(h: Host, plan: Resource.Plan, verified: bool, faults: Faults): (Host, bool) {
    var path, writes := plan.cgroupPath, plan.writes;
    if faults.cancelledAtEntry || !verified then (h, false)
    else if faults.mkdirFails || path in h.children then (h.(log := h.log + [Mkdir(path, false)]), false)
    else
      var a := Attempted(h, path, writes, faults);
      if Progress(faults, writes, 0) < |writes| || faults.auditFails then (RolledBack(a, path, faults), false)
      else (a.(audit := a.audit + [plan.planDigest]), true)
  }

  lemma NothingWritten(path: string, writes: seq<ControlWrite>)
    ensures FilesAfter(writes[..0]) == map[] && MakeOps(path, writes[..0]) == [Mkdir(path, true)]
  {
    assert Map(WriteOp(path), writes[..0]) == [];
  }

  /** One more successful write. */
  lemma WrittenExtends(path: string, writes: seq<ControlWrite>, i: nat)
    requires i < |writes|
    ensures FilesAfter(writes[..i + 1]) == FilesAfter(writes[..i])[writes[i].file := writes[i].value]
    ensures MakeOps(path, writes[..i + 1]) == MakeOps(path, writes[..i]) + [WriteFile(path, writes[i], true)]
  {
    assert writes[..i + 1][..i] == writes[..i];
    assert Map(WriteOp(path), writes[..i + 1]) == Map(WriteOp(path), writes[..i]) + [WriteFile(path, writes[i], true)];
  }

  lemma Overwrite(m: map<string, map<string, string>>, k: string, a: map<string, string>, b: map<string, string>)
    ensures m[k := a][k := b] == m[k := b]
  {
  }

  class CgroupHost {
    var children: map<string, map<string, string>>
    var log: seq<Op>
    var audit: seq<string>

    constructor ()
      ensures State() == Host(map[], [], [])
    {
      children, log, audit := map[], [], [];
    }

    ghost function State(): Host
      reads this
    {
      Host(children, log, audit)
    }

    /** One accepted control write, which leaves the child with `files`. */
    method WriteOne(path: string, write: ControlWrite, files: map<string, string>)
      requires path in children && files == children[path][write.file := write.value]
      modifies this`children, this`log
      ensures children == old(children)[path := files] && log == old(log) + [WriteFile(path, write, true)]
    {
      log := log + [WriteFile(path, write, true)];
      children := children[path := files];
    }

    /** Mkdir and the write loop, which stops at the first refusal or cancellation. */
    method Attempt(path: string, writes: seq<ControlWrite>, faults: Faults) returns (all: bool)
      requires path !in children
      modifies this
      ensures State() == Attempted(old(State()), path, writes, faults)
      ensures all <==> Progress(faults, writes, 0) == |writes|
    {
      log := log + [Mkdir(path, true)];
      var files: map<string, string> := map[];
      children := children[path := files];
      NothingWritten(path, writes);
      ghost var ops := MakeOps(path, writes[..0]);
      var i := 0;
      while i < |writes|
        invariant 0 <= i <= |writes|
        invariant Progress(faults, writes, 0) == Progress(faults, writes, i)
        invariant files == FilesAfter(writes[..i]) && ops == MakeOps(path, writes[..i])
        invariant children == old(children)[path := files] && audit == old(audit) && log == old(log) + ops
      {
        if faults.cancelledBefore(i) {
          return false;
        }
        if faults.writeFails(i) {
          log := log + [WriteFile(path, writes[i], false)];
          assert log == old(log) + (ops + [WriteFile(path, writes[i], false)]);
          return false;
        }
        WrittenExtends(path, writes, i);
        ops := ops + [WriteFile(path, writes[i], true)];
        files := files[writes[i].file := writes[i].value];
        label before:
        Overwrite(old(children), path, children[path], files);
        WriteOne(path, writes[i], files);
        assert log == old(log) + ops by {
          assert old@before(log) + [WriteFile(path, writes[i], true)] == old(log) + ops;
        }
        i := i + 1;
      }
      return true;
    }

    /** `ApplyCgroup`. */
    method Apply(plan: Resource.Plan, verified: bool, faults: Faults) returns (ok: bool)
      modifies this
      ensures (State(), ok) == ApplyResult(old(State()), plan, verified, faults)
    {
      if faults.cancelledAtEntry || !verified {
        return false;
      }
      var path := plan.cgroupPath;
      if faults.mkdirFails || path in children {
        log := log + [Mkdir(path, false)];
        return false;
      }
      var completed := Attempt(path, plan.writes, faults);
      if completed && !faults.auditFails {
        audit := audit + [plan.planDigest];
        return true;
      }
      if !faults.removeFails {
        children := children - {path};
      }
      log := log + [Remove(path)];
      return false;
    }
  }

  // ----- All or nothing

  function FileOf(): ControlWrite -> string {
    (w: ControlWrite) => w.file
  }

  lemma {:induction false} FilesAfterUnique(writes: seq<ControlWrite>)
    requires UniqueKeys(writes, FileOf())
    ensures forall i :: 0 <= i < |writes| ==>
      writes[i].file in FilesAfter(writes) && FilesAfter(writes)[writes[i].file] == writes[i].value
    ensures forall f :: f in FilesAfter(writes) ==> exists i :: 0 <= i < |writes| && writes[i].file == f
  {
    if writes != [] {
      var n := |writes| - 1;
      FilesAfterUnique(writes[..n]);
      forall i | 0 <= i < n
        ensures writes[i].file != writes[n].file
      {
        assert FileOf()(writes[i]) != FileOf()(writes[n]);
      }
    }
  }

  /** A child holds exactly the six planned control files with their planned values. */
  ghost predicate ExactlyPlanned(files: map<string, string>, writes: seq<ControlWrite>)
    requires |writes| == |FILES|
  {
    && (forall i :: 0 <= i < |FILES| ==> FILES[i] in files && files[FILES[i]] == writes[i].value)
    && forall f :: f in files ==> f in FILES
  }

  lemma CanonicalFilesAreUnique(writes: seq<ControlWrite>)
    requires CanonicalWrites(writes)
    ensures UniqueKeys(writes, FileOf())
  {
    forall i, j | 0 <= i < j < |writes|
      ensures FileOf()(writes[i]) != FileOf()(writes[j])
    {
      assert writes[i].file == FILES[i] && writes[j].file == FILES[j];
    }
  }

  lemma PlannedFiles(writes: seq<ControlWrite>)
    requires CanonicalWrites(writes)
    ensures ExactlyPlanned(FilesAfter(writes), writes)
  {
    CanonicalFilesAreUnique(writes);
    FilesAfterUnique(writes);
  }

  /** Operations on `path` in `log` that remove it. */
  function Removals(log: seq<Op>, path: string): nat {
    if log == [] then 0
    else Removals(log[..|log| - 1], path) + if log[|log| - 1] == Remove(path) then 1 else 0
  }

  lemma {:induction false} RemovalsConcat(a: seq<Op>, b: seq<Op>, path: string)
    ensures Removals(a + b, path) == Removals(a, path) + Removals(b, path)
  {
    if b == [] {
      assert a + b == a;
    } else {
      RemovalsConcat(a, b[..|b| - 1], path);
      assert (a + b)[..|a + b| - 1] == a + b[..|b| - 1];
    }
  }

  lemma {:induction false} NoRemovals(ops: seq<Op>, path: string)
    requires forall i :: 0 <= i < |ops| ==> !ops[i].Remove?
    ensures Removals(ops, path) == 0
  {
    if ops != [] {
      NoRemovals(ops[..|ops| - 1], path);
    }
  }

  /** `h'` is `h` plus operations whose removals of `path` number `removals`; old entries of the log stay. */
  ghost predicate Logged(h: Host, h': Host, path: string, removals: nat) {
    h.log <= h'.log && Removals(h'.log, path) == Removals(h.log, path) + removals
  }

  lemma AttemptRemovesNothing(path: string, writes: seq<ControlWrite>, faults: Faults)
    ensures forall i :: 0 <= i < |AttemptOps(path, writes, faults)| ==> !AttemptOps(path, writes, faults)[i].Remove?
  {
    var done := writes[..Progress(faults, writes, 0)];
    var made, ops := MakeOps(path, done), AttemptOps(path, writes, faults);
    forall i | 0 <= i < |made|
      ensures !made[i].Remove?
    {
      assert i > 0 ==> made[i] == WriteOp(path)(done[i - 1]);
    }
    assert forall i :: 0 <= i < |made| ==> ops[i] == made[i];
  }

  /** The attempt removes nothing and touches one child. */
  lemma AttemptLogs(h: Host, path: string, writes: seq<ControlWrite>, faults: Faults)
    requires path !in h.children
    ensures var a := Attempted(h, path, writes, faults);
            Logged(h, a, path, 0) && path in a.children && a.children - {path} == h.children && a.audit == h.audit
  {
    var ops := AttemptOps(path, writes, faults);
    AttemptRemovesNothing(path, writes, faults);
    NoRemovals(ops, path);
    RemovalsConcat(h.log, ops, path);
  }

  /** What every application does to the host, for every fault and cancellation point. */
  ghost predicate AllOrNothing(h: Host, plan: Resource.Plan, entered: bool, made: bool, faults: Faults, h': Host, ok: bool) {
    var path := plan.cgroupPath;
    if !entered then !ok && h' == h
    else if !made then !ok && h' == h.(log := h.log + [Mkdir(path, false)])
    else if ok then
      && |plan.writes| == |FILES| && path in h'.children && ExactlyPlanned(h'.children[path], plan.writes)
      && h'.children - {path} == h.children && h'.audit == h.audit + [plan.planDigest]
      && Logged(h, h', path, 0)
    else
      && h'.audit == h.audit && Logged(h, h', path, 1) && h'.log[|h'.log| - 1] == Remove(path)
      && (if faults.removeFails then h'.children - {path} == h.children else h'.children == h.children)
  }

  lemma MadeIsAllOrNothing(h: Host, plan: Resource.Plan, faults: Faults)
    requires CanonicalWrites(plan.writes) && plan.cgroupPath !in h.children
    requires !faults.cancelledAtEntry && !faults.mkdirFails
    ensures var (h', ok) := ApplyResult(h, plan, true, faults);
            AllOrNothing(h, plan, true, true, faults, h', ok)
  {
    var path, writes := plan.cgroupPath, plan.writes;
    var a := Attempted(h, path, writes, faults);
    AttemptLogs(h, path, writes, faults);
    if Progress(faults, writes, 0) < |writes| || faults.auditFails {
      assert [Remove(path)][..0] == [];
      RemovalsConcat(a.log, [Remove(path)], path);
    } else {
      assert writes[..|writes|] == writes;
      PlannedFiles(writes);
    }
  }

  /** No control write is refused or pre-empted by cancellation. */
  ghost predicate NoWriteStops(faults: Faults, writes: seq<ControlWrite>) {
    forall i :: 0 <= i < |writes| ==> !faults.cancelledBefore(i) && !faults.writeFails(i)
  }

  lemma {:induction false} ProgressIsWhole(faults: Faults, writes: seq<ControlWrite>, i: nat)
    requires i <= |writes|
    ensures Progress(faults, writes, i) == |writes| <==>
      forall k :: i <= k < |writes| ==> !faults.cancelledBefore(k) && !faults.writeFails(k)
    decreases |writes| - i
  {
    if i < |writes| && !faults.cancelledBefore(i) && !faults.writeFails(i) {
      ProgressIsWhole(faults, writes, i + 1);
    }
  }

  lemma SucceedsIff(h: Host, plan: Resource.Plan, verified: bool, faults: Faults)
    ensures ApplyResult(h, plan, verified, faults).1 <==>
      && !faults.cancelledAtEntry && verified && !faults.mkdirFails && plan.cgroupPath !in h.children
      && NoWriteStops(faults, plan.writes) && !faults.auditFails
  {
    ProgressIsWhole(faults, plan.writes, 0);
  }

  /**
   Success leaves exactly the planned files and an audit record; a failure after Mkdir removes the child
   exactly once; a refused Mkdir neither writes nor removes; and success is reached exactly when
   nothing refuses.
   */
  lemma ApplyIsAllOrNothing(h: Host, plan: Resource.Plan, digest: Resource.Digest, verified: bool, faults: Faults)
    requires verified == Resource.VerifyPlan(digest, plan)
    ensures var (h', ok) := ApplyResult(h, plan, verified, faults);
            var entered := !faults.cancelledAtEntry && verified;
            var made := !faults.mkdirFails && plan.cgroupPath !in h.children;
            && AllOrNothing(h, plan, entered, made, faults, h', ok)
            && (ok <==> entered && made && !faults.auditFails && NoWriteStops(faults, plan.writes))
  {
    SucceedsIff(h, plan, verified, faults);
    VerifiedWrites(digest, plan);
    if !faults.cancelledAtEntry && verified && !faults.mkdirFails && plan.cgroupPath !in h.children {
      MadeIsAllOrNothing(h, plan, faults);
    }
  }

  lemma VerifiedWrites(digest: Resource.Digest, plan: Resource.Plan)
    ensures Resource.VerifyPlan(digest, plan) ==> CanonicalWrites(plan.writes)
  {
  }

  /** After a successful application the child's files, read back, are the limits the plan was rendered from. */
  lemma AppliedFilesTell(h: Host, plan: Resource.Plan, digest: Resource.Digest, faults: Faults, limits: Limits, max: Limits)
    requires LimitsOk(limits, max) && plan.writes == Writes(limits)
    ensures var (h', ok) := ApplyResult(h, plan, Resource.VerifyPlan(digest, plan), faults);
            ok ==> plan.cgroupPath in h'.children && Tells(h'.children[plan.cgroupPath], limits)
  {
    var verified := Resource.VerifyPlan(digest, plan);
    ApplyIsAllOrNothing(h, plan, digest, verified, faults);
    var (h', ok) := ApplyResult(h, plan, verified, faults);
    if ok {
      PlannedFilesTell(h'.children[plan.cgroupPath], limits, max);
    }
  }

  lemma PlannedFilesTell(files: map<string, string>, limits: Limits, max: Limits)
    requires LimitsOk(limits, max) && |Writes(limits)| == |FILES| && ExactlyPlanned(files, Writes(limits))
    ensures Tells(files, limits)
  {
    var writes := Writes(limits);
    RenderedWritesAreCanonical(limits, max);
    forall w | w in writes
      ensures w.file in files && files[w.file] == w.value
    {
      var i :| 0 <= i < |writes| && writes[i] == w;
      assert writes[i].file == FILES[i];
    }
    WritesTellLimits(limits, max, files);
  }
}
