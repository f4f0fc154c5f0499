/**
 Executable manifests and execution plans (integrity/authority.go).

 `manifestDigest` and `planDigest` stand for hex(SHA-256(JSON(.))); file inspection is a parameter.
 */
module Integrity {
  import opened Common
  import opened Orders
  import opened Paths
  import opened Patterns
  import Resource

  const SCHEMA := "brick.host-isolation.integrity.v1"

  datatype Environment = Environment(name: string, value: string)

  datatype Dependency = Dependency(path: string, digest: string, ownerUID: nat, mode: nat)

  datatype Entry = Entry(
    path: string, digest: string, ownerUID: nat, mode: nat, arguments: seq<string>, interpreter: Option<Dependency>,
    runtimeDependencies: seq<Dependency>, environment: seq<Environment>)

  datatype Manifest = Manifest(
    schema: string, manifestID: string, profile: string, entries: seq<Entry>, signatureAlgorithm: string,
    signature: string)

  datatype Request = Request(
    schema: string, cageID: string, profile: string, resourcePlanDigest: string, executablePath: string,
    arguments: seq<string>, requestedEnvironment: seq<Environment>)

  datatype FileIdentity = FileIdentity(digest: string, ownerUID: nat, mode: nat, regular: bool, symlink: bool)

  datatype ExecPlan = ExecPlan(
    schema: string, cageID: string, profile: string, resourcePlanDigest: string, manifestID: string,
    manifestDigest: string, executablePath: string, interpreterPath: string, arguments: seq<string>,
    environment: seq<Environment>, closeDescriptorsAt: nat, workingDirectory: string, noPathLookup: bool,
    planDigest: string)

  // ----- Validation

  const BIN := "/runtime/bin/"
  const INTERPRETERS := "/runtime/interpreters/"
  const LIB := "/runtime/lib/"

  predicate ContainsDotDot(s: string) {
    exists i :: 0 <= i < |s| - 1 && s[i] == '.' && s[i + 1] == '.'
  }

  predicate CleanPath(s: string) {
    Rooted(s) && Clean(s) == s && !ContainsDoubleSlash(s) && !ContainsDotDot(s)
  }

  predicate SafeExecutablePath(s: string) {
    (BIN <= s || INTERPRETERS <= s) && CleanPath(s)
  }

  predicate SafeRuntimePath(s: string) {
    (LIB <= s || INTERPRETERS <= s || BIN <= s) && CleanPath(s)
  }

  predicate ValidArguments(arguments: seq<string>) {
    && |arguments| <= 32
    && forall i :: 0 <= i < |arguments| ==>
      && 1 <= |arguments[i]| <= 512
      && forall k :: 0 <= k < |arguments[i]| ==> arguments[i][k] !in ['\0', '\r', '\n']
  }

  /** The four variables the name and value tables leave, with their permitted values. */
  predicate SafeEnvironment(e: Environment) {
    || (e.name == "HOME" && e.value == "/nonexistent")
    || (e.name == "TMPDIR" && e.value == "/tmp")
    || (e.name == "TZ" && e.value == "UTC")
    || (e.name == "LANG" && (e.value == "C" || e.value == "C.UTF-8"))
  }

  function NameOf(): Environment -> string {
    (e: Environment) => e.name
  }

  function PathOf(): Dependency -> string {
    (d: Dependency) => d.path
  }

  function EntryPath(): Entry -> string {
    (e: Entry) => e.path
  }

  ghost predicate ValidEnvironment(env: seq<Environment>) {
    |env| <= 4 && (forall i :: 0 <= i < |env| ==> SafeEnvironment(env[i])) && UniqueKeys(env, NameOf())
  }

  predicate ValidDependency(d: Dependency) {
    SafeRuntimePath(d.path) && IsDigest(d.digest) && d.ownerUID == 0 && (d.mode == 0x1ED || d.mode == 0x1A4)
  }

  ghost predicate ValidEntry(e: Entry) {
    && SafeExecutablePath(e.path) && IsDigest(e.digest) && e.ownerUID == 0 && e.mode == 0x1ED
    && ValidArguments(e.arguments) && ValidEnvironment(e.environment)
    && (e.interpreter.Some? ==> ValidDependency(e.interpreter.value))
    && (forall i :: 0 <= i < |e.runtimeDependencies| ==> ValidDependency(e.runtimeDependencies[i]))
    && UniqueKeys(e.runtimeDependencies, PathOf())
  }

  /** `validManifest`. */
  ghost predicate ValidManifest(m: Manifest) {
    && m.schema == SCHEMA && m.manifestID != "" && (m.profile == "sharedTenant" || m.profile == "dedicatedAdministrator")
    && m.entries != [] && (forall i :: 0 <= i < |m.entries| ==> ValidEntry(m.entries[i]))
    && UniqueKeys(m.entries, EntryPath())
  }

  // ----- Canonical forms

  /** `canonicalEnvironment`. */
  ghost function CanonicalEnvironment(env: seq<Environment>): (r: seq<Environment>)
    ensures IsSorting(r, env, ByKey(NameOf()))
  {
    ByKeyStrictWeak(NameOf());
    SortSlice(env, ByKey(NameOf()))
  }

  ghost function SortDependencies(ds: seq<Dependency>): (r: seq<Dependency>)
    ensures IsSorting(r, ds, ByKey(PathOf()))
  {
    ByKeyStrictWeak(PathOf());
    SortSlice(ds, ByKey(PathOf()))
  }

  ghost function Normalise(): Entry -> Entry {
    (e: Entry) => e.(environment := CanonicalEnvironment(e.environment),
                     runtimeDependencies := SortDependencies(e.runtimeDependencies))
  }

  ghost function SortEntries(es: seq<Entry>): (r: seq<Entry>)
    ensures IsSorting(r, es, ByKey(EntryPath()))
  {
    ByKeyStrictWeak(EntryPath());
    SortSlice(es, ByKey(EntryPath()))
  }

  /** `canonicalManifest`: sort the entries, then each entry's lists. */
  ghost function CanonicalManifest(m: Manifest): Manifest {
    m.(signature := "", entries := Map(Normalise(), SortEntries(m.entries)))
  }

  // ----- Equality up to order

  datatype EntryBag = EntryBag(
    path: string, digest: string, ownerUID: nat, mode: nat, arguments: seq<string>, interpreter: Option<Dependency>,
    runtimeDependencies: multiset<Dependency>, environment: multiset<Environment>)

  function BagOf(): Entry -> EntryBag {
    (e: Entry) => EntryBag(e.path, e.digest, e.ownerUID, e.mode, e.arguments, e.interpreter,
                           multiset(e.runtimeDependencies), multiset(e.environment))
  }

  /** The manifests differ at most in signature and in the order of entries, dependencies and variables. */
  ghost predicate SameManifest(a: Manifest, b: Manifest) {
    && a.(signature := "", entries := []) == b.(signature := "", entries := [])
    && multiset(Map(BagOf(), a.entries)) == multiset(Map(BagOf(), b.entries))
  }

  lemma SameBagSameNormal(a: Entry, b: Entry)
    requires ValidEntry(a) && BagOf()(a) == BagOf()(b)
    ensures Normalise()(a) == Normalise()(b)
  {
    UniqueKeysSeparate(a.environment, NameOf());
    UniqueKeysSeparate(a.runtimeDependencies, PathOf());
    ByKeyStrictWeak(NameOf());
    ByKeyStrictWeak(PathOf());
    assert BagOf()(a).environment == BagOf()(b).environment;
    assert BagOf()(a).runtimeDependencies == BagOf()(b).runtimeDependencies;
    SortSliceOrderFree(a.environment, b.environment, ByKey(NameOf()));
    SortSliceOrderFree(a.runtimeDependencies, b.runtimeDependencies, ByKey(PathOf()));
  }

  ghost predicate Fills(e: Entry, bag: EntryBag) {
    ValidEntry(e) && BagOf()(e) == bag
  }

  /** Some valid entry with this bag, if there is one. */
  ghost function FillerOf(bag: EntryBag): (e: Entry)
    ensures (exists x :: Fills(x, bag)) ==> Fills(e, bag)
  {
    if x :| Fills(x, bag) then x else Entry("", "", 0, 0, [], None, [], [])
  }

  /** The normal form of a bag, through any valid entry that has it. */
  ghost function NormalOfBag(): EntryBag -> Entry {
    (bag: EntryBag) => Normalise()(FillerOf(bag))
  }

  lemma NormalOfItsBag(e: Entry)
    requires ValidEntry(e)
    ensures NormalOfBag()(BagOf()(e)) == Normalise()(e)
  {
    assert Fills(e, BagOf()(e));
    SameBagSameNormal(FillerOf(BagOf()(e)), e);
  }

  lemma NormaliseThroughBags(es: seq<Entry>)
    requires forall i :: 0 <= i < |es| ==> ValidEntry(es[i])
    ensures Map(Normalise(), es) == Map(NormalOfBag(), Map(BagOf(), es))
  {
    forall i | 0 <= i < |es|
      ensures Normalise()(es[i]) == NormalOfBag()(BagOf()(es[i]))
    {
      NormalOfItsBag(es[i]);
    }
  }

  lemma SortedNormalEntries(es: seq<Entry>)
    requires UniqueKeys(es, EntryPath())
    ensures IsSorting(Map(Normalise(), SortEntries(es)), Map(Normalise(), es), ByKey(EntryPath()))
    ensures UniqueKeys(Map(Normalise(), SortEntries(es)), EntryPath())
  {
    var sorted := SortEntries(es);
    var r := Map(Normalise(), sorted);
    MapPermute(Normalise(), sorted, es);
    UniqueKeysPermute(sorted, es, EntryPath());
    forall i, j | 0 <= i < j < |r|
      ensures !ByKey(EntryPath())(r[j], r[i]) && EntryPath()(r[i]) != EntryPath()(r[j])
    {
      assert !ByKey(EntryPath())(sorted[j], sorted[i]);
      assert EntryPath()(sorted[i]) != EntryPath()(sorted[j]);
      assert r[i].path == sorted[i].path && r[j].path == sorted[j].path;
    }
  }

  lemma CanonicalKeepsBags(m: Manifest)
    ensures multiset(Map(BagOf(), CanonicalManifest(m).entries)) == multiset(Map(BagOf(), m.entries))
  {
    var sorted := SortEntries(m.entries);
    MapPermute(BagOf(), sorted, m.entries);
    var normal := Map(Normalise(), sorted);
    forall i | 0 <= i < |sorted|
      ensures BagOf()(normal[i]) == BagOf()(sorted[i])
    {
    }
    assert Map(BagOf(), normal) == Map(BagOf(), sorted);
  }

  lemma SameManifestSameEntries(a: Manifest, b: Manifest)
    requires ValidManifest(a) && ValidManifest(b) && SameManifest(a, b)
    ensures CanonicalManifest(a).entries == CanonicalManifest(b).entries
  {
    NormaliseThroughBags(a.entries);
    NormaliseThroughBags(b.entries);
    MapPermute(NormalOfBag(), Map(BagOf(), a.entries), Map(BagOf(), b.entries));
    SortedNormalEntries(a.entries);
    SortedNormalEntries(b.entries);
    var x, y := CanonicalManifest(a).entries, CanonicalManifest(b).entries;
    UniqueKeysSeparate(x, EntryPath());
    SortingUnique(x, y, ByKey(EntryPath()));
  }

  /** For valid manifests, equal canonical forms mean equal manifests up to order and signature, and conversely. */
  lemma CanonicalManifestIff(a: Manifest, b: Manifest)
    requires ValidManifest(a) && ValidManifest(b)
    ensures CanonicalManifest(a) == CanonicalManifest(b) <==> SameManifest(a, b)
  {
    var fa, fb := a.(signature := "", entries := []), b.(signature := "", entries := []);
    if SameManifest(a, b) {
      SameManifestSameEntries(a, b);
      assert fa.(entries := CanonicalManifest(a).entries) == CanonicalManifest(a);
      assert fb.(entries := CanonicalManifest(b).entries) == CanonicalManifest(b);
    }
    if CanonicalManifest(a) == CanonicalManifest(b) {
      CanonicalKeepsBags(a);
      CanonicalKeepsBags(b);
      assert CanonicalManifest(a).(entries := []) == fa && CanonicalManifest(b).(entries := []) == fb;
    }
  }

  // ----- Plans

  datatype Authority = Authority(
    manifest: Manifest, manifestDigest: Manifest -> string, planDigest: ExecPlan -> string,
    resourceDigest: Resource.Digest, inspect: string -> Option<FileIdentity>)

  ghost predicate Injective<T(!new)>(f: T -> string) {
    forall a, b :: f(a) == f(b) ==> a == b
  }

  predicate Matches(a: Authority, path: string, digest: string, ownerUID: nat, mode: nat) {
    && a.inspect(path).Some?
    && var id := a.inspect(path).value;
       id.regular && !id.symlink && id.digest == digest && id.ownerUID == ownerUID && id.mode == mode
  }

  predicate DependencyMatches(a: Authority, d: Dependency) {
    Matches(a, d.path, d.digest, d.ownerUID, d.mode)
  }

  /** `findEntry`: the first entry with this path. */
  function FindEntry(entries: seq<Entry>, path: string): (r: Option<Entry>)
    ensures r.Some? ==> r.value in entries && r.value.path == path
    ensures r.None? ==> forall e :: e in entries ==> e.path != path
  {
    if entries == [] then None
    else if entries[0].path == path then Some(entries[0])
    else FindEntry(entries[1..], path)
  }

  /** The manifest as the authority keeps it. */
  ghost function Kept(a: Authority): Manifest {
    CanonicalManifest(a.manifest)
  }

  /** The tests of `Prepare` after the resource plan: binding, path and arguments, then file integrity. */
  ghost predicate Approved(a: Authority, r: Request, res: Resource.Plan, entry: Entry) {
    && r.schema == SCHEMA && IsCageID(r.cageID) && r.cageID == res.cageID && r.profile == a.manifest.profile
    && r.profile == res.profile && IsDigest(r.resourcePlanDigest) && r.resourcePlanDigest == res.planDigest
    && SafeExecutablePath(r.executablePath) && ValidArguments(r.arguments) && r.requestedEnvironment == []
    && FindEntry(Kept(a).entries, r.executablePath) == Some(entry) && entry.arguments == r.arguments
    && Matches(a, entry.path, entry.digest, entry.ownerUID, entry.mode)
    && (entry.interpreter.Some? ==> DependencyMatches(a, entry.interpreter.value))
    && forall i :: 0 <= i < |entry.runtimeDependencies| ==> DependencyMatches(a, entry.runtimeDependencies[i])
  }

  function InterpreterPath(entry: Entry): string {
    if entry.interpreter.Some? then entry.interpreter.value.path else ""
  }

  ghost function Draft(a: Authority, r: Request, entry: Entry): ExecPlan {
    ExecPlan(SCHEMA, r.cageID, r.profile, r.resourcePlanDigest, a.manifest.manifestID, a.manifestDigest(Kept(a)),
             entry.path, InterpreterPath(entry), entry.arguments, CanonicalEnvironment(entry.environment), 3, "/", true, "")
  }

  /** `digestExecPlan`. */
  ghost function DigestOf(a: Authority, p: ExecPlan): string {
    a.planDigest(p.(planDigest := "", environment := CanonicalEnvironment(p.environment)))
  }

  datatype Outcome = Planned(plan: ExecPlan) | Refused

  /** `Prepare`. */
  ghost function Prepare(a: Authority, cancelled: bool, auditOk: bool, res: Resource.Plan, r: Request): Outcome {
    if cancelled || !Resource.VerifyPlan(a.resourceDigest, res) || !auditOk then Refused
    else
      match FindEntry(Kept(a).entries, r.executablePath)
      case None => Refused
      case Some(entry) =>
        if Approved(a, r, res, entry) then
          Planned(Draft(a, r, entry).(planDigest := DigestOf(a, Draft(a, r, entry))))
        else Refused
  }

  /** `VerifyPlan` accepts. */
  ghost predicate VerifyPlan(a: Authority, p: ExecPlan) {
    && p.schema == SCHEMA && IsCageID(p.cageID) && p.profile == a.manifest.profile && IsDigest(p.resourcePlanDigest)
    && p.manifestID == a.manifest.manifestID && p.manifestDigest == a.manifestDigest(Kept(a))
    && p.closeDescriptorsAt == 3 && p.workingDirectory == "/" && p.noPathLookup && p.planDigest == DigestOf(a, p)
    && var found := FindEntry(Kept(a).entries, p.executablePath);
       && found.Some? && found.value.arguments == p.arguments
       && CanonicalEnvironment(CanonicalEnvironment(found.value.environment)) == CanonicalEnvironment(p.environment)
       && p.interpreterPath == InterpreterPath(found.value)
  }

  lemma CanonicalEnvironmentIdempotent(env: seq<Environment>)
    requires UniqueKeys(env, NameOf())
    ensures CanonicalEnvironment(CanonicalEnvironment(env)) == CanonicalEnvironment(env)
  {
    UniqueKeysSeparate(env, NameOf());
    ByKeyStrictWeak(NameOf());
    SortSliceOrderFree(env, CanonicalEnvironment(env), ByKey(NameOf()));
  }

  lemma KeptEntriesHaveUniqueNames(a: Authority, entry: Entry)
    requires ValidManifest(a.manifest) && entry in Kept(a).entries
    ensures UniqueKeys(entry.environment, NameOf())
  {
    var sorted := SortEntries(a.manifest.entries);
    var i :| 0 <= i < |sorted| && Kept(a).entries[i] == entry;
    assert entry == Normalise()(sorted[i]);
    InMultiset(sorted[i], sorted);
    InMultiset(sorted[i], a.manifest.entries);
    assert ValidEntry(sorted[i]);
    UniqueKeysPermute(entry.environment, sorted[i].environment, NameOf());
  }

  /** Every plan that `Prepare` issues passes `VerifyPlan`. */
  lemma IssuedPlanVerifies(a: Authority, cancelled: bool, auditOk: bool, res: Resource.Plan, r: Request)
    requires ValidManifest(a.manifest) && Prepare(a, cancelled, auditOk, res, r).Planned?
    ensures VerifyPlan(a, Prepare(a, cancelled, auditOk, res, r).plan)
  {
    var entry := FindEntry(Kept(a).entries, r.executablePath).value;
    KeptEntriesHaveUniqueNames(a, entry);
    CanonicalEnvironmentIdempotent(entry.environment);
    var draft := Draft(a, r, entry);
    var plan := draft.(planDigest := DigestOf(a, draft));
    assert plan.(planDigest := "", environment := CanonicalEnvironment(plan.environment)) ==
           draft.(planDigest := "", environment := CanonicalEnvironment(draft.environment));
  }

  /** Under an injective digest, issued plans with one digest are equal, whichever authorities issued them. */
  lemma SameDigestSamePlan(a: Authority, cancelled: bool, auditOk: bool, res: Resource.Plan, r: Request,
                           b: Authority, cancelled': bool, auditOk': bool, res': Resource.Plan, r': Request)
    requires ValidManifest(a.manifest) && ValidManifest(b.manifest)
    requires a.planDigest == b.planDigest && Injective(a.planDigest)
    requires Prepare(a, cancelled, auditOk, res, r).Planned? && Prepare(b, cancelled', auditOk', res', r').Planned?
    requires Prepare(a, cancelled, auditOk, res, r).plan.planDigest == Prepare(b, cancelled', auditOk', res', r').plan.planDigest
    ensures Prepare(a, cancelled, auditOk, res, r).plan == Prepare(b, cancelled', auditOk', res', r').plan
  {
    var e, e' := FindEntry(Kept(a).entries, r.executablePath).value, FindEntry(Kept(b).entries, r'.executablePath).value;
    KeptEntriesHaveUniqueNames(a, e);
    KeptEntriesHaveUniqueNames(b, e');
    CanonicalEnvironmentIdempotent(e.environment);
    CanonicalEnvironmentIdempotent(e'.environment);
    var d, d' := Draft(a, r, e), Draft(b, r', e');
    assert d.(planDigest := "", environment := CanonicalEnvironment(d.environment)) == d;
    assert d'.(planDigest := "", environment := CanonicalEnvironment(d'.environment)) == d';
    assert d == d';
  }

  /** The file at this path was inspected: a regular file, no link, with these contents, this owner and this mode. */
  predicate Intact(a: Authority, path: string, digest: string, ownerUID: nat, mode: nat) {
    a.inspect(path) == Some(FileIdentity(digest, ownerUID, mode, true, false))
  }

  /** The manifest's entry behind a plan, and every file it needs as the manifest describes it. */
  ghost predicate Vouches(a: Authority, e: Entry, p: ExecPlan) {
    && e in a.manifest.entries && e.path == p.executablePath && e.arguments == p.arguments
    && multiset(e.environment) == multiset(p.environment)
    && p.interpreterPath == (if e.interpreter.Some? then e.interpreter.value.path else "")
    && Intact(a, e.path, e.digest, 0, 0x1ED)
    && (e.interpreter.Some? ==> var d := e.interpreter.value; Intact(a, d.path, d.digest, d.ownerUID, d.mode))
    && forall d :: d in e.runtimeDependencies ==> Intact(a, d.path, d.digest, d.ownerUID, d.mode)
  }

  /** The entry as signed, behind an entry as kept. */
  lemma KeptComesFromSigned(a: Authority, kept: Entry) returns (e: Entry)
    requires kept in Kept(a).entries
    ensures e in a.manifest.entries && kept == Normalise()(e)
    ensures multiset(kept.environment) == multiset(e.environment)
    ensures multiset(kept.runtimeDependencies) == multiset(e.runtimeDependencies)
  {
    var sorted := SortEntries(a.manifest.entries);
    var i :| 0 <= i < |sorted| && Kept(a).entries[i] == kept;
    e := sorted[i];
    InMultiset(e, sorted);
    InMultiset(e, a.manifest.entries);
  }

  /**
   No plan without integrity: behind every issued plan is an entry of the signed manifest with the plan's
   executable, arguments and variables, and the executable, its interpreter and each runtime dependency
   were found to be regular files with the contents, owner and mode that the manifest gives.
   */
  lemma PlannedFilesAreIntact(a: Authority, cancelled: bool, auditOk: bool, res: Resource.Plan, r: Request) returns (e: Entry)
    requires ValidManifest(a.manifest) && Prepare(a, cancelled, auditOk, res, r).Planned?
    ensures Vouches(a, e, Prepare(a, cancelled, auditOk, res, r).plan)
  {
    var kept := FindEntry(Kept(a).entries, r.executablePath).value;
    e := KeptComesFromSigned(a, kept);
    assert ValidEntry(e);
    assert Approved(a, r, res, kept);
    assert multiset(CanonicalEnvironment(kept.environment)) == multiset(kept.environment);
    forall d | d in e.runtimeDependencies
      ensures Intact(a, d.path, d.digest, d.ownerUID, d.mode)
    {
      InMultiset(d, e.runtimeDependencies);
      InMultiset(d, kept.runtimeDependencies);
      var i :| 0 <= i < |kept.runtimeDependencies| && kept.runtimeDependencies[i] == d;
      assert DependencyMatches(a, kept.runtimeDependencies[i]);
    }
  }

  /** The plans differ at most in the order of environment variables. */
  ghost predicate SameUpToOrder(p: ExecPlan, q: ExecPlan) {
    p.(environment := q.environment) == q && multiset(p.environment) == multiset(q.environment)
  }

  lemma SameVariablesSameForm(a: seq<Environment>, b: seq<Environment>)
    requires UniqueKeys(a, NameOf())
    ensures CanonicalEnvironment(a) == CanonicalEnvironment(b) <==> multiset(a) == multiset(b)
  {
    if multiset(a) == multiset(b) {
      UniqueKeysSeparate(a, NameOf());
      ByKeyStrictWeak(NameOf());
      SortSliceOrderFree(a, b, ByKey(NameOf()));
    }
  }

  lemma AcceptedNamesAreUnique(a: Authority, p: ExecPlan)
    requires ValidManifest(a.manifest) && VerifyPlan(a, p)
    ensures UniqueKeys(p.environment, NameOf())
  {
    var entry := FindEntry(Kept(a).entries, p.executablePath).value;
    KeptEntriesHaveUniqueNames(a, entry);
    assert multiset(p.environment) == multiset(CanonicalEnvironment(p.environment)) == multiset(entry.environment);
    UniqueKeysPermute(p.environment, entry.environment, NameOf());
  }

  /** A plan with an accepted plan's digest is accepted exactly when only its variables are reordered. */
  lemma VerifyPlanIffSameUpToOrder(a: Authority, p: ExecPlan, q: ExecPlan)
    requires ValidManifest(a.manifest) && Injective(a.planDigest) && VerifyPlan(a, p)
    requires q.planDigest == p.planDigest
    ensures VerifyPlan(a, q) <==> SameUpToOrder(p, q)
  {
    AcceptedNamesAreUnique(a, p);
    SameVariablesSameForm(p.environment, q.environment);
    var x := p.(planDigest := "", environment := CanonicalEnvironment(p.environment));
    var y := q.(planDigest := "", environment := CanonicalEnvironment(q.environment));
    if VerifyPlan(a, q) {
      assert x == y;
      assert x.(planDigest := p.planDigest, environment := q.environment) == p.(environment := q.environment);
      assert y.(planDigest := p.planDigest, environment := q.environment) == q;
    }
    if SameUpToOrder(p, q) {
      assert x == p.(environment := q.environment).(planDigest := "", environment := CanonicalEnvironment(q.environment)) == y;
      assert q.executablePath == p.(environment := q.environment).executablePath == p.executablePath;
    }
  }
}
