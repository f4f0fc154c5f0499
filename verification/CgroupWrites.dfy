/**
 Resource limits and the cgroup v2 control-file writes they become (resource/authority.go).
 */
module CgroupWrites {
  import opened Orders
  import opened Strings
  import opened Patterns

  datatype IOThrottle = IOThrottle(device: string, readBPS: nat, writeBPS: nat, readIOPS: nat, writeIOPS: nat)

  datatype Limits = Limits(
    cpuQuotaMicros: nat, cpuPeriodMicros: nat, memoryMaxBytes: nat, memoryHighBytes: nat, memorySwapMaxBytes: nat,
    pidsMax: nat, io: seq<IOThrottle>, fileDescriptorMax: nat, wallClockSeconds: nat)

  datatype ControlWrite = ControlWrite(file: string, value: string)

  const FILES: seq<string> := ["cpu.max", "memory.max", "memory.high", "memory.swap.max", "pids.max", "io.max"]

  // ----- Validation

  predicate ThrottleOk(t: IOThrottle) {
    IsDevice(t.device) && t.readBPS > 0 && t.writeBPS > 0 && t.readIOPS > 0 && t.writeIOPS > 0
  }

  predicate ScalarsOk(a: Limits, max: Limits) {
    && a.cpuQuotaMicros > 0 && a.cpuPeriodMicros == 100000 && a.cpuQuotaMicros <= a.cpuPeriodMicros
    && a.memoryMaxBytes > 0 && 0 < a.memoryHighBytes <= a.memoryMaxBytes && a.pidsMax > 0 && a.fileDescriptorMax > 0
    && a.wallClockSeconds > 0 && a.io != []
    && a.cpuQuotaMicros <= max.cpuQuotaMicros && a.memoryMaxBytes <= max.memoryMaxBytes
    && a.memoryHighBytes <= max.memoryHighBytes && a.memorySwapMaxBytes <= max.memorySwapMaxBytes
    && a.pidsMax <= max.pidsMax && a.fileDescriptorMax <= max.fileDescriptorMax
    && a.wallClockSeconds <= max.wallClockSeconds
  }

  function DeviceOf(): IOThrottle -> string {
    (t: IOThrottle) => t.device
  }

  ghost predicate LimitsOk(a: Limits, max: Limits) {
    && ScalarsOk(a, max)
    && (forall i :: 0 <= i < |a.io| ==> ThrottleOk(a.io[i]))
    && UniqueKeys(a.io, DeviceOf())
  }

  /** No limit exceeds the maximum, the quota fits its period, and every limit that must be set is. */
  ghost predicate Bounded(a: Limits, max: Limits) {
    && 0 < a.cpuQuotaMicros <= max.cpuQuotaMicros && a.cpuQuotaMicros <= a.cpuPeriodMicros == 100000
    && 0 < a.memoryHighBytes <= a.memoryMaxBytes <= max.memoryMaxBytes && a.memoryHighBytes <= max.memoryHighBytes
    && a.memorySwapMaxBytes <= max.memorySwapMaxBytes && 0 < a.pidsMax <= max.pidsMax
    && 0 < a.fileDescriptorMax <= max.fileDescriptorMax && 0 < a.wallClockSeconds <= max.wallClockSeconds
    && a.io != []
    && (forall t :: t in a.io ==> IsDevice(t.device) && 0 < t.readBPS && 0 < t.writeBPS && 0 < t.readIOPS && 0 < t.writeIOPS)
    && (forall i, j :: 0 <= i < j < |a.io| ==> a.io[i].device != a.io[j].device)
  }

  lemma AcceptedIffBounded(a: Limits, max: Limits)
    ensures LimitsOk(a, max) <==> Bounded(a, max)
  {
    if LimitsOk(a, max) {
      forall t | t in a.io
        ensures ThrottleOk(t)
      {
        var i :| 0 <= i < |a.io| && a.io[i] == t;
      }
      forall i, j | 0 <= i < j < |a.io|
        ensures a.io[i].device != a.io[j].device
      {
        assert DeviceOf()(a.io[i]) != DeviceOf()(a.io[j]);
      }
    }
  }

  /** `validLimits`. */
  method ValidLimits(a: Limits, max: Limits) returns (ok: bool)
    ensures ok <==> LimitsOk(a, max)
  {
    if !ScalarsOk(a, max) {
      return false;
    }
    var seen: set<string> := {};
    for i := 0 to |a.io|
      invariant forall j :: 0 <= j < i ==> ThrottleOk(a.io[j])
      invariant UniqueKeys(a.io[..i], DeviceOf())
      invariant forall d :: d in seen <==> exists j :: 0 <= j < i && a.io[j].device == d
    {
      if !ThrottleOk(a.io[i]) {
        return false;
      }
      if a.io[i].device in seen {
        var j :| 0 <= j < i && a.io[j].device == a.io[i].device;
        assert DeviceOf()(a.io[j]) == DeviceOf()(a.io[i]);
        return false;
      }
      seen := seen + {a.io[i].device};
    }
    assert a.io[..|a.io|] == a.io;
    return true;
  }

  // ----- Rendering

  function Fields(t: IOThrottle): seq<string> {
    [t.device, "rbps=" + Decimal(t.readBPS), "wbps=" + Decimal(t.writeBPS), "riops=" + Decimal(t.readIOPS),
     "wiops=" + Decimal(t.writeIOPS)]
  }

  /** One line of io.max. */
  function Line(t: IOThrottle): string {
    t.device + " " + ("rbps=" + Decimal(t.readBPS)) + " " + ("wbps=" + Decimal(t.writeBPS)) + " "
    + ("riops=" + Decimal(t.readIOPS)) + " " + ("wiops=" + Decimal(t.writeIOPS))
  }

  function LineOf(): IOThrottle -> string {
    (t: IOThrottle) => Line(t)
  }

  /** `canonicalIO`. */
  ghost function CanonicalIO(io: seq<IOThrottle>): (r: seq<IOThrottle>)
    ensures IsSorting(r, io, ByKey(DeviceOf()))
  {
    ByKeyStrictWeak(DeviceOf());
    SortSlice(io, ByKey(DeviceOf()))
  }

  function WritesFor(a: Limits, sortedIO: seq<IOThrottle>): seq<ControlWrite> {
    [ControlWrite("cpu.max", Decimal(a.cpuQuotaMicros) + " " + Decimal(a.cpuPeriodMicros)),
     ControlWrite("memory.max", Decimal(a.memoryMaxBytes)),
     ControlWrite("memory.high", Decimal(a.memoryHighBytes)),
     ControlWrite("memory.swap.max", Decimal(a.memorySwapMaxBytes)),
     ControlWrite("pids.max", Decimal(a.pidsMax)),
     ControlWrite("io.max", Join(Map(LineOf(), sortedIO), '\n'))]
  }

  ghost function Writes(a: Limits): seq<ControlWrite> {
    WritesFor(a, CanonicalIO(a.io))
  }

  /** `cgroupWrites`: with unique devices the writes are fully determined. */
  method RenderWrites(a: Limits) returns (writes: seq<ControlWrite>)
    ensures UniqueKeys(a.io, DeviceOf()) ==> writes == Writes(a)
  {
    ByKeyStrictWeak(DeviceOf());
    var io := Sort(a.io, ByKey(DeviceOf()));
    writes := [ControlWrite("cpu.max", Decimal(a.cpuQuotaMicros) + " " + Decimal(a.cpuPeriodMicros)),
               ControlWrite("memory.max", Decimal(a.memoryMaxBytes)),
               ControlWrite("memory.high", Decimal(a.memoryHighBytes)),
               ControlWrite("memory.swap.max", Decimal(a.memorySwapMaxBytes)),
               ControlWrite("pids.max", Decimal(a.pidsMax))];
    var values: seq<string> := [];
    for i := 0 to |io|
      invariant values == Map(LineOf(), io[..i])
    {
      values := values + [Line(io[i])];
    }
    assert io[..|io|] == io;
    writes := writes + [ControlWrite("io.max", Join(values, '\n'))];
    if UniqueKeys(a.io, DeviceOf()) {
      UniqueKeysPermute(io, a.io, DeviceOf());
      UniqueKeysSeparate(io, DeviceOf());
      SortingUnique(io, CanonicalIO(a.io), ByKey(DeviceOf()));
    }
  }

  // ----- Reading the text back

  lemma DigitsAreFree(s: string, sep: char)
    requires AllDigits(s) && !('0' <= sep <= '9')
    ensures Free(s, sep)
  {
  }

  lemma DecimalInjective(m: nat, n: nat)
    ensures Decimal(m) == Decimal(n) ==> m == n
  {
    DecimalRoundTrip(m);
    DecimalRoundTrip(n);
  }

  lemma DecimalFree(n: nat, sep: char)
    requires !('0' <= sep <= '9')
    ensures Free(Decimal(n), sep) && Decimal(n) != ""
  {
    DecimalRoundTrip(n);
    DigitsAreFree(Decimal(n), sep);
  }

  lemma FieldsFree(t: IOThrottle, sep: char)
    requires IsDevice(t.device) && (sep == ' ' || sep == '\n')
    ensures AllFree(Fields(t), sep)
  {
    DecimalFree(t.readBPS, sep);
    DecimalFree(t.writeBPS, sep);
    DecimalFree(t.readIOPS, sep);
    DecimalFree(t.writeIOPS, sep);
  }

  lemma LineIsJoin(t: IOThrottle)
    ensures Line(t) == Join(Fields(t), ' ')
  {
    var f := Fields(t);
    JoinFive(f[0], f[1], f[2], f[3], f[4], ' ');
  }

  lemma JoinFive(a: string, b: string, c: string, d: string, e: string, sep: char)
    ensures Join([a, b, c, d, e], sep) == a + [sep] + b + [sep] + c + [sep] + d + [sep] + e
  {
    JoinCons(d, [e], sep);
    JoinCons(c, [d, e], sep);
    JoinCons(b, [c, d, e], sep);
    JoinCons(a, [b, c, d, e], sep);
    assert [a] + [b, c, d, e] == [a, b, c, d, e] && [b] + [c, d, e] == [b, c, d, e];
    assert [c] + [d, e] == [c, d, e] && [d] + [e] == [d, e];
  }

  lemma TaggedDecimal(tag: string, m: nat, n: nat)
    requires tag + Decimal(m) == tag + Decimal(n)
    ensures m == n
  {
    assert Decimal(m) == (tag + Decimal(m))[|tag|..] == (tag + Decimal(n))[|tag|..] == Decimal(n);
    DecimalInjective(m, n);
  }

  lemma LineInjective(t: IOThrottle, u: IOThrottle)
    requires IsDevice(t.device) && IsDevice(u.device) && Line(t) == Line(u)
    ensures t == u
  {
    LineIsJoin(t);
    LineIsJoin(u);
    FieldsFree(t, ' ');
    FieldsFree(u, ' ');
    SplitJoin(Fields(t), ' ');
    SplitJoin(Fields(u), ' ');
    assert Fields(t) == Fields(u);
    assert Fields(t)[0] == Fields(u)[0];
    assert Fields(t)[1] == Fields(u)[1] && Fields(t)[2] == Fields(u)[2];
    assert Fields(t)[3] == Fields(u)[3] && Fields(t)[4] == Fields(u)[4];
    TaggedDecimal("rbps=", t.readBPS, u.readBPS);
    TaggedDecimal("wbps=", t.writeBPS, u.writeBPS);
    TaggedDecimal("riops=", t.readIOPS, u.readIOPS);
    TaggedDecimal("wiops=", t.writeIOPS, u.writeIOPS);
  }

  lemma {:induction false} JoinKeepsFree(parts: seq<string>, sep: char, other: char)
    requires AllFree(parts, other) && sep != other
    ensures Free(Join(parts, sep), other)
  {
    if |parts| > 1 {
      JoinKeepsFree(parts[1..], sep, other);
    }
  }

  lemma LineFree(t: IOThrottle)
    requires IsDevice(t.device)
    ensures Free(Line(t), '\n')
  {
    LineIsJoin(t);
    FieldsFree(t, '\n');
    JoinKeepsFree(Fields(t), ' ', '\n');
  }

  /** io.max text determines the throttle list. */
  lemma LinesInjective(a: seq<IOThrottle>, b: seq<IOThrottle>)
    requires a != [] && b != []
    requires forall i :: 0 <= i < |a| ==> IsDevice(a[i].device)
    requires forall i :: 0 <= i < |b| ==> IsDevice(b[i].device)
    requires Join(Map(LineOf(), a), '\n') == Join(Map(LineOf(), b), '\n')
    ensures a == b
  {
    var x, y := Map(LineOf(), a), Map(LineOf(), b);
    forall i | 0 <= i < |a|
      ensures Free(x[i], '\n')
    {
      LineFree(a[i]);
    }
    forall i | 0 <= i < |b|
      ensures Free(y[i], '\n')
    {
      LineFree(b[i]);
    }
    SplitJoin(x, '\n');
    SplitJoin(y, '\n');
    assert x == y;
    forall i | 0 <= i < |a|
      ensures a[i] == b[i]
    {
      assert Line(a[i]) == x[i] == y[i] == Line(b[i]);
      LineInjective(a[i], b[i]);
    }
  }

  lemma TwoFieldsInjective(a: string, b: string, x: string, y: string, sep: char)
    requires Free(a, sep) && Free(b, sep) && Free(x, sep) && Free(y, sep)
    requires a + [sep] + b == x + [sep] + y
    ensures a == x && b == y
  {
    SplitAtSeparator(a, b, sep);
    SplitAtSeparator(x, y, sep);
    SplitFree(a, sep);
    SplitFree(b, sep);
    SplitFree(x, sep);
    SplitFree(y, sep);
    assert [a] + [b] == [a, b] && [x] + [y] == [x, y];
    assert [a, b][0] == [x, y][0] && [a, b][1] == [x, y][1];
  }

  lemma CpuMaxInjective(q: nat, p: nat, q': nat, p': nat)
    requires Decimal(q) + " " + Decimal(p) == Decimal(q') + " " + Decimal(p')
    ensures q == q' && p == p'
  {
    DecimalFree(q, ' ');
    DecimalFree(p, ' ');
    DecimalFree(q', ' ');
    DecimalFree(p', ' ');
    TwoFieldsInjective(Decimal(q), Decimal(p), Decimal(q'), Decimal(p'), ' ');
    DecimalInjective(q, q');
    DecimalInjective(p, p');
  }

  lemma CanonicalIODevices(a: Limits, max: Limits)
    requires LimitsOk(a, max)
    ensures CanonicalIO(a.io) != []
    ensures forall i :: 0 <= i < |CanonicalIO(a.io)| ==> ThrottleOk(CanonicalIO(a.io)[i])
  {
    var io := CanonicalIO(a.io);
    assert |io| == |multiset(io)| == |multiset(a.io)| == |a.io|;
    forall i | 0 <= i < |io|
      ensures ThrottleOk(io[i])
    {
      InMultiset(io[i], io);
      InMultiset(io[i], a.io);
    }
  }

  /** The limits the kernel is told about are the same. */
  ghost predicate SameControls(a: Limits, b: Limits) {
    && a.cpuQuotaMicros == b.cpuQuotaMicros && a.cpuPeriodMicros == b.cpuPeriodMicros
    && a.memoryMaxBytes == b.memoryMaxBytes && a.memoryHighBytes == b.memoryHighBytes
    && a.memorySwapMaxBytes == b.memorySwapMaxBytes && a.pidsMax == b.pidsMax && multiset(a.io) == multiset(b.io)
  }

  /** On accepted limits the rendered writes are equal exactly when the limits are, up to throttle order. */
  lemma WritesIffSameControls(a: Limits, maxA: Limits, b: Limits, maxB: Limits)
    requires LimitsOk(a, maxA) && LimitsOk(b, maxB)
    ensures Writes(a) == Writes(b) <==> SameControls(a, b)
  {
    if Writes(a) == Writes(b) {
      EqualWritesSameControls(a, maxA, b, maxB);
    }
    if SameControls(a, b) {
      UniqueKeysSeparate(a.io, DeviceOf());
      ByKeyStrictWeak(DeviceOf());
      SortSliceOrderFree(a.io, b.io, ByKey(DeviceOf()));
    }
  }

  lemma EqualWritesSameControls(a: Limits, maxA: Limits, b: Limits, maxB: Limits)
    requires LimitsOk(a, maxA) && LimitsOk(b, maxB) && Writes(a) == Writes(b)
    ensures SameControls(a, b)
  {
    var x, y := Writes(a), Writes(b);
    assert x[0].value == y[0].value && x[1].value == y[1].value && x[2].value == y[2].value;
    assert x[3].value == y[3].value && x[4].value == y[4].value && x[5].value == y[5].value;
    CpuMaxInjective(a.cpuQuotaMicros, a.cpuPeriodMicros, b.cpuQuotaMicros, b.cpuPeriodMicros);
    DecimalInjective(a.memoryMaxBytes, b.memoryMaxBytes);
    DecimalInjective(a.memoryHighBytes, b.memoryHighBytes);
    DecimalInjective(a.memorySwapMaxBytes, b.memorySwapMaxBytes);
    DecimalInjective(a.pidsMax, b.pidsMax);
    CanonicalIODevices(a, maxA);
    CanonicalIODevices(b, maxB);
    LinesInjective(CanonicalIO(a.io), CanonicalIO(b.io));
  }

  /** `canonicalWrites`: the six files in order, none empty. */
  predicate CanonicalWrites(writes: seq<ControlWrite>) {
    && |writes| == |FILES|
    && forall i :: 0 <= i < |FILES| ==> writes[i].file == FILES[i] && writes[i].value != ""
  }

  lemma RenderedWritesAreCanonical(a: Limits, max: Limits)
    requires LimitsOk(a, max)
    ensures CanonicalWrites(Writes(a))
  {
    DecimalRoundTrip(a.memoryMaxBytes);
    DecimalRoundTrip(a.memoryHighBytes);
    DecimalRoundTrip(a.memorySwapMaxBytes);
    DecimalRoundTrip(a.pidsMax);
    CanonicalIODevices(a, max);
    var lines := Map(LineOf(), CanonicalIO(a.io));
    assert lines[0] == Line(CanonicalIO(a.io)[0]);
    assert |Join(lines, '\n')| >= |lines[0]| > 0;
  }

  // ----- What the kernel reads

  /** The text is a decimal number with this value. */
  ghost predicate Reads(text: string, n: int) {
    text != "" && AllDigits(text) && Value(text) == n
  }

  ghost predicate TaggedReads(text: string, tag: string, n: int) {
    tag <= text && Reads(text[|tag|..], n)
  }

  /** A line of io.max in the form of the Control Group v2 IO interface: a device and four tagged rates. */
  ghost predicate LineReads(line: string, t: IOThrottle) {
    var fields := Split(line, ' ');
    && |fields| == 5 && fields[0] == t.device
    && TaggedReads(fields[1], "rbps=", t.readBPS) && TaggedReads(fields[2], "wbps=", t.writeBPS)
    && TaggedReads(fields[3], "riops=", t.readIOPS) && TaggedReads(fields[4], "wiops=", t.writeIOPS)
  }

  /** cpu.max holds quota and period. */
  ghost predicate CpuReads(text: string, quota: nat, period: nat) {
    var fields := Split(text, ' ');
    |fields| == 2 && Reads(fields[0], quota) && Reads(fields[1], period)
  }

  /** io.max holds one line per throttle of `order`. */
  ghost predicate LinesRead(text: string, order: seq<IOThrottle>) {
    var lines := Split(text, '\n');
    |lines| == |order| && forall i :: 0 <= i < |order| ==> LineReads(lines[i], order[i])
  }

  /** io.max holds exactly one line per throttle, in the order of devices. */
  ghost predicate IoReads(text: string, io: seq<IOThrottle>) {
    exists order :: IsSorting(order, io, ByKey(DeviceOf())) && LinesRead(text, order)
  }

  /** The control files, read back, are these limits. */
  ghost predicate Tells(files: map<string, string>, a: Limits) {
    && files.Keys == {"cpu.max", "memory.max", "memory.high", "memory.swap.max", "pids.max", "io.max"}
    && CpuReads(files["cpu.max"], a.cpuQuotaMicros, a.cpuPeriodMicros)
    && Reads(files["memory.max"], a.memoryMaxBytes) && Reads(files["memory.high"], a.memoryHighBytes)
    && Reads(files["memory.swap.max"], a.memorySwapMaxBytes) && Reads(files["pids.max"], a.pidsMax)
    && IoReads(files["io.max"], a.io)
  }

  lemma DecimalReads(n: nat)
    ensures Reads(Decimal(n), n)
  {
    DecimalRoundTrip(n);
  }

  lemma TaggedDecimalReads(tag: string, n: nat)
    ensures TaggedReads(tag + Decimal(n), tag, n)
  {
    DecimalRoundTrip(n);
    assert (tag + Decimal(n))[|tag|..] == Decimal(n);
  }

  lemma CpuTextReads(quota: nat, period: nat)
    ensures CpuReads(Decimal(quota) + " " + Decimal(period), quota, period)
  {
    DecimalFree(quota, ' ');
    DecimalFree(period, ' ');
    SplitAtSeparator(Decimal(quota), Decimal(period), ' ');
    SplitFree(Decimal(quota), ' ');
    SplitFree(Decimal(period), ' ');
    DecimalReads(quota);
    DecimalReads(period);
  }

  lemma LineTextReads(t: IOThrottle)
    requires IsDevice(t.device)
    ensures LineReads(Line(t), t)
  {
    LineIsJoin(t);
    FieldsFree(t, ' ');
    SplitJoin(Fields(t), ' ');
    TaggedDecimalReads("rbps=", t.readBPS);
    TaggedDecimalReads("wbps=", t.writeBPS);
    TaggedDecimalReads("riops=", t.readIOPS);
    TaggedDecimalReads("wiops=", t.writeIOPS);
  }

  lemma IoTextReads(io: seq<IOThrottle>)
    requires io != [] && forall i :: 0 <= i < |io| ==> IsDevice(io[i].device)
    ensures LinesRead(Join(Map(LineOf(), io), '\n'), io)
  {
    var lines := Map(LineOf(), io);
    forall i | 0 <= i < |io|
      ensures Free(lines[i], '\n') && LineReads(lines[i], io[i])
    {
      LineFree(io[i]);
      LineTextReads(io[i]);
    }
    SplitJoin(lines, '\n');
  }

  /** Files that hold exactly the rendered writes tell the limits they were rendered from. */
  lemma WritesTellLimits(a: Limits, max: Limits, files: map<string, string>)
    requires LimitsOk(a, max) && (forall f :: f in files ==> f in FILES)
    requires forall w :: w in Writes(a) ==> w.file in files && files[w.file] == w.value
    ensures Tells(files, a)
  {
    var w := Writes(a);
    assert w[0] in w && w[1] in w && w[2] in w && w[3] in w && w[4] in w && w[5] in w;
    KeysAreFiles(files, w);
    CpuTextReads(a.cpuQuotaMicros, a.cpuPeriodMicros);
    DecimalReads(a.memoryMaxBytes);
    DecimalReads(a.memoryHighBytes);
    DecimalReads(a.memorySwapMaxBytes);
    DecimalReads(a.pidsMax);
    CanonicalIODevices(a, max);
    IoTextReads(CanonicalIO(a.io));
  }

  lemma KeysAreFiles(files: map<string, string>, writes: seq<ControlWrite>)
    requires |writes| == 6 && (forall f :: f in files ==> f in FILES) && forall w :: w in writes ==> w.file in files
    requires writes[0].file == "cpu.max" && writes[1].file == "memory.max" && writes[2].file == "memory.high"
    requires writes[3].file == "memory.swap.max" && writes[4].file == "pids.max" && writes[5].file == "io.max"
    ensures files.Keys == {"cpu.max", "memory.max", "memory.high", "memory.swap.max", "pids.max", "io.max"}
  {
    assert writes[0] in writes && writes[1] in writes && writes[2] in writes;
    assert writes[3] in writes && writes[4] in writes && writes[5] in writes;
  }
}
