/**
 Length-prefixed frames over a connection (broker/broker.go).

 The writer may accept any part of what it is offered and may fail at any point.
 */
module Frames {

  newtype byte = x: int | 0 <= x < 256

  const MAX_UINT32: nat := 0xFFFF_FFFF

  /** `binary.BigEndian.PutUint32`. */
  function Header(n: nat): (h: seq<byte>)
    requires n <= MAX_UINT32
    ensures |h| == 4
  {
    [(n / 0x100_0000) as byte, (n / 0x1_0000 % 0x100) as byte, (n / 0x100 % 0x100) as byte, (n % 0x100) as byte]
  }

  /** `binary.BigEndian.Uint32`. */
  function HeaderValue(h: seq<byte>): (n: nat)
    requires |h| == 4
    ensures n <= MAX_UINT32
  {
    h[0] as int * 0x100_0000 + h[1] as int * 0x1_0000 + h[2] as int * 0x100 + h[3] as int
  }

  predicate Sendable(payload: seq<byte>) {
    1 <= |payload| <= MAX_UINT32
  }

  function Frame(payload: seq<byte>): (f: seq<byte>)
    requires Sendable(payload)
    ensures |f| == 4 + |payload|
  {
    Header(|payload|) + payload
  }

  // ----- Writing

  /** What one `Write` call does: take at most `n` bytes, and perhaps report an error after doing so. */
  datatype Behaviour = Take(n: nat, fails: bool)

  class Connection {
    var out: seq<byte>
    var script: seq<Behaviour>

    constructor (script: seq<Behaviour>)
      ensures out == [] && this.script == script
    {
      out := [];
      this.script := script;
    }

    /** A writer that follows its script and, after it, takes everything. */
    method Write(p: seq<byte>) returns (n: nat, failed: bool)
      modifies this
      ensures n <= |p| && out == old(out) + p[..n]
      ensures script == if old(script) == [] then [] else old(script)[1..]
      ensures failed <==> old(script) != [] && old(script)[0].fails
      ensures n == if old(script) == [] || old(script)[0].n > |p| then |p| else old(script)[0].n
    {
      if script == [] {
        n, failed := |p|, false;
      } else {
        n, failed := if script[0].n > |p| then |p| else script[0].n, script[0].fails;
        script := script[1..];
      }
      out := out + p[..n];
    }
  }

  /** Every call takes at least one byte and none fails. */
  ghost predicate AlwaysProgresses(script: seq<Behaviour>) {
    forall i :: 0 <= i < |script| ==> script[i].n >= 1 && !script[i].fails
  }

  /** `writeAll`: what reaches the connection is a prefix of the payload, all of it on success. */
  method WriteAll(c: Connection, payload: seq<byte>) returns (ok: bool, ghost sent: nat)
    modifies c
    ensures sent <= |payload| && c.out == old(c.out) + payload[..sent]
    ensures ok ==> sent == |payload|
    ensures AlwaysProgresses(old(c.script)) ==> ok && AlwaysProgresses(c.script)
  {
    var rest := payload;
    sent := 0;
    while |rest| > 0
      invariant sent <= |payload| && rest == payload[sent..]
      invariant c.out == old(c.out) + payload[..sent]
      invariant AlwaysProgresses(old(c.script)) ==> AlwaysProgresses(c.script)
      decreases |rest|
    {
      var written, failed := c.Write(rest);
      assert payload[..sent + written] == payload[..sent] + rest[..written];
      sent := sent + written;
      if failed {
        return false, sent;
      }
      if written <= 0 {
        return false, sent;
      }
      rest := rest[written..];
    }
    return true, sent;
  }

  /** `writeFrame`: a frame, or on failure a prefix of one. */
  method WriteFrame(c: Connection, payload: seq<byte>) returns (ok: bool, ghost sent: nat)
    modifies c
    ensures !Sendable(payload) ==> !ok && c.out == old(c.out) && c.script == old(c.script)
    ensures Sendable(payload) ==> sent <= |Frame(payload)| && c.out == old(c.out) + Frame(payload)[..sent]
    ensures ok ==> Sendable(payload) && c.out == old(c.out) + Frame(payload)
    ensures Sendable(payload) && AlwaysProgresses(old(c.script)) ==> ok && AlwaysProgresses(c.script)
  {
    if |payload| == 0 || |payload| > MAX_UINT32 {
      return false, 0;
    }
    var header := Header(|payload|);
    ok, sent := WriteAll(c, header);
    if !ok {
      assert Frame(payload)[..sent] == header[..sent];
      return false, sent;
    }
    assert header[..4] == header;
    ghost var more;
    ok, more := WriteAll(c, payload);
    assert Frame(payload)[..4 + more] == header + payload[..more];
    assert payload[..|payload|] == payload;
    sent := 4 + more;
  }

  // ----- Reading

  datatype Parsed = Payload(bytes: seq<byte>, used: nat) | Bad(used: nat)

  /** The frame at the head of `s`, as `readFrame` takes it. */
  function ParseFrame(s: seq<byte>, max: nat): (r: Parsed)
    ensures r.used <= |s|
    ensures r.Payload? ==> r.used == 4 + |r.bytes| && 1 <= |r.bytes| <= max
  {
    if |s| < 4 then Bad(|s|)
    else
      var n := HeaderValue(s[..4]);
      if n == 0 || n > max then Bad(4)
      else if |s| < 4 + n then Bad(|s|)
      else Payload(s[4..4 + n], 4 + n)
  }

  class Stream {
    const data: seq<byte>
    var pos: nat

    constructor (data: seq<byte>)
      ensures this.data == data && pos == 0
    {
      this.data := data;
      pos := 0;
    }

    ghost predicate Valid()
      reads this
    {
      pos <= |data|
    }

    /** `io.ReadFull`: exactly `n` bytes, or everything left and an error. */
    method ReadFull(n: nat) returns (bytes: seq<byte>, ok: bool)
      requires Valid()
      modifies this
      ensures Valid()
      ensures ok <==> n <= |data| - old(pos)
      ensures ok ==> bytes == data[old(pos)..old(pos) + n] && pos == old(pos) + n
      ensures !ok ==> pos == |data|
    {
      if n <= |data| - pos {
        bytes, ok := data[pos..pos + n], true;
        pos := pos + n;
      } else {
        bytes, ok := data[pos..], false;
        pos := |data|;
      }
    }

    /** `readFrame`. */
    method ReadFrame(max: nat) returns (payload: seq<byte>, ok: bool)
      requires Valid()
      modifies this
      ensures Valid()
      ensures var parsed := ParseFrame(data[old(pos)..], max);
              && pos == old(pos) + parsed.used
              && (ok <==> parsed.Payload?)
              && (ok ==> payload == parsed.bytes)
    {
      ghost var rest := data[pos..];
      payload := [];
      var header, headerOk := ReadFull(4);
      if !headerOk {
        return payload, false;
      }
      assert header == rest[..4];
      var length := HeaderValue(header);
      if length == 0 || length > max {
        return payload, false;
      }
      payload, ok := ReadFull(length);
      if ok {
        assert payload == rest[4..4 + length];
      }
    }
  }

  // ----- Round trips

  lemma HeaderRoundTrip(n: nat)
    requires n <= MAX_UINT32
    ensures HeaderValue(Header(n)) == n
  {
    var a, b, c, d := n / 0x100_0000, n / 0x1_0000 % 0x100, n / 0x100 % 0x100, n % 0x100;
    assert n == n / 0x100 * 0x100 + d;
    assert n / 0x100 == n / 0x100 / 0x100 * 0x100 + c && n / 0x100 / 0x100 == n / 0x1_0000;
    assert n / 0x1_0000 == n / 0x1_0000 / 0x100 * 0x100 + b && n / 0x1_0000 / 0x100 == a;
  }

  /** The header is the length in network byte order: most significant byte first. */
  lemma HeaderIsBigEndian(n: nat)
    requires n <= MAX_UINT32
    ensures var h := Header(n);
            n == ((h[0] as int * 0x100 + h[1] as int) * 0x100 + h[2] as int) * 0x100 + h[3] as int
  {
    assert n / 0x100 / 0x100 == n / 0x1_0000 && n / 0x1_0000 / 0x100 == n / 0x100_0000;
  }

  lemma ValueRoundTrip(h: seq<byte>)
    requires |h| == 4
    ensures Header(HeaderValue(h)) == h
  {
    var n, a, b, c, d := HeaderValue(h), h[0] as int, h[1] as int, h[2] as int, h[3] as int;
    assert n / 0x100_0000 == a;
    assert n / 0x1_0000 == a * 0x100 + b;
    assert n / 0x100 == (a * 0x100 + b) * 0x100 + c;
  }

  /** A frame parses to its payload, with what follows untouched. */
  lemma FrameParses(payload: seq<byte>, rest: seq<byte>, max: nat)
    requires 1 <= |payload| <= max <= MAX_UINT32
    ensures ParseFrame(Frame(payload) + rest, max) == Payload(payload, |Frame(payload)|)
  {
    var s := Frame(payload) + rest;
    HeaderRoundTrip(|payload|);
    assert s[..4] == Header(|payload|);
    assert s[4..4 + |payload|] == payload;
  }

  /** Only frames parse: the bytes consumed are exactly the frame of the payload returned. */
  lemma ParsedIsFrame(s: seq<byte>, max: nat)
    requires max <= MAX_UINT32 && ParseFrame(s, max).Payload?
    ensures s[..ParseFrame(s, max).used] == Frame(ParseFrame(s, max).bytes)
  {
    var n := HeaderValue(s[..4]);
    ValueRoundTrip(s[..4]);
    assert s[..4 + n] == s[..4] + s[4..4 + n];
  }

  /** A cut frame never parses. */
  lemma TornFrameIsBad(payload: seq<byte>, cut: nat, max: nat)
    requires 1 <= |payload| <= max <= MAX_UINT32 && cut < |Frame(payload)|
    ensures ParseFrame(Frame(payload)[..cut], max) == Bad(cut)
  {
    var s := Frame(payload)[..cut];
    if cut >= 4 {
      HeaderRoundTrip(|payload|);
      assert s[..4] == Header(|payload|);
    }
  }

  ghost predicate Fits(payloads: seq<seq<byte>>, max: nat) {
    max <= MAX_UINT32 && forall i :: 0 <= i < |payloads| ==> 1 <= |payloads[i]| <= max
  }

  /** The bytes of the payloads' frames, one after the other. */
  ghost function Wire(payloads: seq<seq<byte>>, max: nat): seq<byte>
    requires Fits(payloads, max)
  {
    if payloads == [] then [] else Frame(payloads[0]) + Wire(payloads[1..], max)
  }

  /** Reading frame after frame until one does not parse: the payloads and the bytes they took. */
  function ReadAll(s: seq<byte>, max: nat): (seq<seq<byte>>, nat)
    decreases |s|
  {
    var parsed := ParseFrame(s, max);
    if parsed.Bad? then ([], 0)
    else
      var (more, used) := ReadAll(s[parsed.used..], max);
      ([parsed.bytes] + more, parsed.used + used)
  }

  /** A whole frame in front is read first. */
  lemma ReadCons(first: seq<byte>, s: seq<byte>, max: nat)
    requires 1 <= |first| <= max <= MAX_UINT32
    ensures ReadAll(Frame(first) + s, max) == ([first] + ReadAll(s, max).0, |Frame(first)| + ReadAll(s, max).1)
  {
    FrameParses(first, s, max);
    assert (Frame(first) + s)[|Frame(first)|..] == s;
  }

  /** The frames of a stream are read as exactly the payloads sent, and reading then goes on with what follows. */
  lemma {:induction false} StreamRoundTrip(payloads: seq<seq<byte>>, max: nat, tail: seq<byte>)
    requires Fits(payloads, max)
    ensures var (more, used) := ReadAll(tail, max);
            ReadAll(Wire(payloads, max) + tail, max) == (payloads + more, |Wire(payloads, max)| + used)
  {
    if payloads == [] {
      assert Wire(payloads, max) + tail == tail && payloads + ReadAll(tail, max).0 == ReadAll(tail, max).0;
    } else {
      var rest := Wire(payloads[1..], max);
      StreamRoundTrip(payloads[1..], max, tail);
      ReadCons(payloads[0], rest + tail, max);
      assert Frame(payloads[0]) + (rest + tail) == Wire(payloads, max) + tail;
      ConsBack(payloads, ReadAll(tail, max).0);
    }
  }

  lemma ConsBack(payloads: seq<seq<byte>>, more: seq<seq<byte>>)
    requires payloads != []
    ensures [payloads[0]] + (payloads[1..] + more) == payloads + more
  {
  }

  // ----- End to end

  lemma {:induction false} WireConcat(a: seq<seq<byte>>, b: seq<seq<byte>>, max: nat)
    requires Fits(a, max) && Fits(b, max)
    ensures Fits(a + b, max) && Wire(a + b, max) == Wire(a, max) + Wire(b, max)
  {
    if a == [] {
      assert a + b == b;
    } else {
      var rest := a[1..] + b;
      WireConcat(a[1..], b, max);
      WireCons(a[0], rest, max);
      assert a + b == [a[0]] + rest;
    }
  }

  /** The wire up to and including one payload, and then the others. */
  lemma WireSplit(payloads: seq<seq<byte>>, i: nat, max: nat)
    requires Fits(payloads, max) && i < |payloads|
    ensures Wire(payloads[..i + 1], max) == Wire(payloads[..i], max) + Frame(payloads[i])
    ensures Wire(payloads, max) == Wire(payloads[..i + 1], max) + Wire(payloads[i + 1..], max)
  {
    var one := [payloads[i]];
    WireCons(payloads[i], [], max);
    assert one == one + [];
    WireConcat(payloads[..i], one, max);
    assert payloads[..i + 1] == payloads[..i] + one;
    WireConcat(payloads[..i + 1], payloads[i + 1..], max);
    assert payloads == payloads[..i + 1] + payloads[i + 1..];
  }

  /** The first `k` bytes of a frame continue the wire of the payloads before it. */
  lemma WirePrefix(payloads: seq<seq<byte>>, i: nat, k: nat, max: nat)
    requires Fits(payloads, max) && i < |payloads| && k <= |Frame(payloads[i])|
    ensures var sent := |Wire(payloads[..i], max)|;
            && sent + k <= |Wire(payloads, max)|
            && Wire(payloads, max)[..sent + k] == Wire(payloads, max)[..sent] + Frame(payloads[i])[..k]
    ensures |Wire(payloads[..i + 1], max)| == |Wire(payloads[..i], max)| + |Frame(payloads[i])|
  {
    WireSplit(payloads, i, max);
    var before, frame, rest := Wire(payloads[..i], max), Frame(payloads[i]), Wire(payloads[i + 1..], max);
    assert Wire(payloads, max) == before + (frame + rest);
  }

  /** Frame after frame: what reaches the connection is a prefix of the wire, all of it on success. */
  method SendAll(c: Connection, payloads: seq<seq<byte>>, max: nat) returns (ok: bool, ghost sent: nat)
    requires Fits(payloads, max)
    modifies c
    ensures sent <= |Wire(payloads, max)| && c.out == old(c.out) + Wire(payloads, max)[..sent]
    ensures ok ==> sent == |Wire(payloads, max)|
    ensures AlwaysProgresses(old(c.script)) ==> ok
  {
    sent := 0;
    ghost var wire := Wire(payloads, max);
    for i := 0 to |payloads|
      invariant sent == |Wire(payloads[..i], max)| <= |wire|
      invariant c.out == old(c.out) + wire[..sent]
      invariant AlwaysProgresses(old(c.script)) ==> AlwaysProgresses(c.script)
    {
      ghost var k;
      ok, k := WriteFrame(c, payloads[i]);
      if !ok {
        WirePrefix(payloads, i, k, max);
        sent := sent + k;
        return;
      }
      WirePrefix(payloads, i, |Frame(payloads[i])|, max);
      sent := sent + |Frame(payloads[i])|;
    }
    assert payloads[..|payloads|] == payloads;
    ok := true;
  }

  /** From `pos` on, `data` holds the frames of the payloads and then `tail`. */
  ghost predicate Ahead(data: seq<byte>, pos: nat, payloads: seq<seq<byte>>, max: nat, tail: seq<byte>)
    requires Fits(payloads, max)
  {
    pos <= |data| && data[pos..] == Wire(payloads, max) + tail
  }

  lemma AheadStep(data: seq<byte>, pos: nat, payloads: seq<seq<byte>>, max: nat, tail: seq<byte>)
    requires Fits(payloads, max) && payloads != [] && Ahead(data, pos, payloads, max, tail)
    ensures ParseFrame(data[pos..], max) == Payload(payloads[0], |Frame(payloads[0])|)
    ensures Ahead(data, pos + |Frame(payloads[0])|, payloads[1..], max, tail)
    ensures |Wire(payloads, max)| == |Frame(payloads[0])| + |Wire(payloads[1..], max)|
  {
    var frame, rest := Frame(payloads[0]), Wire(payloads[1..], max) + tail;
    assert data[pos..] == frame + rest;
    FrameParses(payloads[0], rest, max);
    assert data[pos + |frame|..] == data[pos..][|frame|..] == rest;
  }

  /** As many reads as payloads were sent return exactly them and stop before the bytes that follow. */
  method ReceiveAll(s: Stream, count: nat, max: nat, ghost payloads: seq<seq<byte>>, ghost tail: seq<byte>)
    returns (received: seq<seq<byte>>, ok: bool)
    requires s.Valid() && Fits(payloads, max) && count == |payloads| && Ahead(s.data, s.pos, payloads, max, tail)
    modifies s
    ensures ok && received == payloads && s.pos == old(s.pos) + |Wire(payloads, max)|
  {
    received := [];
    for i := 0 to count
      invariant s.Valid() && received == payloads[..i]
      invariant Ahead(s.data, s.pos, payloads[i..], max, tail)
      invariant s.pos + |Wire(payloads[i..], max)| == old(s.pos) + |Wire(payloads, max)|
    {
      AheadStep(s.data, s.pos, payloads[i..], max, tail);
      assert payloads[i..][1..] == payloads[i + 1..];
      var payload;
      payload, ok := s.ReadFrame(max);
      if !ok {
        return;
      }
      received := received + [payload];
    }
    ok := true;
  }

  /**
   The two ends together: payloads written through any writer that makes progress, in whatever short
   writes, and followed by any bytes at all, are read back as exactly those payloads, and the reader
   stops where they end. With other writers this holds whenever the sender reports success.
   */
  method Exchange(payloads: seq<seq<byte>>, max: nat, script: seq<Behaviour>, tail: seq<byte>)
    returns (received: seq<seq<byte>>, ok: bool, pos: nat)
    requires Fits(payloads, max)
    ensures AlwaysProgresses(script) ==> ok
    ensures ok ==> received == payloads && pos == |Wire(payloads, max)|
  {
    var c := new Connection(script);
    ghost var sent;
    ok, sent := SendAll(c, payloads, max);
    if !ok {
      return [], false, 0;
    }
    var s := new Stream(c.out + tail);
    assert Ahead(s.data, 0, payloads, max, tail);
    received, ok := ReceiveAll(s, |payloads|, max, payloads, tail);
    pos := s.pos;
  }

  // ----- Torn streams

  /** `got`, in `used` bytes, are exactly the payloads whose frames lie whole within the first `cut` bytes. */
  ghost predicate ArrivedWhole(payloads: seq<seq<byte>>, max: nat, cut: nat, got: seq<seq<byte>>, used: nat)
    requires Fits(payloads, max)
  {
    && got <= payloads && used == |Wire(got, max)| <= cut
    && (|got| < |payloads| ==> cut < |Wire(payloads[..|got| + 1], max)|)
  }

  lemma WireCons(first: seq<byte>, rest: seq<seq<byte>>, max: nat)
    requires 1 <= |first| <= max && Fits(rest, max)
    ensures Fits([first] + rest, max) && Wire([first] + rest, max) == Frame(first) + Wire(rest, max)
  {
    assert ([first] + rest)[1..] == rest;
  }

  /** One whole frame in front. */
  lemma ArrivedCons(first: seq<byte>, rest: seq<seq<byte>>, max: nat, cut: nat, got: seq<seq<byte>>, used: nat)
    requires 1 <= |first| <= max && Fits(rest, max) && ArrivedWhole(rest, max, cut, got, used)
    ensures Fits([first] + rest, max)
    ensures ArrivedWhole([first] + rest, max, |Frame(first)| + cut, [first] + got, |Frame(first)| + used)
  {
    var all := [first] + rest;
    WireCons(first, rest, max);
    assert [first] + got <= all;
    WireCons(first, got, max);
    if |got| < |rest| {
      WireCons(first, rest[..|got| + 1], max);
      assert all[..|got| + 2] == [first] + rest[..|got| + 1];
    }
  }

  /**
   A stream cut at any byte is read as a prefix of what was sent: exactly the frames that arrived whole,
   and never a payload that was not sent.
   */
  lemma {:induction false} TornStreamIsPrefix(payloads: seq<seq<byte>>, max: nat, cut: nat)
    requires Fits(payloads, max) && cut <= |Wire(payloads, max)|
    ensures var (got, used) := ReadAll(Wire(payloads, max)[..cut], max);
            ArrivedWhole(payloads, max, cut, got, used)
  {
    var s := Wire(payloads, max)[..cut];
    if payloads != [] {
      var first, rest := Frame(payloads[0]), Wire(payloads[1..], max);
      if cut < |first| {
        assert s == first[..cut];
        TornFrameIsBad(payloads[0], cut, max);
        WireCons(payloads[0], [], max);
        assert payloads[..1] == [payloads[0]] + [];
      } else {
        var cut' := cut - |first|;
        assert s == first + rest[..cut'];
        ReadCons(payloads[0], rest[..cut'], max);
        TornStreamIsPrefix(payloads[1..], max, cut');
        var (got, used) := ReadAll(rest[..cut'], max);
        assert payloads == [payloads[0]] + payloads[1..];
        ArrivedCons(payloads[0], payloads[1..], max, cut', got, used);
      }
    }
  }
}
