/**
 The broker's per-identity token bucket (broker/broker.go).

 Time is integer nanoseconds with Go's zero time at 0; the float64 token count is a real.
 The limiter keeps one lazily refilled number per identity. The theorems say that this
 number is an exact summary of the identity's whole call history.
 */
module RateLimiter {
  import opened Common

  /** What `clock.Now()` gave one call. */
  datatype Reading = ClockFailed | At(ns: int)

  datatype Limit = Limit(capacity: int, refillInterval: int)

  datatype Bucket = Bucket(tokens: real, last: int)

  datatype Call = Call(identity: string, reading: Reading)

  predicate ValidLimit(limit: Limit) {
    limit.capacity >= 1 && limit.refillInterval >= 1
  }

  predicate Usable(r: Reading) {
    r.At? && r.ns != ZERO_TIME
  }

  /** Tokens earned in `dt` nanoseconds. */
  function Refill(limit: Limit, dt: int): real
    requires ValidLimit(limit)
  {
    dt as real / limit.refillInterval as real
  }

  function Min(a: real, b: real): real {
    if a < b then a else b
  }

  /** One call against one identity's slot: the new slot and the verdict. */
  function AllowSlot(limit: Limit, slot: Option<Bucket>, r: Reading): (Option<Bucket>, bool)
    requires ValidLimit(limit)
  {
    if !Usable(r) then
      (slot, false)
    else
      var entry := if slot.Some? then slot.value else Bucket(limit.capacity as real, r.ns);
      if r.ns - entry.last < 0 then
        (slot, false)
      else
        var tokens := Min(limit.capacity as real, entry.tokens + Refill(limit, r.ns - entry.last));
        if tokens < 1.0 then
          (Some(Bucket(tokens, r.ns)), false)
        else
          (Some(Bucket(tokens - 1.0, r.ns)), true)
  }

  function Slot(entries: map<string, Bucket>, identity: string): Option<Bucket> {
    if identity in entries then Some(entries[identity]) else None
  }

  class IdentityLimiter {
    var entries: map<string, Bucket>
    const limit: Limit

    constructor (limit: Limit)
      requires ValidLimit(limit)
      ensures this.limit == limit && entries == map[]
    {
      this.limit := limit;
      entries := map[];
    }

    /** `allow`: decides one call and touches no identity but its own. */
    method Allow(identity: string, reading: Reading) returns (granted: bool)
      requires ValidLimit(limit)
      modifies this`entries
      ensures AllowSlot(limit, old(Slot(entries, identity)), reading) == (Slot(entries, identity), granted)
      ensures forall other | other != identity :: Slot(entries, other) == old(Slot(entries, other))
      ensures reading == ClockFailed || reading == At(0) ==> entries == old(entries) && !granted
    {
      if reading.ClockFailed? || reading.ns == ZERO_TIME {
        return false;
      }
      var now := reading.ns;
      var entry;
      if identity in entries {
        entry := entries[identity];
      } else {
        entry := Bucket(limit.capacity as real, now);
      }
      var elapsed := now - entry.last;
      if elapsed < 0 {
        return false;
      }
      var tokens := Min(limit.capacity as real, entry.tokens + Refill(limit, elapsed));
      if tokens < 1.0 {
        entries := entries[identity := Bucket(tokens, now)];
        return false;
      }
      entries := entries[identity := Bucket(tokens - 1.0, now)];
      return true;
    }
  }

  // ----- Histories

  /** The limiter's map after the first `n` calls. */
  function Entries(limit: Limit, calls: seq<Call>, n: nat): map<string, Bucket>
    requires ValidLimit(limit) && n <= |calls|
  {
    if n == 0 then map[]
    else
      var before, call := Entries(limit, calls, n - 1), calls[n - 1];
      var slot := AllowSlot(limit, Slot(before, call.identity), call.reading).0;
      if slot.Some? then before[call.identity := slot.value] else before
  }

  /** The verdict of call `n`. */
  predicate Granted(limit: Limit, calls: seq<Call>, n: nat)
    requires ValidLimit(limit) && n < |calls|
  {
    AllowSlot(limit, Slot(Entries(limit, calls, n), calls[n].identity), calls[n].reading).1
  }

  /** The readings seen by `identity` in the first `n` calls. */
  function ReadingsOf(calls: seq<Call>, n: nat, identity: string): seq<Reading>
    requires n <= |calls|
  {
    if n == 0 then []
    else
      var before := ReadingsOf(calls, n - 1, identity);
      if calls[n - 1].identity == identity then before + [calls[n - 1].reading] else before
  }

  /** One identity alone: its slot after the first `n` readings. */
  function Replay(limit: Limit, rs: seq<Reading>, n: nat): Option<Bucket>
    requires ValidLimit(limit) && n <= |rs|
  {
    if n == 0 then None else AllowSlot(limit, Replay(limit, rs, n - 1), rs[n - 1]).0
  }

  predicate ReplayGrants(limit: Limit, rs: seq<Reading>, n: nat)
    requires ValidLimit(limit) && n < |rs|
  {
    AllowSlot(limit, Replay(limit, rs, n), rs[n]).1
  }

  lemma {:induction false} ReplayPrefix(limit: Limit, rs: seq<Reading>, more: seq<Reading>, n: nat)
    requires ValidLimit(limit) && n <= |rs|
    ensures Replay(limit, rs + more, n) == Replay(limit, rs, n)
  {
    if n > 0 {
      ReplayPrefix(limit, rs, more, n - 1);
    }
  }

  lemma ReplayAppend(limit: Limit, rs: seq<Reading>, r: Reading)
    requires ValidLimit(limit)
    ensures Replay(limit, rs + [r], |rs| + 1) == AllowSlot(limit, Replay(limit, rs, |rs|), r).0
  {
    ReplayPrefix(limit, rs, [r], |rs|);
  }

  lemma {:induction false} SlotIsReplay(limit: Limit, calls: seq<Call>, n: nat, identity: string)
    requires ValidLimit(limit) && n <= |calls|
    ensures var rs := ReadingsOf(calls, n, identity);
            Slot(Entries(limit, calls, n), identity) == Replay(limit, rs, |rs|)
  {
    if n > 0 {
      var m := n - 1;
      SlotIsReplay(limit, calls, m, identity);
      SlotMoves(limit, calls, m, identity);
      ReplayAppend(limit, ReadingsOf(calls, m, identity), calls[m].reading);
    }
  }

  /** A call moves its own identity's slot and no other. */
  lemma SlotMoves(limit: Limit, calls: seq<Call>, n: nat, identity: string)
    requires ValidLimit(limit) && n < |calls|
    ensures var call, slot := calls[n], Slot(Entries(limit, calls, n), identity);
            Slot(Entries(limit, calls, n + 1), identity)
            == if call.identity == identity then AllowSlot(limit, slot, call.reading).0 else slot
  {
  }

  /** Identities never affect each other: a verdict depends on the caller's own readings only. */
  lemma IdentitiesAreIndependent(limit: Limit, calls: seq<Call>, n: nat)
    requires ValidLimit(limit) && n < |calls|
    ensures var rs := ReadingsOf(calls, n, calls[n].identity) + [calls[n].reading];
            Granted(limit, calls, n) == ReplayGrants(limit, rs, |rs| - 1)
  {
    var before := ReadingsOf(calls, n, calls[n].identity);
    SlotIsReplay(limit, calls, n, calls[n].identity);
    ReplayPrefix(limit, before, [calls[n].reading], |before|);
  }

  // ----- The history-based reference

  /** Reading `n` is usable and no earlier usable reading is later than it. */
  ghost predicate InOrder(rs: seq<Reading>, n: nat)
    requires n < |rs|
  {
    Usable(rs[n]) && forall m :: 0 <= m < n && Usable(rs[m]) ==> rs[m].ns <= rs[n].ns
  }

  /** How many of the calls `i..n` the reference grants. */
  ghost function GrantCount(limit: Limit, rs: seq<Reading>, i: nat, n: nat): nat
    requires ValidLimit(limit) && i <= n <= |rs|
    decreases n, 0
  {
    if i == n then 0
    else GrantCount(limit, rs, i, n - 1) + if HistoryGrants(limit, rs, n - 1) then 1 else 0
  }

  /**
   The sliding-window rule in integers, stated without any bucket or token: an in-order call is granted
   exactly when, for every earlier grant i, each grant from i through this call beyond the capacity is
   paid for by one whole refill interval since i.
   */
  ghost predicate HistoryGrants(limit: Limit, rs: seq<Reading>, n: nat)
    requires ValidLimit(limit) && n < |rs|
    decreases n, 1
  {
    && InOrder(rs, n)
    && forall i: nat :: i < n && HistoryGrants(limit, rs, i) ==>
      Affordable(limit, GrantCount(limit, rs, i, n) + 1, rs[n].ns - rs[i].ns)
  }

  /** A burst of `count` is paid for by the capacity and one whole refill interval for each grant beyond it. */
  predicate Affordable(limit: Limit, count: int, elapsed: int) {
    (count - limit.capacity) * limit.refillInterval <= elapsed
  }

  // ----- Exactness

  /** Every earlier grant leaves room for level `y` at time `t`. */
  ghost predicate LevelFits(limit: Limit, rs: seq<Reading>, n: nat, y: real, t: int)
    requires ValidLimit(limit) && n <= |rs|
  {
    forall i: nat :: i < n && HistoryGrants(limit, rs, i) ==>
      y <= limit.capacity as real + Refill(limit, t - rs[i].ns) - GrantCount(limit, rs, i, n) as real
  }

  /** `level` is the highest level, up to the burst capacity, that fits at time `t`. */
  ghost predicate LevelIs(limit: Limit, rs: seq<Reading>, n: nat, level: real, t: int)
    requires ValidLimit(limit) && n <= |rs|
  {
    && level <= limit.capacity as real
    && forall y: real :: y <= limit.capacity as real ==> (LevelFits(limit, rs, n, y, t) <==> y <= level)
  }

  /** The slot summarises the first `n` readings: its clock is their maximum, its level the tightest window. */
  ghost predicate Summarises(limit: Limit, rs: seq<Reading>, n: nat, slot: Option<Bucket>)
    requires ValidLimit(limit) && n <= |rs|
  {
    match slot
    case None => forall m :: 0 <= m < n ==> !Usable(rs[m])
    case Some(b) =>
      && (forall m :: 0 <= m < n && Usable(rs[m]) ==> rs[m].ns <= b.last)
      && (exists m :: 0 <= m < n && Usable(rs[m]) && rs[m].ns == b.last)
      && LevelIs(limit, rs, n, b.tokens, b.last)
  }

  lemma RefillAdds(limit: Limit, a: int, b: int)
    requires ValidLimit(limit)
    ensures Refill(limit, a) + Refill(limit, b) == Refill(limit, a + b)
    ensures a >= 0 ==> Refill(limit, a) >= 0.0
  {
  }

  /** A burst of `k` fits in the capacity and `dt` exactly when `dt` has room for the intervals it exceeds it by. */
  lemma RefillMeans(limit: Limit, k: int, dt: int)
    requires ValidLimit(limit)
    ensures k as real <= limit.capacity as real + Refill(limit, dt) <==> Affordable(limit, k, dt)
  {
    var over, interval := k - limit.capacity, limit.refillInterval;
    var earned := Refill(limit, dt);
    assert earned * interval as real == dt as real;
    assert over as real * interval as real == (over * interval) as real;
    if over as real <= earned {
      assert over as real * interval as real <= earned * interval as real;
    } else {
      assert over as real * interval as real > earned * interval as real;
    }
  }

  /** Moving the clock and the level together changes nothing. */
  lemma LevelShifts(limit: Limit, rs: seq<Reading>, n: nat, y: real, t: int, dt: int)
    requires ValidLimit(limit) && n <= |rs|
    ensures LevelFits(limit, rs, n, y, t) <==> LevelFits(limit, rs, n, y + Refill(limit, dt), t + dt)
  {
    forall i: nat | i < n && HistoryGrants(limit, rs, i)
      ensures Refill(limit, t + dt - rs[i].ns) == Refill(limit, t - rs[i].ns) + Refill(limit, dt)
    {
      RefillAdds(limit, t - rs[i].ns, dt);
      assert t + dt - rs[i].ns == t - rs[i].ns + dt;
    }
  }

  /** Counting a grant at `n` costs every window one token and opens a new window. */
  lemma GrantCosts(limit: Limit, rs: seq<Reading>, n: nat, y: real)
    requires ValidLimit(limit) && n < |rs| && HistoryGrants(limit, rs, n)
    ensures LevelFits(limit, rs, n + 1, y, rs[n].ns)
       <==> LevelFits(limit, rs, n, y + 1.0, rs[n].ns) && y <= limit.capacity as real - 1.0
  {
    assert Refill(limit, 0) == 0.0;
    assert GrantCount(limit, rs, n, n + 1) == 1;
    forall i: nat | i < n
      ensures GrantCount(limit, rs, i, n + 1) == GrantCount(limit, rs, i, n) + 1
    {
    }
    if LevelFits(limit, rs, n + 1, y, rs[n].ns) {
      assert y <= limit.capacity as real - 1.0;
    }
  }

  lemma DenialIsFree(limit: Limit, rs: seq<Reading>, n: nat, y: real, t: int)
    requires ValidLimit(limit) && n < |rs| && !HistoryGrants(limit, rs, n)
    ensures LevelFits(limit, rs, n + 1, y, t) <==> LevelFits(limit, rs, n, y, t)
  {
    forall i: nat | i < n
      ensures GrantCount(limit, rs, i, n + 1) == GrantCount(limit, rs, i, n)
    {
    }
  }

  lemma RefillLevel(limit: Limit, rs: seq<Reading>, n: nat, tokens: real, last: int, t: int)
    requires ValidLimit(limit) && n <= |rs| && last <= t && LevelIs(limit, rs, n, tokens, last)
    ensures LevelIs(limit, rs, n, Min(limit.capacity as real, tokens + Refill(limit, t - last)), t)
  {
    var earned := Refill(limit, t - last);
    RefillAdds(limit, t - last, 0);
    forall y: real | y <= limit.capacity as real
      ensures LevelFits(limit, rs, n, y, t) <==> y <= tokens + earned
    {
      LevelShifts(limit, rs, n, y - earned, last, t - last);
    }
  }

  lemma GrantLevel(limit: Limit, rs: seq<Reading>, n: nat, level: real)
    requires ValidLimit(limit) && n < |rs| && HistoryGrants(limit, rs, n)
    requires LevelIs(limit, rs, n, level, rs[n].ns)
    ensures LevelIs(limit, rs, n + 1, level - 1.0, rs[n].ns)
  {
    var next := n + 1;
    forall y: real | y <= limit.capacity as real
      ensures LevelFits(limit, rs, next, y, rs[n].ns) <==> y <= level - 1.0
    {
      GrantCosts(limit, rs, n, y);
    }
  }

  lemma DenyLevel(limit: Limit, rs: seq<Reading>, n: nat, level: real, t: int)
    requires ValidLimit(limit) && n < |rs| && !HistoryGrants(limit, rs, n)
    requires LevelIs(limit, rs, n, level, t)
    ensures LevelIs(limit, rs, n + 1, level, t)
  {
    var next := n + 1;
    forall y: real | y <= limit.capacity as real
      ensures LevelFits(limit, rs, next, y, t) <==> y <= level
    {
      DenialIsFree(limit, rs, n, y, t);
    }
  }

  /** An in-order call is granted by the window rule exactly when the level holds a whole token. */
  lemma WholeToken(limit: Limit, rs: seq<Reading>, n: nat, level: real)
    requires ValidLimit(limit) && n < |rs| && InOrder(rs, n) && LevelIs(limit, rs, n, level, rs[n].ns)
    ensures HistoryGrants(limit, rs, n) <==> level >= 1.0
  {
    var c, t := limit.capacity as real, rs[n].ns;
    assert LevelFits(limit, rs, n, 1.0, t) <==> 1.0 <= level;
    forall i: nat | i < n && HistoryGrants(limit, rs, i)
      ensures Affordable(limit, GrantCount(limit, rs, i, n) + 1, t - rs[i].ns)
         <==> 1.0 <= c + Refill(limit, t - rs[i].ns) - GrantCount(limit, rs, i, n) as real
    {
      RefillMeans(limit, GrantCount(limit, rs, i, n) + 1, t - rs[i].ns);
    }
  }

  /** One step: the bucket decides as the window rule does, and goes on summarising. */
  lemma StepIsExact(limit: Limit, rs: seq<Reading>, n: nat, slot: Option<Bucket>)
    requires ValidLimit(limit) && n < |rs| && Summarises(limit, rs, n, slot)
    ensures var (slot', granted) := AllowSlot(limit, slot, rs[n]);
            granted == HistoryGrants(limit, rs, n) && Summarises(limit, rs, n + 1, slot')
  {
    if !Usable(rs[n]) || (slot.Some? && rs[n].ns < slot.value.last) {
      assert !InOrder(rs, n);
      if slot.Some? {
        DenyLevel(limit, rs, n, slot.value.tokens, slot.value.last);
        var m :| 0 <= m < n && Usable(rs[m]) && rs[m].ns == slot.value.last;
      }
    } else {
      InOrderStep(limit, rs, n, slot);
    }
  }

  /** The level an in-order call at time `t` finds. */
  function LevelFound(limit: Limit, slot: Option<Bucket>, t: int): real
    requires ValidLimit(limit)
  {
    if slot.Some? then Min(limit.capacity as real, slot.value.tokens + Refill(limit, t - slot.value.last))
    else limit.capacity as real
  }

  lemma AllowByLevel(limit: Limit, slot: Option<Bucket>, r: Reading)
    requires ValidLimit(limit) && Usable(r) && (slot.Some? ==> slot.value.last <= r.ns)
    ensures var level := LevelFound(limit, slot, r.ns);
            AllowSlot(limit, slot, r) ==
            (Some(Bucket(if level >= 1.0 then level - 1.0 else level, r.ns)), level >= 1.0)
  {
    assert Refill(limit, 0) == 0.0;
  }

  lemma LevelFoundFits(limit: Limit, rs: seq<Reading>, n: nat, slot: Option<Bucket>)
    requires ValidLimit(limit) && n < |rs| && Summarises(limit, rs, n, slot)
    requires Usable(rs[n]) && (slot.Some? ==> slot.value.last <= rs[n].ns)
    ensures LevelIs(limit, rs, n, LevelFound(limit, slot, rs[n].ns), rs[n].ns)
  {
    if slot.Some? {
      RefillLevel(limit, rs, n, slot.value.tokens, slot.value.last, rs[n].ns);
    } else {
      assert forall i: nat :: i < n ==> !HistoryGrants(limit, rs, i);
    }
  }

  /** The level after an in-order call fits the history with it. */
  lemma LevelLeftFits(limit: Limit, rs: seq<Reading>, n: nat, level: real)
    requires ValidLimit(limit) && n < |rs| && InOrder(rs, n) && LevelIs(limit, rs, n, level, rs[n].ns)
    ensures HistoryGrants(limit, rs, n) <==> level >= 1.0
    ensures LevelIs(limit, rs, n + 1, if level >= 1.0 then level - 1.0 else level, rs[n].ns)
  {
    WholeToken(limit, rs, n, level);
    if level >= 1.0 {
      GrantLevel(limit, rs, n, level);
    } else {
      DenyLevel(limit, rs, n, level, rs[n].ns);
    }
  }

  lemma LatestIsInOrder(limit: Limit, rs: seq<Reading>, n: nat, slot: Option<Bucket>, left: real)
    requires ValidLimit(limit) && n < |rs| && Summarises(limit, rs, n, slot)
    requires Usable(rs[n]) && (slot.Some? ==> slot.value.last <= rs[n].ns)
    ensures InOrder(rs, n)
    ensures LevelIs(limit, rs, n + 1, left, rs[n].ns) ==> Summarises(limit, rs, n + 1, Some(Bucket(left, rs[n].ns)))
  {
  }

  lemma InOrderStep(limit: Limit, rs: seq<Reading>, n: nat, slot: Option<Bucket>)
    requires ValidLimit(limit) && n < |rs| && Summarises(limit, rs, n, slot)
    requires Usable(rs[n]) && (slot.Some? ==> slot.value.last <= rs[n].ns)
    ensures var (slot', granted) := AllowSlot(limit, slot, rs[n]);
            granted == HistoryGrants(limit, rs, n) && Summarises(limit, rs, n + 1, slot')
  {
    var level := LevelFound(limit, slot, rs[n].ns);
    AllowByLevel(limit, slot, rs[n]);
    LevelFoundFits(limit, rs, n, slot);
    LatestIsInOrder(limit, rs, n, slot, if level >= 1.0 then level - 1.0 else level);
    LevelLeftFits(limit, rs, n, level);
  }

  lemma {:induction false} ReplaySummarises(limit: Limit, rs: seq<Reading>, n: nat)
    requires ValidLimit(limit) && n <= |rs|
    ensures Summarises(limit, rs, n, Replay(limit, rs, n))
  {
    if n > 0 {
      ReplaySummarises(limit, rs, n - 1);
      StepIsExact(limit, rs, n - 1, Replay(limit, rs, n - 1));
    }
  }

  /**
   The token bucket is exact: over any history of calls by any identities, with any clock readings, a
   call is granted if and only if the sliding-window rule grants it on its identity's own readings.
   */
  lemma BucketIsExact(limit: Limit, calls: seq<Call>, n: nat)
    requires ValidLimit(limit) && n < |calls|
    ensures var rs := ReadingsOf(calls, n, calls[n].identity) + [calls[n].reading];
            Granted(limit, calls, n) <==> HistoryGrants(limit, rs, |rs| - 1)
  {
    var rs := ReadingsOf(calls, n, calls[n].identity) + [calls[n].reading];
    IdentitiesAreIndependent(limit, calls, n);
    ReplaySummarises(limit, rs, |rs| - 1);
    StepIsExact(limit, rs, |rs| - 1, Replay(limit, rs, |rs| - 1));
  }

  /** A failed-clock or out-of-order call is denied and leaves the whole limiter as it was. */
  lemma OutOfOrderChangesNothing(limit: Limit, calls: seq<Call>, n: nat)
    requires ValidLimit(limit) && n < |calls|
    requires var rs := ReadingsOf(calls, n, calls[n].identity) + [calls[n].reading]; !InOrder(rs, |rs| - 1)
    ensures !Granted(limit, calls, n) && Entries(limit, calls, n + 1) == Entries(limit, calls, n)
  {
    var id := calls[n].identity;
    var before := ReadingsOf(calls, n, id);
    var rs := before + [calls[n].reading];
    SlotIsReplay(limit, calls, n, id);
    ReplaySummarises(limit, before, |before|);
    if Usable(calls[n].reading) {
      var m :| 0 <= m < |before| && Usable(rs[m]) && rs[m].ns > calls[n].reading.ns;
      assert before[m] == rs[m];
    }
  }
}
