// The per-channel fixed-window limiter on expiring counters
// (internal/adapter/ratelimit/redis/limiter.go). Times are nanoseconds; INCR and
// EXPIRE take effect at the instant the window is computed, and EXPIRE, whose
// error is ignored, may not take effect at all.

module RateLimit {
  import opened Domain
  import opened DelayedSet

  datatype Slot = Slot(channel: Channel, second: int)

  // A counter and the instant its key expires, if it does.
  datatype Counter = Counter(n: nat, expires: Option<int>) {
    predicate Live(now: int) {
      expires.Some? ==> now < expires.value
    }
  }

  type Counters = map<Slot, Counter>

  function SlotAt(channel: Channel, now: int): Slot {
    Slot(channel, Unix(now))
  }

  // The value INCR finds: an expired key reads as absent.
  function Count(counters: Counters, slot: Slot, now: int): nat {
    if slot in counters && counters[slot].Live(now) then counters[slot].n else 0
  }

  // The counters after a call: the slot's counter is one more, and a counter
  // that starts is set to expire two seconds later.
  function Bumped(counters: Counters, channel: Channel, now: int, expireApplied: bool): Counters {
    var slot := SlotAt(channel, now);
    var n := Count(counters, slot, now);
    counters[slot := Counter(n + 1,
                             if n > 0 then counters[slot].expires
                             else if expireApplied then Some(now + 2 * SECOND)
                             else None)]
  }

  predicate Allowed(counters: Counters, perSec: int, channel: Channel, now: int) {
    Count(counters, SlotAt(channel, now), now) + 1 <= perSec
  }

  class Limiter {
    const perSec: int
    var counters: Counters

    constructor (perSec: int)
      ensures this.perSec == perSec && counters == map[]
    {
      this.perSec := perSec;
      counters := map[];
    }

    method Allow(channel: Channel, now: int, expireApplied: bool) returns (ok: bool)
      modifies this
      ensures counters == Bumped(old(counters), channel, now, expireApplied)
      ensures ok == Allowed(old(counters), perSec, channel, now)
    {
      var slot := SlotAt(channel, now);
      var n := Incr(slot, now);
      if n == 1 && expireApplied {
        counters := counters[slot := counters[slot].(expires := Some(now + 2 * SECOND))];
      }
      ok := n <= perSec;
    }

    // INCR: a missing key counts from zero and has no expiry.
    method Incr(slot: Slot, now: int) returns (n: nat)
      modifies this
      ensures n == Count(old(counters), slot, now) + 1
      ensures n > 1 ==> slot in old(counters)
      ensures counters == old(counters)[slot := Counter(n, if n > 1 then old(counters)[slot].expires else None)]
    {
      n := Count(counters, slot, now) + 1;
      counters := counters[slot := Counter(n, if n > 1 then counters[slot].expires else None)];
    }
  }

  // ---- whole runs under a clock that never goes back ----

  datatype Call = Call(channel: Channel, at: int, expireApplied: bool)

  predicate Monotone(calls: seq<Call>) {
    forall i, j :: 0 <= i < j < |calls| ==> calls[i].at <= calls[j].at
  }

  function CountersAfter(calls: seq<Call>): Counters {
    if calls == [] then map[]
    else
      var last := calls[|calls| - 1];
      Bumped(CountersAfter(calls[..|calls| - 1]), last.channel, last.at, last.expireApplied)
  }

  // Whether call i of the run was allowed.
  predicate AllowedAt(calls: seq<Call>, perSec: int, i: nat)
    requires i < |calls|
  {
    Allowed(CountersAfter(calls[..i]), perSec, calls[i].channel, calls[i].at)
  }

  // The calls of one slot.
  function Asked(calls: seq<Call>, slot: Slot): nat {
    if calls == [] then 0
    else
      var last := calls[|calls| - 1];
      Asked(calls[..|calls| - 1], slot) + if SlotAt(last.channel, last.at) == slot then 1 else 0
  }

  // The allowed calls of one slot.
  function Granted(calls: seq<Call>, perSec: int, slot: Slot): nat {
    if calls == [] then 0
    else
      var last := calls[|calls| - 1];
      Granted(calls[..|calls| - 1], perSec, slot)
      + if SlotAt(last.channel, last.at) == slot && AllowedAt(calls, perSec, |calls| - 1) then 1 else 0
  }

  // One more call at the end of a run.
  lemma OneMoreCall(calls: seq<Call>, last: Call, perSec: int, slot: Slot)
    requires Monotone(calls) && (calls != [] ==> calls[|calls| - 1].at <= last.at)
    ensures Monotone(calls + [last])
    ensures CountersAfter(calls + [last]) == Bumped(CountersAfter(calls), last.channel, last.at, last.expireApplied)
    ensures Granted(calls + [last], perSec, slot) ==
            Granted(calls, perSec, slot) +
            if SlotAt(last.channel, last.at) == slot && Allowed(CountersAfter(calls), perSec, last.channel, last.at)
            then 1 else 0
  {
    hide Bumped, Allowed;
    assert (calls + [last])[..|calls|] == calls;
  }

  lemma NoCalls(perSec: int, slot: Slot)
    ensures Monotone([]) && CountersAfter([]) == map[] && Granted([], perSec, slot) == 0
  {
  }

  // If the key expires at all, it does so two to three seconds after its second began.
  predicate Outlives(counter: Counter, second: int) {
    counter.expires.Some? ==> (second + 2) * SECOND <= counter.expires.value < (second + 3) * SECOND
  }

  // What the counters say about the calls so far: a slot that was asked has a
  // counter that outlives its second, and the counter is exact.
  ghost predicate Exact(counters: Counters, calls: seq<Call>) {
    forall slot ::
      && (Asked(calls, slot) > 0 <==> slot in counters)
      && (slot in counters ==>
            && counters[slot].n == Asked(calls, slot)
            && Outlives(counters[slot], slot.second)
            && calls != [] && slot.second <= Unix(calls[|calls| - 1].at))
  }

  lemma {:induction false} CountersAreExact(calls: seq<Call>)
    requires Monotone(calls)
    ensures Exact(CountersAfter(calls), calls)
  {
    if calls != [] {
      var front, last := calls[..|calls| - 1], calls[|calls| - 1];
      CountersAreExact(front);
      var slot := SlotAt(last.channel, last.at);
      assert slot in CountersAfter(front) ==> CountersAfter(front)[slot].Live(last.at);
      forall s ensures s in CountersAfter(front) ==> s.second <= Unix(last.at) {
        if front != [] {
          assert front[|front| - 1].at <= last.at;
        }
      }
    }
  }

  // The first call of a slot.
  function FirstOf(calls: seq<Call>, slot: Slot): Option<Call> {
    if calls == [] then None
    else
      var last, earlier := calls[|calls| - 1], FirstOf(calls[..|calls| - 1], slot);
      if earlier.Some? then earlier
      else if SlotAt(last.channel, last.at) == slot then Some(last) else None
  }

  // Only the first call of a slot sets when its counter expires, two seconds later;
  // no later call puts that off.
  lemma {:induction false} ExpiryIsFirst(calls: seq<Call>, slot: Slot)
    requires Monotone(calls)
    ensures slot in CountersAfter(calls) <==> FirstOf(calls, slot).Some?
    ensures slot in CountersAfter(calls) ==>
              var first := FirstOf(calls, slot).value;
              CountersAfter(calls)[slot].expires == if first.expireApplied then Some(first.at + 2 * SECOND) else None
  {
    if calls != [] {
      var front, last := calls[..|calls| - 1], calls[|calls| - 1];
      ExpiryIsFirst(front, slot);
      CountersAreExact(front);
      assert slot in CountersAfter(front) && slot == SlotAt(last.channel, last.at) ==>
          CountersAfter(front)[slot].Live(last.at) && CountersAfter(front)[slot].n > 0;
    }
  }

  // A key never expires within its own second, so a call is allowed exactly when
  // fewer than perSec calls of its slot came before it.
  lemma AllowedIffBelowLimit(calls: seq<Call>, perSec: int, i: nat)
    requires Monotone(calls) && i < |calls|
    ensures AllowedAt(calls, perSec, i) <==> Asked(calls[..i], SlotAt(calls[i].channel, calls[i].at)) < perSec
  {
    CountersAreExact(calls[..i]);
  }

  // Per channel and second exactly min(calls, max(0, perSec)) calls are allowed.
  lemma {:induction false} GrantsPerSecond(calls: seq<Call>, perSec: int, slot: Slot)
    requires Monotone(calls)
    ensures Granted(calls, perSec, slot) == Min(Asked(calls, slot), Max(0, perSec))
  {
    if calls != [] {
      GrantsPerSecond(calls[..|calls| - 1], perSec, slot);
      AllowedIffBelowLimit(calls, perSec, |calls| - 1);
    }
  }

  // Allowed calls of a channel at instants in [from, from + 1 s).
  function GrantedWithin(calls: seq<Call>, perSec: int, channel: Channel, from: int): nat {
    if calls == [] then 0
    else
      var last := calls[|calls| - 1];
      GrantedWithin(calls[..|calls| - 1], perSec, channel, from)
      + if last.channel == channel && from <= last.at < from + SECOND && AllowedAt(calls, perSec, |calls| - 1)
        then 1 else 0
  }

  lemma {:induction false} SpanTouchesTwoSeconds(calls: seq<Call>, perSec: int, channel: Channel, from: int)
    ensures GrantedWithin(calls, perSec, channel, from)
         <= Granted(calls, perSec, Slot(channel, Unix(from))) + Granted(calls, perSec, Slot(channel, Unix(from) + 1))
  {
    if calls != [] {
      SpanTouchesTwoSeconds(calls[..|calls| - 1], perSec, channel, from);
    }
  }

  // Any span of one second sees at most twice the limit.
  lemma SpanBound(calls: seq<Call>, perSec: int, channel: Channel, from: int)
    requires Monotone(calls)
    ensures GrantedWithin(calls, perSec, channel, from) <= 2 * Max(0, perSec)
  {
    SpanTouchesTwoSeconds(calls, perSec, channel, from);
    GrantsPerSecond(calls, perSec, Slot(channel, Unix(from)));
    GrantsPerSecond(calls, perSec, Slot(channel, Unix(from) + 1));
  }

  // When every EXPIRE took effect, each key has an expiry.
  lemma {:induction false} KeysExpire(calls: seq<Call>)
    requires forall i :: 0 <= i < |calls| ==> calls[i].expireApplied
    ensures forall slot :: slot in CountersAfter(calls) ==> CountersAfter(calls)[slot].expires.Some?
  {
    if calls != [] {
      KeysExpire(calls[..|calls| - 1]);
    }
  }

  // Then the keys that have not expired at an instant no earlier than the last call
  // are of the current second or the two before it: at most three per channel.
  lemma LiveKeys(calls: seq<Call>, channel: Channel, now: int)
    requires Monotone(calls) && (calls != [] ==> calls[|calls| - 1].at <= now)
    requires forall i :: 0 <= i < |calls| ==> calls[i].expireApplied
    ensures var counters := CountersAfter(calls);
      var live := set slot | slot in counters && slot.channel == channel && counters[slot].Live(now);
      live <= {Slot(channel, Unix(now) - 2), Slot(channel, Unix(now) - 1), Slot(channel, Unix(now))} && |live| <= 3
  {
    CountersAreExact(calls);
    KeysExpire(calls);
    hide CountersAfter, Asked;
    var counters := CountersAfter(calls);
    var live := set slot | slot in counters && slot.channel == channel && counters[slot].Live(now);
    var three := {Slot(channel, Unix(now) - 2), Slot(channel, Unix(now) - 1), Slot(channel, Unix(now))};
    assert live <= three;
    SubsetSize(live, three);
  }

  lemma {:induction false} SubsetSize<T>(a: set<T>, b: set<T>)
    requires a <= b
    ensures |a| <= |b|
  {
    if a != {} {
      var x :| x in a;
      SubsetSize(a - {x}, b - {x});
    }
  }
}
