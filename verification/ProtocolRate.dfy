// The rate limit when commands interleave. A rate token is asked for by one command
// and used by a later one, so what the limiter bounds are the grants: the calls that
// start in a stretch of time are its grants and the grants left over from before.

module ProtocolRate {
  import opened Domain
  import opened Protocol
  import ProtocolBound
  import opened RateLimit

  // The channel of each notification, which is fixed when it is created.
  type Channels = Id -> Channel

  // A worker at its call of the limiter.
  predicate Asking(pc: Thread) {
    pc.Working? && pc.work.Throttle?
  }

  ghost predicate AsksNow(s: State, a: Action) {
    a.Advance? && a.t in s.threads && Asking(s.threads[a.t])
  }

  ghost function CallNow(s: State, a: Action, channels: Channels, expirySet: bool): Call
    requires AsksNow(s, a)
  {
    Call(channels(s.threads[a.t].item.id), a.c.now, expirySet)
  }

  // The limiter calls of a run, in order; expiry says of each whether its key's expiry
  // was set if the call was the first of its second.
  ghost function Calls(m: int, run: seq<Action>, channels: Channels, expiry: nat -> bool): seq<Call>
    decreases |run|
  {
    if run == [] then []
    else
      var before, a := run[..|run| - 1], run[|run| - 1];
      var s := After(m, before);
      var calls := Calls(m, before, channels, expiry);
      calls + if AsksNow(s, a) then [CallNow(s, a, channels, expiry(|calls|))] else []
  }

  // Each worker gets a rate token exactly if the limiter's counters allow it one, and
  // the limiter's clock does not go back.
  ghost predicate Obeys(m: int, run: seq<Action>, channels: Channels, expiry: nat -> bool, perSec: int)
    decreases |run|
  {
    run != [] ==>
      var before, a := run[..|run| - 1], run[|run| - 1];
      var s := After(m, before);
      var calls := Calls(m, before, channels, expiry);
      && Obeys(m, before, channels, expiry, perSec)
      && (AsksNow(s, a) ==>
            var call := CallNow(s, a, channels, expiry(|calls|));
            && (calls != [] ==> calls[|calls| - 1].at <= call.at)
            && (a.c.ok <==> Allowed(CountersAfter(calls), perSec, call.channel, call.at)))
  }

  ghost predicate GrantsIn(s: State, a: Action, channels: Channels, slot: Slot) {
    AsksNow(s, a) && a.c.ok && SlotAt(channels(s.threads[a.t].item.id), a.c.now) == slot
  }

  // The rate tokens given in a slot.
  ghost function Grants(m: int, run: seq<Action>, channels: Channels, slot: Slot): nat
    decreases |run|
  {
    if run == [] then 0
    else
      var before, a := run[..|run| - 1], run[|run| - 1];
      var s := After(m, before);
      Grants(m, before, channels, slot) + if GrantsIn(s, a, channels, slot) then 1 else 0
  }

  lemma {:induction false} GrantsAreGranted(m: int, run: seq<Action>, channels: Channels, expiry: nat -> bool,
                                            perSec: int, slot: Slot)
    requires Obeys(m, run, channels, expiry, perSec)
    ensures Monotone(Calls(m, run, channels, expiry))
    ensures Grants(m, run, channels, slot) == Granted(Calls(m, run, channels, expiry), perSec, slot)
    decreases |run|
  {
    hide After, Allowed, CountersAfter, Granted, AsksNow, CallNow, GrantsIn, Monotone, SlotAt;
    if run == [] {
      NoCalls(perSec, slot);
    } else {
      var before, a := run[..|run| - 1], run[|run| - 1];
      var s := After(m, before);
      var calls := Calls(m, before, channels, expiry);
      GrantsAreGranted(m, before, channels, expiry, perSec, slot);
      if AsksNow(s, a) {
        var call := CallNow(s, a, channels, expiry(|calls|));
        CallGrants(s, a, channels, expiry(|calls|), slot);
        OneMoreCall(calls, call, perSec, slot);
      } else {
        NoneGranted(s, a, channels, slot);
        assert Calls(m, run, channels, expiry) == calls;
      }
    }
  }

  lemma CallGrants(s: State, a: Action, channels: Channels, expirySet: bool, slot: Slot)
    requires AsksNow(s, a)
    ensures var call := CallNow(s, a, channels, expirySet);
      a.Advance? && (GrantsIn(s, a, channels, slot) <==> a.c.ok && SlotAt(call.channel, call.at) == slot)
  {
  }

  lemma NoneGranted(s: State, a: Action, channels: Channels, slot: Slot)
    requires !AsksNow(s, a)
    ensures !GrantsIn(s, a, channels, slot)
  {
  }

  // In every run in which the limiter decides, the rate tokens given on a channel in
  // one second are min(calls, max(0, perSec)), however the commands interleave.
  lemma GrantsPerSlot(m: int, run: seq<Action>, channels: Channels, expiry: nat -> bool, perSec: int, slot: Slot)
    requires Obeys(m, run, channels, expiry, perSec)
    ensures Grants(m, run, channels, slot) == Min(Asked(Calls(m, run, channels, expiry), slot), Max(0, perSec))
  {
    hide Obeys, Calls, Grants;
    GrantsAreGranted(m, run, channels, expiry, perSec, slot);
    GrantsPerSecond(Calls(m, run, channels, expiry), perSec, slot);
  }

  // ---- grants and sends ----

  // A worker that has a rate token and has not called the provider yet.
  predicate HasGrant(pc: Thread) {
    pc.Working? && (pc.work.MarkSending? || pc.work.PublishSending? || pc.work.CallProvider?)
  }

  ghost predicate GrantOn(s: State, channels: Channels, channel: Channel, t: ThreadId) {
    t in s.threads && HasGrant(s.threads[t]) && channels(s.threads[t].item.id) == channel
  }

  ghost function Pending(s: State, channels: Channels, channel: Channel): set<ThreadId> {
    set t | t in s.threads && GrantOn(s, channels, channel, t)
  }

  function SendsOn(log: seq<Event>, channels: Channels, channel: Channel): nat {
    if log == [] then 0
    else
      var e := log[|log| - 1];
      SendsOn(log[..|log| - 1], channels, channel) + if e.Sent? && channels(e.id) == channel then 1 else 0
  }

  ghost function GrantsOn(m: int, run: seq<Action>, channels: Channels, channel: Channel): nat
    decreases |run|
  {
    if run == [] then 0
    else
      var before, a := run[..|run| - 1], run[|run| - 1];
      GrantsOn(m, before, channels, channel)
      + if GrantsNow(After(m, before), a, channels, channel) then 1 else 0
  }

  ghost predicate GrantsNow(s: State, a: Action, channels: Channels, channel: Channel) {
    AsksNow(s, a) && a.c.ok && channels(s.threads[a.t].item.id) == channel
  }

  lemma SendsAfter(log: seq<Event>, c: Command, channels: Channels, channel: Channel)
    ensures SendsOn(LogAfter(log, c), channels, channel) ==
            SendsOn(log, channels, channel)
            + if c.Say? && c.event.Sent? && channels(c.event.id) == channel then 1 else 0
  {
    var log' := LogAfter(log, c);
    if |log'| > |log| {
      assert log'[..|log'| - 1] == log;
    }
  }

  // Whether a turn takes a grant, uses one, or leaves its thread's grant as it is.
  ghost predicate Accounts(before: Thread, turn: Turn, asked: bool) {
    var sent := turn.command.Say? && turn.command.event.Sent?;
    && (sent ==> HasGrant(before) && turn.command.event.id == before.item.id)
    && (asked ==> before.Working? && !HasGrant(before) && HasGrant(turn.next) && turn.next.item == before.item)
    && (HasGrant(turn.next) && !asked ==> HasGrant(before) && turn.next.item == before.item && !sent)
    && (HasGrant(before) && !HasGrant(turn.next) ==> sent)
  }

  lemma WorkerAccounts(m: int, s: State, item: QueueItem, at: WorkPoint, c: Choice)
    ensures Accounts(Working(item, at), WorkerTurn(m, s, item, at, c), at.Throttle? && c.ok)
  {
  }

  lemma OthersAccount(m: int, s: State, a: Action)
    requires !a.ExpireKey? && (a.Advance? && a.t in s.threads ==> !s.threads[a.t].Working?)
    ensures var turn := TurnOf(m, s, a);
      && !(turn.command.Say? && turn.command.event.Sent?)
      && (if a.t in s.threads then HasGrant(turn.next) ==> turn.next == s.threads[a.t] else !HasGrant(turn.next))
      && (a.t in s.threads && HasGrant(s.threads[a.t]) ==> turn.next == s.threads[a.t])
  {
    hide Lists, KeyTaken;
  }

  // The pending grants after a turn of thread t.
  lemma PendingAfter(s: State, s': State, t: ThreadId, next: Thread, channels: Channels, channel: Channel)
    requires s'.threads == s.threads[t := next]
    ensures var rest := Pending(s, channels, channel) - {t};
      Pending(s', channels, channel) ==
      if HasGrant(next) && channels(next.item.id) == channel then rest + {t} else rest
  {
  }

  lemma NextAccounts(m: int, s: State, a: Action, channels: Channels, channel: Channel)
    ensures var s' := Next(m, s, a);
      SendsOn(s'.log, channels, channel) + |Pending(s', channels, channel)| ==
      SendsOn(s.log, channels, channel) + |Pending(s, channels, channel)|
      + if GrantsNow(s, a, channels, channel) then 1 else 0
  {
    hide TurnOf, SendsOn, Exec;
    var s' := Next(m, s, a);
    if a.ExpireKey? {
      assert Pending(s', channels, channel) == Pending(s, channels, channel);
    } else {
      var turn := TurnOf(m, s, a);
      LogIs(s, turn.command);
      SendsAfter(s.log, turn.command, channels, channel);
      PendingAfter(s, s', a.t, turn.next, channels, channel);
      if a.Advance? && a.t in s.threads && s.threads[a.t].Working? {
        ProtocolBound.WorkingTurn(m, s, a);
        WorkerAccounts(m, s, s.threads[a.t].item, s.threads[a.t].work, a.c);
      } else {
        OthersAccount(m, s, a);
      }
      assert a.t in Pending(s, channels, channel) <==> GrantOn(s, channels, channel, a.t);
      hide GrantOn;
      CountPending(Pending(s, channels, channel), a.t);
    }
  }

  lemma LogIs(s: State, c: Command)
    ensures Exec(s, c).log == LogAfter(s.log, c) && Exec(s, c).threads == s.threads
  {
    hide RowsAfter, QueueAfter, MembersAfter, LogAfter;
  }

  lemma CountPending(pending: set<ThreadId>, t: ThreadId)
    ensures |pending - {t}| == if t in pending then |pending| - 1 else |pending|
    ensures |pending - {t} + {t}| == |pending - {t}| + 1
  {
    assert t !in pending ==> pending - {t} == pending;
  }

  // In every run each send used a grant of its channel, and a grant that was not used
  // is with a worker that is about to.
  lemma {:induction false} SendsUseGrants(m: int, run: seq<Action>, channels: Channels, channel: Channel)
    ensures var s := After(m, run);
      SendsOn(s.log, channels, channel) + |Pending(s, channels, channel)| == GrantsOn(m, run, channels, channel)
    decreases |run|
  {
    hide Next, SendsOn, Pending, GrantsNow;
    if run == [] {
      NoneYet(channels, channel);
    } else {
      var before := run[..|run| - 1];
      SendsUseGrants(m, before, channels, channel);
      NextAccounts(m, After(m, before), run[|run| - 1], channels, channel);
    }
  }

  lemma NoneYet(channels: Channels, channel: Channel)
    ensures SendsOn(INIT.log, channels, channel) == 0 && Pending(INIT, channels, channel) == {}
  {
  }

  // So the sends of a stretch of a run are its grants, more by the grants that were
  // pending when it began and fewer by those pending when it ends.
  lemma SendsInStretch(m: int, run: seq<Action>, more: seq<Action>, channels: Channels, channel: Channel)
    ensures var s, s' := After(m, run), After(m, run + more);
      SendsOn(s'.log, channels, channel) - SendsOn(s.log, channels, channel) ==
      GrantsOn(m, run + more, channels, channel) - GrantsOn(m, run, channels, channel)
      + |Pending(s, channels, channel)| - |Pending(s', channels, channel)|
  {
    hide After, GrantsOn, Pending, SendsOn;
    SendsUseGrants(m, run, channels, channel);
    SendsUseGrants(m, run + more, channels, channel);
  }
}
