// What the outside sees of a run of use cases: the published events and the rate
// of provider calls.

module Observed {
  import opened Domain
  import opened RateLimit
  import opened UseCases
  import opened Lifecycle
  import opened Guarantees
  import PQ = PriorityQueue

  // ---- events ----

  function StatusesOf(events: seq<StatusEvent>, id: Id): seq<Status> {
    if events == [] then []
    else
      var last := events[|events| - 1];
      StatusesOf(events[..|events| - 1], id) + if last.id == id then [last.status] else []
  }

  function Times(s: Status, n: nat): (ss: seq<Status>)
    ensures |ss| == n && forall i :: 0 <= i < n ==> ss[i] == s
  {
    seq(n, i => s)
  }

  // The event that ends a notification's story, if it has ended with one.
  function Final(row: Option<Notification>): seq<Status> {
    if row.Some? && (row.value.status == Delivered || row.value.status == Failed) then [row.value.status] else []
  }

  predicate Told(w: World, id: Id) {
    StatusesOf(w.events, id) == Times(Sending, SendsOf(w.sends, id)) + Final(RowOf(w, id))
  }

  lemma StatusesGrow(events: seq<StatusEvent>, e: StatusEvent, id: Id)
    ensures StatusesOf(events + [e], id) == StatusesOf(events, id) + if e.id == id then [e.status] else []
  {
    assert (events + [e])[..|events|] == events;
  }

  lemma StatusesAfter(id: Id, n: Notification, v: Verdict, events: seq<StatusEvent>, other: Id)
    requires Sends(v)
    ensures StatusesOf(events + EventsAfter(id, n, v), other) ==
            StatusesOf(events, other) +
            if other != id then []
            else [Sending] + (if v.Deliver? then [Delivered] else if v.GiveUp? then [Failed] else [])
  {
    hide StatusesOf;
    var sending := StatusEvent(id, n.batch, Sending);
    StatusesGrow(events, sending, other);
    if !v.TryLater? {
      var last := StatusEvent(id, n.batch, if v.Deliver? then Delivered else Failed);
      StatusesGrow(events + [sending], last, other);
      assert events + [sending, last] == events + [sending] + [last];
    }
  }

  lemma ProcessTold(cfg: Config, w: World, item: QueueItem, answer: Answer, id: Id)
    requires Inv(cfg, w) && item in w.hands && Told(w, id)
    ensures Told(Processed(cfg, w, item, answer), id)
  {
    hide Inv, StatusesOf, SendsOf, ViewOf, EventsAfter, VerdictOn, TokensIn;
    HeldItem(cfg, w, item);
    HeldVerdict(cfg, w, item, answer);
    HeldView(w, item);
    ProcessedViews(cfg, w, item, answer, id);
    ViewIs(w, id);
    ViewIs(Processed(cfg, w, item, answer), id);
    var v := VerdictOn(cfg, w, item, answer);
    if Sends(v) {
      StatusesAfter(item.id, w.rows[item.id], v, w.events, id);
      Verdicts(cfg, w, item, answer);
    }
  }

  lemma ViewIs(w: World, id: Id)
    ensures ViewOf(w, id).sends == SendsOf(w.sends, id) && ViewOf(w, id).row == RowOf(w, id)
  {
  }

  lemma Verdicts(cfg: Config, w: World, item: QueueItem, answer: Answer)
    requires Sends(VerdictOn(cfg, w, item, answer))
    ensures VerdictOn(cfg, w, item, answer).Deliver? <==> answer.Accepted?
  {
  }

  // Only processing publishes.
  lemma OthersSilent(cfg: Config, w: World, step: Step)
    requires !step.Process?
    ensures Next(cfg, w, step).events == w.events && Next(cfg, w, step).sends == w.sends
  {
    hide Created, PQ.Purged, PQ.Front;
    if step.Create? {
      CreateSilent(cfg, w, step.input, step.id);
    }
  }

  lemma CreateSilent(cfg: Config, w: World, input: Input, id: Id)
    ensures Created(cfg, w, input, id).0.events == w.events && Created(cfg, w, input, id).0.sends == w.sends
  {
    hide Content, Validates, NewRow, Draft;
  }

  // A create adds one row at most, and one that can be cancelled.
  lemma CreatedRows(cfg: Config, w: World, input: Input, id: Id)
    ensures var rows' := Created(cfg, w, input, id).0.rows;
      rows' == w.rows || (id in rows' && rows' == w.rows[id := rows'[id]] && rows'[id].status.Cancellable())
  {
    hide Content, Validates, Stored;
    if Content(cfg, input).Ok? {
      var n := Draft(input, Content(cfg, input).value);
      StoredRow(WithLease(w, n.key, id), id, n);
    }
  }

  lemma StoredRow(w: World, id: Id, n: Notification)
    requires n.status == Pending
    ensures var rows' := Stored(w, id, n).rows;
      id in rows' && rows' == w.rows[id := rows'[id]] && rows'[id].status.Cancellable()
  {
    hide PQ.Pushed;
  }

  function RowOf(w: World, id: Id): Option<Notification> {
    if id in w.rows then Some(w.rows[id]) else None
  }

  // What other steps do to a row ends no story.
  lemma OthersEndNothing(cfg: Config, w: World, step: Step, id: Id)
    requires !step.Process?
    ensures Final(RowOf(Next(cfg, w, step), id)) == Final(RowOf(w, id))
  {
    hide Created, PQ.Purged, PQ.Front;
    if step.Create? {
      CreatedRows(cfg, w, step.input, step.id);
    }
  }

  lemma NextTold(cfg: Config, w: World, step: Step, id: Id)
    requires Inv(cfg, w) && Told(w, id)
    ensures Told(Next(cfg, w, step), id)
  {
    hide Inv, StatusesOf, SendsOf, ViewOf, Processed, Final;
    if !step.Process? {
      OthersSilent(cfg, w, step);
      OthersEndNothing(cfg, w, step, id);
    } else if step.item in w.hands {
      ProcessTold(cfg, w, step.item, step.answer, id);
    }
  }

  // In every run the events of a notification are `sending` once per send,
  // followed by `delivered` or `failed` exactly when that is its status.
  lemma {:induction false} EventsTellTheStory(cfg: Config, now: int, steps: seq<Step>, id: Id)
    ensures Told(Run(cfg, Empty(now), steps), id)
  {
    hide Next, Inv;
    if steps != [] {
      var before := steps[..|steps| - 1];
      EventsTellTheStory(cfg, now, before, id);
      EmptyInv(cfg, now);
      RunKeepsInv(cfg, Empty(now), before);
      NextTold(cfg, Run(cfg, Empty(now), before), steps[|steps| - 1], id);
    }
  }

  // ---- the rate ----

  // The channel a step asks the limiter for.
  function Asks(cfg: Config, w: World, step: Step): Option<Channel> {
    if step.Process? && step.item in w.hands && step.item.id in w.rows
       && !VerdictOn(cfg, w, step.item, step.answer).Discard?
    then Some(w.rows[step.item.id].channel)
    else None
  }

  function LimiterCalls(cfg: Config, now: int, steps: seq<Step>): seq<Call> {
    if steps == [] then []
    else
      var w := Run(cfg, Empty(now), steps[..|steps| - 1]);
      var asked := Asks(cfg, w, steps[|steps| - 1]);
      LimiterCalls(cfg, now, steps[..|steps| - 1])
      + if asked.Some? then [Call(asked.value, w.now, true)] else []
  }

  // The provider calls on the channel and in the second of a slot.
  function SendsIn(cfg: Config, now: int, steps: seq<Step>, slot: Slot): nat {
    if steps == [] then 0
    else
      var w := Run(cfg, Empty(now), steps[..|steps| - 1]);
      var sends' := Next(cfg, w, steps[|steps| - 1]).sends;
      SendsIn(cfg, now, steps[..|steps| - 1], slot)
      + if |sends'| > |w.sends| && SlotAt(sends'[|sends'| - 1].channel, w.now) == slot then 1 else 0
  }

  // A step asks the limiter at most once, and sends exactly if it was allowed.
  predicate AsksFirst(cfg: Config, w: World, w': World, asked: Option<Channel>) {
    && w'.now >= w.now
    && w'.counters == (if asked.Some? then Bumped(w.counters, asked.value, w.now, true) else w.counters)
    && (|w'.sends| > |w.sends| <==> asked.Some? && Allowed(w.counters, cfg.perSec, asked.value, w.now))
    && (|w'.sends| > |w.sends| ==> w'.sends[|w'.sends| - 1].channel == asked.value)
  }

  lemma ProcessAsks(cfg: Config, w: World, item: QueueItem, answer: Answer)
    requires item in w.hands
    ensures AsksFirst(cfg, w, Processed(cfg, w, item, answer), Asks(cfg, w, Process(item, answer)))
  {
    hide Allowed, Bumped, RowAfter, RetryAfter, EventsAfter, MetricAfter, AfterSend;
  }

  lemma StepAsks(cfg: Config, w: World, step: Step)
    ensures AsksFirst(cfg, w, Next(cfg, w, step), Asks(cfg, w, step))
  {
    hide Allowed, Bumped;
    if !step.Process? {
      hide Next;
      OnlyProcessSends(cfg, w, step);
    } else if step.item in w.hands {
      hide Processed;
      ProcessAsks(cfg, w, step.item, step.answer);
    }
  }

  // Whether the step of each limiter call went on to send.
  function Fates(cfg: Config, now: int, steps: seq<Step>): seq<bool> {
    if steps == [] then []
    else
      var w, last := Run(cfg, Empty(now), steps[..|steps| - 1]), steps[|steps| - 1];
      Fates(cfg, now, steps[..|steps| - 1])
      + if Asks(cfg, w, last).Some? then [|Next(cfg, w, last).sends| > |w.sends|] else []
  }

  // The calls so far are answered as before.
  lemma AllowedBefore(calls: seq<Call>, last: Call, perSec: int)
    ensures forall i :: 0 <= i < |calls| ==> (AllowedAt(calls + [last], perSec, i) <==> AllowedAt(calls, perSec, i))
    ensures AllowedAt(calls + [last], perSec, |calls|) <==>
            Allowed(CountersAfter(calls), perSec, last.channel, last.at)
  {
    hide Allowed, CountersAfter;
    assert (calls + [last])[..|calls|] == calls;
    forall i | 0 <= i < |calls| ensures (calls + [last])[..i] == calls[..i] {
    }
  }

  // The limiter's answer to each call of a run is what the step then does.
  lemma {:induction false} CallsDecideSends(cfg: Config, now: int, steps: seq<Step>)
    ensures var calls := LimiterCalls(cfg, now, steps); var fates := Fates(cfg, now, steps);
      |fates| == |calls| && forall i :: 0 <= i < |calls| ==> (AllowedAt(calls, cfg.perSec, i) <==> fates[i])
  {
    hide Next, Asks, Allowed, AllowedAt, CountersAfter;
    if steps != [] {
      var before, last := steps[..|steps| - 1], steps[|steps| - 1];
      var w := Run(cfg, Empty(now), before);
      CallsDecideSends(cfg, now, before);
      StepAsks(cfg, w, last);
      CallsInRuns(cfg, now, before, Slot("", 0));
      var asked := Asks(cfg, w, last);
      if asked.Some? {
        AllowedBefore(LimiterCalls(cfg, now, before), Call(asked.value, w.now, true), cfg.perSec);
      } else {
        assert LimiterCalls(cfg, now, steps) == LimiterCalls(cfg, now, before);
        assert Fates(cfg, now, steps) == Fates(cfg, now, before);
      }
    }
  }

  lemma {:induction false} CallsInRuns(cfg: Config, now: int, steps: seq<Step>, slot: Slot)
    ensures var calls := LimiterCalls(cfg, now, steps); var w := Run(cfg, Empty(now), steps);
      && Monotone(calls) && (calls != [] ==> calls[|calls| - 1].at <= w.now)
      && CountersAfter(calls) == w.counters
      && Granted(calls, cfg.perSec, slot) == SendsIn(cfg, now, steps, slot)
  {
    hide Next, Asks, Allowed, Bumped, Granted, CountersAfter;
    if steps == [] {
      NoCalls(cfg.perSec, slot);
    } else {
      var before := steps[..|steps| - 1];
      var w := Run(cfg, Empty(now), before);
      CallsInRuns(cfg, now, before, slot);
      StepAsks(cfg, w, steps[|steps| - 1]);
      var asked := Asks(cfg, w, steps[|steps| - 1]);
      if asked.Some? {
        OneMoreCall(LimiterCalls(cfg, now, before), Call(asked.value, w.now, true), cfg.perSec, slot);
      } else {
        assert LimiterCalls(cfg, now, steps) == LimiterCalls(cfg, now, before);
      }
    }
  }

  // In every run, of the items that are processed on a channel in one second, which
  // is when they are given their rate tokens, exactly as many are sent as the limit
  // lets through.
  lemma RateInRuns(cfg: Config, now: int, steps: seq<Step>, slot: Slot)
    ensures SendsIn(cfg, now, steps, slot)
         == Min(Asked(LimiterCalls(cfg, now, steps), slot), Max(0, cfg.perSec))
  {
    hide Next, Asks, LimiterCalls, SendsIn;
    CallsInRuns(cfg, now, steps, slot);
    GrantsPerSecond(LimiterCalls(cfg, now, steps), cfg.perSec, slot);
  }
  // ---- the limiter's refusals ----

  function AskedOn(calls: seq<Call>, channel: Channel): nat {
    if calls == [] then 0
    else AskedOn(calls[..|calls| - 1], channel) + if calls[|calls| - 1].channel == channel then 1 else 0
  }

  // Calls of the provider, and rate tokens refused.
  function Decided(w: World, channel: Channel): nat {
    CallsOn(w.sends, channel, true) + CallsOn(w.sends, channel, false)
    + Recorded(w.metrics, Metric(RateLimitedCount, channel))
  }

  lemma ProcessDecides(cfg: Config, w: World, item: QueueItem, answer: Answer, channel: Channel)
    requires item in w.hands
    ensures Decided(Processed(cfg, w, item, answer), channel) ==
            Decided(w, channel) + if Asks(cfg, w, Process(item, answer)) == Some(channel) then 1 else 0
  {
    hide Allowed, Bumped, RowAfter, RetryAfter, EventsAfter, CallsOn, Recorded, VerdictOn;
    if item.id in w.rows {
      var n, v := w.rows[item.id], VerdictOn(cfg, w, item, answer);
      CallsGrow(w.sends, CallFor(item.id, n, answer), channel, true);
      CallsGrow(w.sends, CallFor(item.id, n, answer), channel, false);
      if MetricAfter(v).Some? {
        RecordedGrows(w.metrics, Metric(MetricAfter(v).value, n.channel), Metric(RateLimitedCount, channel));
      }
    }
  }

  lemma StepDecides(cfg: Config, w: World, step: Step, channel: Channel)
    ensures Decided(Next(cfg, w, step), channel) ==
            Decided(w, channel) + if Asks(cfg, w, step) == Some(channel) then 1 else 0
  {
    hide Decided, Processed, VerdictOn;
    if !step.Process? {
      hide Next;
      OnlyProcessSends(cfg, w, step);
      QuietDecides(w, Next(cfg, w, step), channel);
    } else if step.item in w.hands {
      ProcessDecides(cfg, w, step.item, step.answer, channel);
    }
  }

  lemma QuietDecides(w: World, w': World, channel: Channel)
    requires Quiet(w, w')
    ensures Decided(w', channel) == Decided(w, channel)
  {
  }

  // In every run each question to the limiter ends in a provider call or in one
  // more on the channel's rate-limited counter.
  lemma {:induction false} RefusalsAreCounted(cfg: Config, now: int, steps: seq<Step>, channel: Channel)
    ensures var w := Run(cfg, Empty(now), steps);
      AskedOn(LimiterCalls(cfg, now, steps), channel) ==
      CallsOn(w.sends, channel, true) + CallsOn(w.sends, channel, false)
      + Recorded(w.metrics, Metric(RateLimitedCount, channel))
  {
    hide Next, Asks;
    if steps != [] {
      var before := steps[..|steps| - 1];
      var w, last := Run(cfg, Empty(now), before), steps[|steps| - 1];
      RefusalsAreCounted(cfg, now, before, channel);
      StepDecides(cfg, w, last, channel);
      var calls, asked := LimiterCalls(cfg, now, before), Asks(cfg, w, last);
      if asked.Some? {
        assert (calls + [Call(asked.value, w.now, true)])[..|calls|] == calls;
      } else {
        assert LimiterCalls(cfg, now, steps) == calls;
      }
    }
  }
}
