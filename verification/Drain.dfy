// With no new creates or cancels the system drains: working off the queue and,
// when it is empty, moving the clock to the next due time and promoting, ends
// with empty stores whatever the provider answers.

module Drain {
  import opened Domain
  import opened DelayedSet
  import opened RateLimit
  import opened Tokens
  import opened UseCases
  import opened Lifecycle
  import opened Guarantees
  import opened Services
  import PQ = PriorityQueue

  // ---- the attempts that are left ----

  function Share(cap: nat, n: Notification): nat {
    if n.status.Settled() || n.attempts >= cap then 0 else cap - n.attempts
  }

  ghost function Left(cap: nat, rows: map<Id, Notification>): nat {
    if rows == map[] then 0
    else
      var id :| id in rows;
      Share(cap, rows[id]) + Left(cap, rows - {id})
  }

  lemma {:induction false} LeftSplits(cap: nat, rows: map<Id, Notification>, id: Id)
    requires id in rows
    ensures Left(cap, rows) == Share(cap, rows[id]) + Left(cap, rows - {id})
    decreases rows
  {
    var first :| first in rows && Left(cap, rows) == Share(cap, rows[first]) + Left(cap, rows - {first});
    if first != id {
      LeftSplits(cap, rows - {first}, id);
      LeftSplits(cap, rows - {id}, first);
      assert rows - {first} - {id} == rows - {id} - {first};
    }
  }

  lemma LeftAfterUpdate(cap: nat, rows: map<Id, Notification>, id: Id, n: Notification)
    requires id in rows
    ensures Left(cap, rows[id := n]) == Left(cap, rows) - Share(cap, rows[id]) + Share(cap, n)
  {
    LeftSplits(cap, rows, id);
    LeftSplits(cap, rows[id := n], id);
    assert rows[id := n] - {id} == rows - {id};
  }

  // ---- the measure ----

  // No rate token of the current second or a later one has been used.
  ghost predicate Fresh(w: World) {
    forall slot :: slot in w.counters ==> slot.second < Unix(w.now)
  }

  ghost predicate NothingAhead(w: World) {
    forall slot :: slot in w.counters ==> slot.second <= Unix(w.now)
  }

  function DueTokens(w: World): nat {
    DueCount(w.retry, w.now) + DueCount(w.scheduled, w.now)
  }

  function ReadyTokens(w: World): nat {
    |InQueue(w.lists)| + DueTokens(w)
  }

  // Attempts and tokens left; neither grows.
  ghost function Work(cfg: Config, w: World): nat {
    Left(Cap(cfg.maxAttempts), w.rows) + |TokensIn(w)|
  }

  // 0 when the next item is sure to get a rate token, 1 when nothing is ready
  // and the clock is about to move, 2 otherwise.
  ghost function Stage(w: World): nat {
    if ReadyTokens(w) == 0 then 1 else if Fresh(w) then 0 else 2
  }

  ghost predicate Below(cfg: Config, w': World, w: World) {
    || Work(cfg, w') < Work(cfg, w)
    || (Work(cfg, w') == Work(cfg, w) &&
        (|| Stage(w') < Stage(w)
         || (Stage(w') == Stage(w) &&
             (|| ReadyTokens(w') < ReadyTokens(w)
              || (ReadyTokens(w') == ReadyTokens(w) && DueTokens(w') < DueTokens(w))))))
  }

  ghost predicate Idle(cfg: Config, w: World) {
    Inv(cfg, w) && NothingAhead(w) && w.hands == multiset{}
  }

  // ---- one round of the worker ----

  lemma {:induction false} LaterAddsNothingDue(es: seq<Entry>, e: Entry, now: int)
    requires e.score > Unix(now)
    ensures DueCount(Placed(es, e), now) == DueCount(es, now)
  {
    if es != [] && !Precedes(e, es[0]) {
      LaterAddsNothingDue(es[1..], e, now);
    }
  }

  lemma ThrottledIsNotDue(es: seq<Entry>, item: QueueItem, now: int)
    requires ValidPriority(item.priority) && item !in InSet(es)
    ensures DueCount(Added(es, item, now + SECOND), now) == DueCount(es, now)
  {
    hide InSet, Placed, DueCount;
    ValidPrioritySurvives(item);
    forall e | e in es ensures e.member != Encode(item) {
      InSetMember(es, e);
    }
    UnsetAbsent(es, Encode(item));
    LaterAddsNothingDue(es, Entry(Unix(now + SECOND), Encode(item)), now);
  }

  lemma FreshIsAllowed(cfg: Config, w: World, channel: Channel)
    requires Fresh(w) && cfg.perSec >= 1
    ensures Allowed(w.counters, cfg.perSec, channel, w.now)
  {
  }

  // Sending uses up an attempt; discarding uses up a token only.
  lemma ProcessedLeft(cfg: Config, w: World, item: QueueItem, answer: Answer)
    requires Inv(cfg, w) && item in w.hands
    ensures var w' := Processed(cfg, w, item, answer); var cap := Cap(cfg.maxAttempts);
      var v := VerdictOn(cfg, w, item, answer);
      && w'.rows.Keys == w.rows.Keys
      && (Sends(v) ==> Left(cap, w'.rows) < Left(cap, w.rows) && |w'.sends| == |w.sends| + 1)
      && (!Sends(v) ==> w'.rows == w.rows && w'.sends == w.sends)
  {
    hide TokensIn, Ranked, Indexed, TokensMatch, RetryAfter, Allowed, Bumped, EventsAfter, Left;
    HeldItem(cfg, w, item);
    var n, v := w.rows[item.id], VerdictOn(cfg, w, item, answer);
    assert Sound(Cap(cfg.maxAttempts), ViewOf(w, item.id));
    LeftAfterUpdate(Cap(cfg.maxAttempts), w.rows, item.id, RowAfter(n, v, answer));
  }

  lemma BumpedAhead(counters: Counters, channel: Channel, now: int)
    requires forall slot :: slot in counters ==> slot.second <= Unix(now)
    ensures var after := Bumped(counters, channel, now, true);
      (forall slot :: slot in after ==> slot.second <= Unix(now)) && SlotAt(channel, now) in after
  {
  }

  lemma WorkedKeepsIdle(cfg: Config, w: World, answer: Answer)
    requires Idle(cfg, w)
    ensures Idle(cfg, Worked(cfg, w, answer))
  {
    hide Inv, PQ.Front, PQ.Popped, VerdictOn, RetryAfter, RowAfter, EventsAfter, Bumped;
    if PQ.Front(w.lists).Some? {
      var item := PQ.Front(w.lists).value;
      TakeKeepsInv(cfg, w);
      ProcessKeepsInv(cfg, Taken(w), item, answer);
      if item.id in w.rows {
        BumpedAhead(w.counters, w.rows[item.id].channel, w.now);
      }
    }
  }

  lemma ThrottleBelow(cfg: Config, w: World, item: QueueItem, answer: Answer)
    requires Idle(cfg, w) && cfg.perSec >= 1
    requires PQ.Front(w.lists) == Some(item) && VerdictOn(cfg, Taken(w), item, answer).Throttle?
    ensures var w' := Worked(cfg, w, answer);
      Stage(w) == 2 && 0 < Stage(w') <= 2 && ReadyTokens(w') == ReadyTokens(w) - 1
  {
    hide Inv, PQ.Front, PQ.Popped, InQueue, InSet, Allowed, Bumped, Added, DueCount, Processed;
    var w1, w' := Taken(w), Worked(cfg, w, answer);
    TakeKeepsInv(cfg, w);
    HeldItem(cfg, w1, item);
    PopTokens(w.lists);
    ThrottledIs(cfg, w1, item, answer);
    ThrottledIsNotDue(w.retry, item, w.now);
    BumpedAhead(w.counters, w.rows[item.id].channel, w.now);
    if Fresh(w) {
      FreshIsAllowed(cfg, w1, w.rows[item.id].channel);
    }
    assert SlotAt(w.rows[item.id].channel, w.now) in w'.counters;
  }

  lemma TokensShrink(tokens: multiset<QueueItem>, item: QueueItem)
    requires item in tokens
    ensures |tokens - multiset{item}| == |tokens| - 1
  {
  }

  // A round comes closer to the end, and pays for a send with an attempt.
  lemma WorkedBelow(cfg: Config, w: World, answer: Answer)
    requires Idle(cfg, w) && cfg.perSec >= 1 && PQ.Front(w.lists).Some?
    ensures var w' := Worked(cfg, w, answer); var cap := Cap(cfg.maxAttempts);
      Below(cfg, w', w) && w'.rows.Keys == w.rows.Keys
          && |w'.sends| + Left(cap, w'.rows) <= |w.sends| + Left(cap, w.rows)
  {
    hide Inv, PQ.Front, PQ.Popped, VerdictOn, Processed, Left, Stage, ReadyTokens, TokensIn;
    var item := PQ.Front(w.lists).value;
    var w1 := Taken(w);
    TakeKeepsInv(cfg, w);
    ProcessedLeft(cfg, w1, item, answer);
    ProcessedTokens(cfg, w1, item, answer);
    HeldItem(cfg, w1, item);
    TokensShrink(TokensIn(w), item);
    if VerdictOn(cfg, w1, item, answer).Throttle? {
      ThrottleBelow(cfg, w, item, answer);
    }
  }

  // ---- moving the clock ----

  // Now, if something is due already, and otherwise the next due second.
  function NextTime(w: World): int {
    if DueTokens(w) > 0 || (w.retry == [] && w.scheduled == []) then w.now
    else if w.retry == [] then SECOND * w.scheduled[0].score
    else if w.scheduled == [] then SECOND * w.retry[0].score
    else SECOND * Min(w.retry[0].score, w.scheduled[0].score)
  }

  function Promoted(w: World): World {
    ScheduledPromoted(RetryPromoted(w))
  }

  function Advanced(w: World): World {
    Promoted(w.(now := NextTime(w)))
  }

  // The clock only goes forward, to a second at which something is due.
  lemma NextTimeIsDue(w: World)
    requires w.retry != [] || w.scheduled != []
    ensures NextTime(w) >= w.now && DueTokens(w.(now := NextTime(w))) > 0
    ensures if DueTokens(w) > 0 then NextTime(w) == w.now else Unix(NextTime(w)) > Unix(w.now)
  {
  }

  lemma {:induction false} RestNotDue(es: seq<Entry>, now: int)
    ensures DueCount(es[DueCount(es, now)..], now) == 0
  {
    if es != [] && es[0].score <= Unix(now) {
      RestNotDue(es[1..], now);
      assert es[DueCount(es, now)..] == es[1..][DueCount(es[1..], now)..];
    }
  }

  lemma ValidTokens(cfg: Config, w: World)
    requires Inv(cfg, w)
    ensures forall x :: x in InSet(w.retry) || x in InSet(w.scheduled) ==> ValidPriority(x.priority)
  {
    hide InQueue, InSet, Sound, ViewOf, Ranked, Indexed, ValidPriority;
    assert forall x :: x in InSet(w.retry) || x in InSet(w.scheduled) ==> x in TokensIn(w);
  }

  lemma {:induction false} MultisetSize<T>(s: seq<T>)
    ensures |multiset(s)| == |s|
  {
  }

  // Promotion queues what was due, so as much is ready as before and nothing is due.
  lemma PromotedReady(lists: PQ.Lists, es: seq<Entry>, now: int)
    requires forall x :: x in InSet(es) ==> ValidPriority(x.priority)
    ensures var n := DueCount(es, now);
      |InQueue(PushedAll(lists, Items(es[..n])))| == |InQueue(lists)| + n && DueCount(es[n..], now) == 0
  {
    hide InQueue, DueCount, PushedAll, Decode;
    var items := Items(es[..DueCount(es, now)]);
    forall i | 0 <= i < |items| ensures ValidPriority(items[i].priority) {
      InSetMember(es, es[i]);
    }
    PushAllTokens(lists, items);
    MultisetSize(items);
    RestNotDue(es, now);
  }

  lemma PromotedBoth(cfg: Config, w: World)
    requires Inv(cfg, w)
    ensures var w' := Promoted(w);
      && Inv(cfg, w') && TokensIn(w') == TokensIn(w) && ReadyTokens(w') == ReadyTokens(w) && DueTokens(w') == 0
      && w' == w.(lists := w'.lists, retry := w'.retry, scheduled := w'.scheduled)
  {
    hide Inv, TokensIn, InQueue, InSet, PushedAll, DueCount;
    ValidTokens(cfg, w);
    PromoteRetryKeepsInv(cfg, w);
    var w1 := RetryPromoted(w);
    PromoteScheduledKeepsInv(cfg, w1);
    PromotedReady(w.lists, w.retry, w.now);
    PromotedReady(w1.lists, w1.scheduled, w.now);
  }

  lemma AdvancedBelow(cfg: Config, w: World)
    requires Idle(cfg, w) && PQ.Front(w.lists).None? && (w.retry != [] || w.scheduled != [])
    ensures Below(cfg, Advanced(w), w) && Idle(cfg, Advanced(w))
    ensures Advanced(w).rows == w.rows && Advanced(w).sends == w.sends
  {
    hide Inv, TokensIn, InQueue, InSet, PQ.Front, Promoted, NextTime, DueCount, Left;
    var w1 := w.(now := NextTime(w));
    NextTimeIsDue(w);
    PopTokens(w.lists);
    PassKeepsInv(cfg, w, NextTime(w) - w.now);
    PromotedBoth(cfg, w1);
    ClockKeepsTokens(w, w1);
  }

  // ---- draining ----

  lemma DrainedIsSettled(cfg: Config, w: World)
    requires Inv(cfg, w) && PQ.Front(w.lists).None? && w.retry == [] && w.scheduled == [] && w.hands == multiset{}
    ensures forall id :: id in w.rows ==> w.rows[id].status.Settled()
  {
    hide PQ.Front, InQueue, Ranked, Indexed;
    PopTokens(w.lists);
    forall id | id in w.rows ensures w.rows[id].status.Settled() {
      assert Sound(Cap(cfg.maxAttempts), ViewOf(w, id));
    }
  }

  // Moving the clock and promoting are three steps of a run.
  lemma AdvancedReached(cfg: Config, w: World)
    requires Reached(cfg, w) && (w.retry != [] || w.scheduled != [])
    ensures Reached(cfg, Advanced(w))
  {
    hide Reached, RetryPromoted, ScheduledPromoted, NextTime;
    NextTimeIsDue(w);
    var w1 := w.(now := NextTime(w));
    NextReached(cfg, w, Pass(NextTime(w) - w.now));
    NextReached(cfg, w1, PromoteRetry);
    NextReached(cfg, RetryPromoted(w1), PromoteScheduled);
  }

  method Advance(n: Notifier)
    requires n.Valid()
    modifies n`now, n.queue, n.retry, n.scheduled
    ensures n.Valid() && n.State() == Advanced(old(n.State()))
  {
    hide Ranked, Indexed, DueCount, PushedAll;
    n.now := NextTime(n.State());
    var _ := n.PromoteRetry();
    var _ := n.PromoteScheduled();
  }

  // Whatever the provider answers, this ends with nothing queued, scheduled or to
  // be retried, every notification settled, and no more sends than attempts left.
  method Drain(n: Notifier, provider: nat -> Answer)
    requires n.Valid() && Idle(n.cfg, n.State()) && n.cfg.perSec >= 1
    modifies n, n.repo, n.queue, n.retry, n.scheduled, n.limiter, n.dlq
    ensures n.Valid() && Inv(n.cfg, n.State())
    ensures old(Reached(n.cfg, n.State())) ==> Reached(n.cfg, n.State())
    ensures PQ.Front(n.queue.lists).None? && n.retry.entries == [] && n.scheduled.entries == [] && n.hands == multiset{}
    ensures n.repo.rows.Keys == old(n.repo.rows.Keys)
    ensures forall id :: id in n.repo.rows ==> n.repo.rows[id].status.Settled()
    ensures |n.sends| - |old(n.sends)| <= Left(Cap(n.cfg.maxAttempts), old(n.repo.rows))
  {
    hide Inv, Reached, Ranked, Indexed, PQ.Front, Processed, Taken, Advanced, Left, Stage, ReadyTokens, DueTokens, Work,
        Fresh, NothingAhead,
      TokensIn, InQueue, InSet;
    var took := true;
    while took || n.retry.entries != [] || n.scheduled.entries != []
      invariant n.Valid() && Idle(n.cfg, n.State())
      invariant old(Reached(n.cfg, n.State())) ==> Reached(n.cfg, n.State())
      invariant !took ==> PQ.Front(n.queue.lists).None?
      invariant |n.sends| + Left(Cap(n.cfg.maxAttempts), n.repo.rows)
             <= |old(n.sends)| + Left(Cap(n.cfg.maxAttempts), old(n.repo.rows))
      invariant n.repo.rows.Keys == old(n.repo.rows.Keys)
      decreases Work(n.cfg, n.State()), Stage(n.State()), ReadyTokens(n.State()), DueTokens(n.State()), took
    {
      ghost var w := n.State();
      var answer := provider(|n.sends|);
      took := n.Round(answer);
      WorkedKeepsIdle(n.cfg, w, answer);
      if Reached(n.cfg, w) {
        WorkedReached(n.cfg, w, answer);
      }
      if took {
        WorkedBelow(n.cfg, w, answer);
      } else if n.retry.entries != [] || n.scheduled.entries != [] {
        AdvancedBelow(n.cfg, w);
        if Reached(n.cfg, w) {
          AdvancedReached(n.cfg, w);
        }
        Advance(n);
        took := true;
      }
    }
    DrainedIsSettled(n.cfg, n.State());
  }

  // ---- where draining starts ----

  lemma NextNothingAhead(cfg: Config, w: World, step: Step)
    requires NothingAhead(w)
    ensures NothingAhead(Next(cfg, w, step))
  {
    hide Created, CancelledWorld, RetryPromoted, ScheduledPromoted, Taken, VerdictOn, Bumped, RowAfter, RetryAfter,
      EventsAfter;
    if !step.Process? {
      OnlyProcessSends(cfg, w, step);
    } else if step.item.id in w.rows {
      BumpedAhead(w.counters, w.rows[step.item.id].channel, w.now);
    }
  }

  lemma {:induction false} RunNothingAhead(cfg: Config, now: int, steps: seq<Step>)
    ensures NothingAhead(Run(cfg, Empty(now), steps))
  {
    hide Next;
    if steps != [] {
      RunNothingAhead(cfg, now, steps[..|steps| - 1]);
      NextNothingAhead(cfg, Run(cfg, Empty(now), steps[..|steps| - 1]), steps[|steps| - 1]);
    }
  }

  // The system can be drained from every world a run reaches in which no worker
  // holds an item.
  lemma ReachedIdle(cfg: Config, w: World)
    requires Reached(cfg, w) && w.hands == multiset{}
    ensures Idle(cfg, w)
  {
    hide Inv, Run, Empty, NothingAhead;
    ReachedInv(cfg, w);
    var now, steps :| w == Run(cfg, Empty(now), steps);
    RunNothingAhead(cfg, now, steps);
  }

  // ---- without a rate nothing is ever sent ----

  // Without a rate nothing that is processed is sent.
  lemma StarvedProcess(cfg: Config, w: World, item: QueueItem, answer: Answer)
    requires cfg.perSec <= 0
    ensures Processed(cfg, w, item, answer).sends == w.sends && Processed(cfg, w, item, answer).rows == w.rows
  {
    hide Bumped, RowAfter, RetryAfter, EventsAfter, MetricAfter, AfterSend;
  }

  lemma StarvedStep(cfg: Config, w: World, step: Step, id: Id)
    requires cfg.perSec <= 0
    ensures var w' := Next(cfg, w, step);
      w'.sends == w.sends &&
      (id in w.rows ==> id in w'.rows && (w'.rows[id] == w.rows[id] || w'.rows[id].status == Cancelled))
  {
    hide PQ.Purged, Kept, PushedAll, PQ.Front, DueCount, Created, Processed;
    if step.Create? {
      CreateQuiet(cfg, w, step.input, step.id);
    } else if step.Process? {
      StarvedProcess(cfg, w, step.item, step.answer);
    } else {
      OnlyProcessSends(cfg, w, step);
    }
  }

  // The rate in the precondition of Drain is needed: with none, no run sends
  // anything, and what is not cancelled stays as it is.
  lemma {:induction false} Starved(cfg: Config, w: World, steps: seq<Step>, id: Id)
    requires cfg.perSec <= 0
    ensures var w' := Run(cfg, w, steps);
      w'.sends == w.sends &&
      (id in w.rows ==> id in w'.rows && (w'.rows[id] == w.rows[id] || w'.rows[id].status == Cancelled))
  {
    hide Next;
    if steps != [] {
      var w1 := Run(cfg, w, steps[..|steps| - 1]);
      Starved(cfg, w, steps[..|steps| - 1], id);
      StarvedStep(cfg, w1, steps[|steps| - 1], id);
    }
  }
}
