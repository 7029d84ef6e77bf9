// When things may happen: nothing is sent before its scheduled second, and an
// item that was put off stays out of reach until the second it was put off to.

module Timing {
  import opened Domain
  import opened DelayedSet
  import opened RateLimit
  import opened Tokens
  import opened UseCases
  import opened Lifecycle
  import opened Guarantees
  import PQ = PriorityQueue

  lemma EncodeInjective(a: QueueItem, b: QueueItem)
    requires ValidPriority(a.priority) && ValidPriority(b.priority) && Encode(a) == Encode(b)
    ensures a == b
  {
    ValidPrioritySurvives(a);
    ValidPrioritySurvives(b);
  }

  // An entry of a delayed set that is not due stays when the due ones leave.
  lemma NotDueStays(es: seq<Entry>, now: int, e: Entry)
    requires Ranked(es) && e in es && e.score > Unix(now)
    ensures e in es[DueCount(es, now)..]
  {
    DueIsPrefix(es, now);
    var i :| 0 <= i < |es| && es[i] == e;
    assert es[DueCount(es, now)..][i - DueCount(es, now)] == e;
  }

  lemma ListedIsToken(es: seq<Entry>, item: QueueItem, score: int)
    requires ValidPriority(item.priority) && Entry(score, Encode(item)) in es
    ensures InSet(es)[item] >= 1
  {
    ValidPrioritySurvives(item);
    InSetMember(es, Entry(score, Encode(item)));
  }

  // A token that waits in a delayed set is nowhere else.
  lemma OnlyToken(cfg: Config, w: World, item: QueueItem, score: int, x: QueueItem)
    requires Inv(cfg, w) && ValidPriority(item.priority) && x.id == item.id
    requires Entry(score, Encode(item)) in w.retry || Entry(score, Encode(item)) in w.scheduled
    ensures x !in w.hands && x !in InQueue(w.lists)
  {
    hide InQueue, InSet, Ranked, Indexed, Validates;
    if Entry(score, Encode(item)) in w.retry {
      ListedIsToken(w.retry, item, score);
    } else {
      ListedIsToken(w.scheduled, item, score);
    }
    assert item in TokensIn(w);
    assert Sound(Cap(cfg.maxAttempts), ViewOf(w, item.id));
    assert QueueItem(item.id, w.rows[item.id].priority) == item;
    assert TokensIn(w)[item] <= 1;
    assert x in TokensIn(w) ==> x == item;
  }

  // ---- items put off by the worker ----

  // When the worker puts the item back, if it does.
  function PutOffTo(cfg: Config, w: World, v: Verdict): Option<int> {
    match v
    case Throttle => Some(w.now + SECOND)
    case TryLater => Some(w.now + cfg.retryInterval)
    case _ => None
  }

  lemma ProcessLeavesOthers(cfg: Config, w: World, held: QueueItem, answer: Answer, item: QueueItem, score: int)
    requires Inv(cfg, w) && held in w.hands
    requires ValidPriority(item.priority) && Entry(score, Encode(item)) in w.retry
    ensures Entry(score, Encode(item)) in Processed(cfg, w, held, answer).retry
  {
    hide InSet, InQueue, Ranked, Indexed, Sound, TokensMatch, VerdictOn, Added, TokensIn, ViewOf, Bumped, RowAfter;
    HeldItem(cfg, w, held);
    OnlyToken(cfg, w, item, score, item);
    if Encode(held) == Encode(item) {
      EncodeInjective(held, item);
    }
    AddKeepsRanked(w.retry, held, w.now + SECOND);
    AddKeepsRanked(w.retry, held, w.now + cfg.retryInterval);
  }

  lemma RetryUntouched(cfg: Config, w: World, step: Step)
    requires !step.Process? && !step.PromoteRetry?
    ensures Next(cfg, w, step).retry == w.retry && Next(cfg, w, step).now >= w.now
  {
    hide PQ.Purged, Kept, PushedAll, PQ.Front, DueCount, Created;
    if step.Create? {
      CreateQuiet(cfg, w, step.input, step.id);
    }
  }

  lemma PutOffStays(cfg: Config, w: World, step: Step, item: QueueItem, score: int)
    requires Inv(cfg, w) && ValidPriority(item.priority) && Entry(score, Encode(item)) in w.retry
    requires Unix(w.now) < score
    ensures Entry(score, Encode(item)) in Next(cfg, w, step).retry
  {
    hide TokensIn, Ranked, Indexed, Sound, TokensMatch, Processed, Created, CancelledWorld, ScheduledPromoted, Taken,
      PushedAll, DueCount;
    match step {
      case Process(held, answer) =>
        if held in w.hands {
          ProcessLeavesOthers(cfg, w, held, answer, item, score);
        }
      case PromoteRetry => NotDueStays(w.retry, w.now, Entry(score, Encode(item)));
      case _ => RetryUntouched(cfg, w, step);
    }
  }

  lemma ClockForward(cfg: Config, w: World, step: Step)
    ensures Next(cfg, w, step).now >= w.now
  {
    hide Created, CancelledWorld, ScheduledPromoted, Taken;
    if step.Process? || step.PromoteRetry? {
      hide VerdictOn, Bumped, RowAfter, RetryAfter, EventsAfter, PushedAll, DueCount;
    } else {
      RetryUntouched(cfg, w, step);
    }
  }

  lemma {:induction false} PutOffRun(cfg: Config, w: World, steps: seq<Step>, item: QueueItem, score: int)
    requires Inv(cfg, w) && ValidPriority(item.priority) && Entry(score, Encode(item)) in w.retry
    requires Unix(Run(cfg, w, steps).now) < score
    ensures Entry(score, Encode(item)) in Run(cfg, w, steps).retry
  {
    hide Inv, Next, Encode, ValidPriority;
    if steps != [] {
      var w' := Run(cfg, w, steps[..|steps| - 1]);
      ClockForward(cfg, w', steps[|steps| - 1]);
      PutOffRun(cfg, w, steps[..|steps| - 1], item, score);
      RunKeepsInv(cfg, w, steps[..|steps| - 1]);
      PutOffStays(cfg, w', steps[|steps| - 1], item, score);
    }
  }

  // A throttled item, or one to be retried, cannot be dequeued again for its
  // notification before the second it was put off to; for a throttled one that
  // is a strictly later rate window.
  lemma PutOffWaits(cfg: Config, w: World, item: QueueItem, answer: Answer, at: int, steps: seq<Step>, x: QueueItem)
    requires Reached(cfg, w) && item in w.hands && x.id == item.id
    requires PutOffTo(cfg, w, VerdictOn(cfg, w, item, answer)) == Some(at)
    ensures var w' := Run(cfg, Processed(cfg, w, item, answer), steps);
      x in w'.hands || x in InQueue(w'.lists) ==> Unix(at) <= Unix(w'.now)
    ensures VerdictOn(cfg, w, item, answer).Throttle? ==> Unix(w.now) < Unix(at)
  {
    hide Inv, Run, InQueue, Bumped, RowAfter, Encode, ValidPriority, VerdictOn;
    ReachedInv(cfg, w);
    HeldItem(cfg, w, item);
    ProcessKeepsInv(cfg, w, item, answer);
    InvRanked(cfg, w);
    AddKeepsRanked(w.retry, item, at);
    var w1 := Processed(cfg, w, item, answer);
    var w' := Run(cfg, w1, steps);
    RunKeepsInv(cfg, w1, steps);
    if Unix(w'.now) < Unix(at) {
      PutOffRun(cfg, w1, steps, item, Unix(at));
      OnlyToken(cfg, w', item, Unix(at), x);
    }
  }

  // ---- scheduled notifications ----

  predicate Early(w: World, id: Id, at: int) {
    id in w.rows && w.rows[id].scheduledAt == Some(at) && Unix(w.now) < Unix(at)
  }

  // Never sent, and either cancelled and without a token or listed under its
  // scheduled second.
  predicate Waiting(w: World, id: Id, at: int)
    requires id in w.rows
  {
    && SendsOf(w.sends, id) == 0
    && (if w.rows[id].status == Cancelled then TokensFor(w, id) == 0
        else Entry(Unix(at), Encode(QueueItem(id, w.rows[id].priority))) in w.scheduled)
  }

  function TokensFor(w: World, id: Id): nat
    requires id in w.rows
  {
    TokensIn(w)[QueueItem(id, w.rows[id].priority)]
  }

  // No token of an id under any priority.
  lemma NoneAnywhere(cfg: Config, w: World, id: Id, x: QueueItem)
    requires Inv(cfg, w) && id in w.rows && TokensFor(w, id) == 0 && x.id == id
    ensures x !in w.hands && x !in InQueue(w.lists)
  {
    hide InQueue, InSet, Ranked, Indexed, Sound, ViewOf;
    assert x !in TokensIn(w);
  }

  // A cancel before the scheduled second takes the only token away.
  lemma CancelTakesToken(cfg: Config, w: World, id: Id, score: int)
    requires Inv(cfg, w) && CancelError(w, id).None?
    requires Entry(score, Encode(QueueItem(id, w.rows[id].priority))) in w.scheduled
    ensures TokensFor(CancelledWorld(w, id), id) == 0
  {
    hide InQueue, InSet, Ranked, Indexed, Encode, PQ.Purged, Kept, ValidPriority;
    var x := QueueItem(id, w.rows[id].priority);
    RowPriorityValid(cfg, w, id);
    ListedIsToken(w.scheduled, x, score);
    CancelledTokens(w, id, x);
    assert Sound(Cap(cfg.maxAttempts), ViewOf(w, id));
  }

  // Processing an item leaves the tokens of other notifications alone.
  lemma OthersTokens(cfg: Config, w: World, held: QueueItem, answer: Answer, id: Id)
    requires Inv(cfg, w) && held in w.hands && id in w.rows && id != held.id
    ensures id in Processed(cfg, w, held, answer).rows
    ensures TokensFor(Processed(cfg, w, held, answer), id) == TokensFor(w, id)
  {
    hide InSet, InQueue, Ranked, Indexed, Sound, RecordsOf, SendsOf, DeadOf, TokensIn, Inv;
    ProcessedViews(cfg, w, held, answer, id);
  }

  lemma ProcessWaiting(cfg: Config, w: World, held: QueueItem, answer: Answer, id: Id, at: int)
    requires Inv(cfg, w) && held in w.hands
    requires Early(w, id, at) ==> Waiting(w, id, at)
    requires Early(Processed(cfg, w, held, answer), id, at)
    ensures Waiting(Processed(cfg, w, held, answer), id, at)
  {
    hide InSet, InQueue, TokensIn, ViewOf, Sound, Ranked, Indexed, TokensMatch, Inv, Bumped, Allowed, RetryAfter,
      Encode, ValidPriority, EventsAfter, TokensFor;
    HeldItem(cfg, w, held);
    if held.id != id {
      OthersTokens(cfg, w, held, answer, id);
    } else if Early(w, id, at) {
      if w.rows[id].status == Cancelled {
        NoneAnywhere(cfg, w, id, held);
      } else {
        OnlyToken(cfg, w, held, Unix(at), held);
      }
    }
    SendsGrow(w.sends, CallFor(held.id, w.rows[held.id], answer), id);
  }

  lemma AddedKeepsOther(es: seq<Entry>, item: QueueItem, at: int, other: QueueItem, score: int)
    requires Ranked(es) && ValidPriority(item.priority) && ValidPriority(other.priority)
    requires item != other && Entry(score, Encode(other)) in es
    ensures Entry(score, Encode(other)) in Added(es, item, at)
  {
    AddKeepsRanked(es, item, at);
    if Encode(item) == Encode(other) {
      EncodeInjective(item, other);
    }
  }

  lemma StoredWaiting(cfg: Config, w: World, created: Id, n: Notification, id: Id, at: int)
    requires Inv(cfg, w) && created !in w.rows && ValidPriority(n.priority) && n.status == Pending
    requires Early(w, id, at) ==> Waiting(w, id, at)
    requires Early(Stored(w, created, n), id, at)
    ensures Waiting(Stored(w, created, n), id, at)
  {
    hide InSet, InQueue, TokensIn, Ranked, Indexed, TokensMatch, RecordsOf, DeadOf, PQ.Pushed, Added, Encode,
      ValidPriority;
    InvRanked(cfg, w);
    assert Sound(Cap(cfg.maxAttempts), ViewOf(w, id));
    var item := QueueItem(created, n.priority);
    StoredTokens(w, created, n);
    if id == created {
      AddKeepsRanked(w.scheduled, item, at);
    } else if w.rows[id].status != Cancelled && Deferred(w, n) {
      assert Validates(w.rows[id]);
      AddedKeepsOther(w.scheduled, item, n.scheduledAt.value, QueueItem(id, w.rows[id].priority), Unix(at));
    }
  }

  // The lease matters to nothing here.
  lemma LeaseWaiting(w: World, n: Notification, created: Id, id: Id, at: int)
    ensures var (a, b) := (Stored(WithLease(w, n.key, created), created, n), Stored(w, created, n));
      Early(a, id, at) == Early(b, id, at) && (Early(a, id, at) ==> Waiting(a, id, at) == Waiting(b, id, at))
  {
    hide PQ.Pushed, Added, Encode, InQueue, InSet;
  }

  lemma CreateWaiting(cfg: Config, w: World, input: Input, created: Id, id: Id, at: int)
    requires Inv(cfg, w) && created !in w.rows
    requires Early(w, id, at) ==> Waiting(w, id, at)
    requires Early(Created(cfg, w, input, created).0, id, at)
    ensures Waiting(Created(cfg, w, input, created).0, id, at)
  {
    hide Inv, Stored, Content, Validates, ValidPriority, Ranked, Encode, Waiting, Early, WithLease;
    CreateAnswers(cfg, w, input, created);
    if Content(cfg, input).Ok? {
      var n := Draft(input, Content(cfg, input).value);
      if Validates(n) {
        LeaseWaiting(w, n, created, id, at);
        DraftIsValid(n);
        if Early(Stored(w, created, n), id, at) {
          StoredWaiting(cfg, w, created, n, id, at);
        }
      }
    }
  }

  lemma DraftIsValid(n: Notification)
    requires Validates(n)
    ensures ValidPriority(n.priority)
  {
  }

  lemma CancelWaiting(cfg: Config, w: World, cancelled: Id, id: Id, at: int)
    requires Inv(cfg, w)
    requires Early(w, id, at) ==> Waiting(w, id, at)
    requires Early(CancelledWorld(w, cancelled), id, at)
    ensures Waiting(CancelledWorld(w, cancelled), id, at)
  {
    hide Inv, ValidPriority, Ranked, Encode, PQ.Purged, Decode;
    InvRanked(cfg, w);
    KeptIs(w.scheduled, cancelled);
    RowPriorityValid(cfg, w, id);
    ValidPrioritySurvives(QueueItem(id, w.rows[id].priority));
    hide TokensIn, Kept;
    if CancelError(w, cancelled).None? {
      if cancelled == id {
        CancelTakesToken(cfg, w, id, Unix(at));
      } else {
        CancelledTokens(w, cancelled, QueueItem(id, w.rows[id].priority));
      }
    }
  }

  lemma RowPriorityValid(cfg: Config, w: World, id: Id)
    requires Inv(cfg, w) && id in w.rows
    ensures ValidPriority(w.rows[id].priority)
  {
    hide TokensIn, ViewOf, Sound, Ranked, Indexed, TokensMatch, ValidPriority;
  }

  lemma NextWaiting(cfg: Config, w: World, step: Step, id: Id, at: int)
    requires Inv(cfg, w)
    requires Early(w, id, at) ==> Waiting(w, id, at)
    requires Early(Next(cfg, w, step), id, at)
    ensures Waiting(Next(cfg, w, step), id, at)
  {
    hide Inv, Created, Processed, CancelledWorld, PushedAll, DueCount, Ranked, Encode, TokensIn, Taken;
    match step {
      case Create(input, created) =>
        if created !in w.rows {
          CreateWaiting(cfg, w, input, created, id, at);
        }
      case Process(held, answer) =>
        if held in w.hands {
          ProcessWaiting(cfg, w, held, answer, id, at);
        }
      case Cancel(cancelled) => CancelWaiting(cfg, w, cancelled, id, at);
      case Take => TakeWaiting(cfg, w);
      case PromoteRetry => PromoteRetryKeepsInv(cfg, w);
      case Pass(time) => ClockKeepsTokens(w, w.(now := w.now + time));
      case PromoteScheduled =>
        InvRanked(cfg, w);
        PromoteScheduledKeepsInv(cfg, w);
        if w.rows[id].status != Cancelled {
          NotDueStays(w.scheduled, w.now, Entry(Unix(at), Encode(QueueItem(id, w.rows[id].priority))));
        }
    }
  }

  lemma TakeWaiting(cfg: Config, w: World)
    requires Inv(cfg, w)
    ensures var w' := Taken(w);
      && w'.rows == w.rows && w'.scheduled == w.scheduled && w'.sends == w.sends && w'.now == w.now
      && TokensIn(w') == TokensIn(w)
  {
    hide Inv, TokensIn, PQ.Front, PQ.Popped;
    TakeKeepsInv(cfg, w);
  }

  lemma {:induction false} RunWaiting(cfg: Config, now: int, steps: seq<Step>, id: Id, at: int)
    requires Early(Run(cfg, Empty(now), steps), id, at)
    ensures Waiting(Run(cfg, Empty(now), steps), id, at)
  {
    hide Next, Inv, Waiting;
    if steps != [] {
      var before := steps[..|steps| - 1];
      var w := Run(cfg, Empty(now), before);
      if Early(w, id, at) {
        RunWaiting(cfg, now, before, id, at);
      }
      EmptyInv(cfg, now);
      RunKeepsInv(cfg, Empty(now), before);
      NextWaiting(cfg, w, steps[|steps| - 1], id, at);
    }
  }

  // No run sends a notification before its scheduled second, nor lets it be dequeued.
  lemma NeverEarly(cfg: Config, w: World, id: Id, at: int, x: QueueItem)
    requires Reached(cfg, w) && id in w.rows && w.rows[id].scheduledAt == Some(at) && x.id == id
    ensures SendsOf(w.sends, id) > 0 ==> Unix(at) <= Unix(w.now)
    ensures x in w.hands || x in InQueue(w.lists) ==> Unix(at) <= Unix(w.now)
  {
    hide Inv, Run, Empty, InQueue, SendsOf, Encode;
    ReachedInv(cfg, w);
    var now, steps :| w == Run(cfg, Empty(now), steps);
    if Unix(w.now) < Unix(at) {
      RunWaiting(cfg, now, steps, id, at);
      RowPriorityValid(cfg, w, id);
      if w.rows[id].status == Cancelled {
        NoneAnywhere(cfg, w, id, x);
      } else {
        OnlyToken(cfg, w, QueueItem(id, w.rows[id].priority), Unix(at), x);
      }
    }
  }
}
