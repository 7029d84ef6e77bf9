// The use cases as methods on the stores, one store command after the other as
// in internal/usecase, and the worker loop. No command fails here. Each method
// is proved to do what its function in UseCases says.

module Services {
  import opened Domain
  import opened DelayedSet
  import opened RateLimit
  import opened UseCases
  import opened Lifecycle
  import opened Stores
  import PQ = PriorityQueue
  import T = Template

  class Notifier {
    const cfg: Config
    const repo: NotificationRepo
    const idem: IdempotencyStore
    const queue: PQ.Queue
    const retry: ZSet
    const scheduled: ZSet
    const limiter: Limiter
    const dlq: DeadLetters
    var now: int
    var hands: multiset<QueueItem>
    var attempts: seq<Attempt>
    var events: seq<StatusEvent>
    var sends: seq<ProviderCall>
    var metrics: seq<Metric>

    // The stores as one value.
    function State(): World
      reads this, repo, idem, queue, retry, scheduled, limiter, dlq
    {
      World(now, repo.rows, repo.index, idem.keys, queue.lists, retry.entries, scheduled.entries, hands,
            limiter.counters, dlq.list, attempts, events, sends, metrics)
    }

    ghost predicate Valid()
      reads this, repo, idem, queue, retry, scheduled, limiter, dlq
    {
      Wired() && repo.Valid() && retry.Valid() && scheduled.Valid()
    }

    // The two delayed sets are different keys, and the stores have the configured limits.
    predicate Wired() {
      retry != scheduled && limiter.perSec == cfg.perSec && idem.ttl == IDEM_TTL
    }

    constructor (cfg: Config, now: int)
      ensures Valid() && this.cfg == cfg && State() == Empty(now) && Inv(cfg, State())
      ensures fresh(repo) && fresh(idem) && fresh(queue) && fresh(retry) && fresh(scheduled) && fresh(limiter)
      ensures fresh(dlq)
    {
      this.cfg := cfg;
      repo := new NotificationRepo();
      idem := new IdempotencyStore(IDEM_TTL);
      queue := new PQ.Queue();
      retry := new ZSet();
      scheduled := new ZSet();
      limiter := new Limiter(cfg.perSec);
      dlq := new DeadLetters();
      this.now := now;
      hands, attempts, events, sends, metrics := multiset{}, [], [], [], [];
      new;
      EmptyInv(cfg, now);
    }

    // ---- processing (internal/usecase/process_notification.go) ----

    method Publish(n: Notification, id: Id, s: Status)
      modifies this`events
      ensures events == old(events) + [StatusEvent(id, n.batch, s)]
    {
      events := events + [StatusEvent(id, n.batch, s)];
    }

    // The provider answers as it likes.
    method Send(n: Notification, id: Id, answer: Answer)
      modifies this`sends
      ensures sends == old(sends) + [ProviderCall(id, n.channel, n.recipient, n.content, answer)]
    {
      sends := sends + [ProviderCall(id, n.channel, n.recipient, n.content, answer)];
    }

    // The worker takes the item out of its hands when this returns.
    method Execute(item: QueueItem, answer: Answer) returns (r: Outcome<()>)
      requires Valid()
      modifies this`events, this`metrics, this`sends, this`attempts, repo, retry, limiter, dlq
      ensures Valid()
      ensures State() == Processed(cfg, old(State()), item, answer).(hands := hands)
      ensures r == if item.id !in old(repo.rows) then Err(NotFound)
                   else if VerdictOn(cfg, old(State()), item, answer).Throttle? then Err(RateLimited) else Ok(())
    {
      hide Ranked, Indexed, Processed, Allowed, AfterSend;
      DiscardedIs(cfg, State(), item, answer);
      var got := repo.Get(item.id);
      if got.Err? {
        return Err(got.error);
      }
      if got.value.status == Cancelled || got.value.status == Delivered {
        return Ok(());
      }
      r := Dispatch(got.value, item, answer);
    }

    // Throttles or sends.
    method Dispatch(n: Notification, item: QueueItem, answer: Answer) returns (r: Outcome<()>)
      requires Valid() && item.id in repo.rows && repo.rows[item.id] == n
      requires n.status != Cancelled && n.status != Delivered
      modifies this`events, this`metrics, this`sends, this`attempts, repo, retry, limiter, dlq
      ensures Valid()
      ensures State() == Processed(cfg, old(State()), item, answer).(hands := hands)
      ensures r == if Allowed(old(limiter.counters), cfg.perSec, n.channel, now) then Ok(()) else Err(RateLimited)
    {
      hide Ranked, Indexed, Added, Bumped, Allowed, RowAfter, EventsAfter, AfterSend, MetricAfter, Processed;
      var allowed := limiter.Allow(n.channel, now, true);
      if !allowed {
        retry.Add(item, now + SECOND);
        metrics := metrics + [Metric(RateLimitedCount, n.channel)];
        ThrottledIs(cfg, old(State()), item, answer);
        return Err(RateLimited);
      }
      AttemptedIs(cfg, old(State()), item, answer);
      Attempt(n, item, answer);
      return Ok(());
    }

    // The rest of processing, once a rate token was had.
    method Attempt(n: Notification, item: QueueItem, answer: Answer)
      requires repo.Valid() && retry.Valid() && item.id in repo.rows && repo.rows[item.id] == n
      modifies this`events, this`metrics, this`sends, this`attempts, repo, retry, dlq
      ensures repo.Valid() && retry.Valid() && repo.index == old(repo.index)
      ensures var v := AfterSend(cfg, n, answer);
        && repo.rows == old(repo.rows)[item.id := RowAfter(n, v, answer)]
        && retry.entries == (if v.TryLater? then Added(old(retry.entries), item, now + cfg.retryInterval)
                             else old(retry.entries))
        && dlq.list == (if v.GiveUp? && answer.Rejected? then [DeadLetter(item.id, answer.reason)] + old(dlq.list)
                        else old(dlq.list))
        && attempts == old(attempts) + [UseCases.Attempt(item.id, n.attempts + 1, answer)]
        && sends == old(sends) + [CallFor(item.id, n, answer)]
        && events == old(events) + EventsAfter(item.id, n, v)
        && metrics == old(metrics) + [Metric(MetricAfter(v).value, n.channel)]
    {
      hide Indexed, Ranked, Added;
      repo.UpdateStatus(item.id, Sending, n.lastError, n.providerId, n.attempts);
      Publish(n, item.id, Sending);
      var attemptNo := n.attempts + 1;
      Send(n, item.id, answer);
      attempts := attempts + [UseCases.Attempt(item.id, attemptNo, answer)];
      match answer {
        case Rejected(reason) =>
          HandleFailure(n, item, attemptNo, reason);
        case Accepted(messageId) =>
          repo.UpdateStatus(item.id, Delivered, None, Some(messageId), attemptNo);
          Publish(n, item.id, Delivered);
          metrics := metrics + [Metric(DeliveredCount, n.channel)];
      }
    }

    method HandleFailure(n: Notification, item: QueueItem, attemptNo: nat, reason: string)
      requires repo.Valid() && retry.Valid()
      modifies this`events, this`metrics, repo, retry, dlq
      ensures repo.Valid() && retry.Valid() && repo.index == old(repo.index)
      ensures var last := attemptNo >= cfg.maxAttempts;
        && repo.rows == UpdatedRows(old(repo.rows), item.id, if last then Failed else Queued, Some(reason), None,
            attemptNo)
        && dlq.list == (if last then [DeadLetter(item.id, reason)] + old(dlq.list) else old(dlq.list))
        && retry.entries == (if last then old(retry.entries)
                             else Added(old(retry.entries), item, now + cfg.retryInterval))
        && events == (if last then old(events) + [StatusEvent(item.id, n.batch, Failed)] else old(events))
        && metrics == old(metrics) + [Metric(if last then FailedCount else RetriedCount, n.channel)]
    {
      if attemptNo >= cfg.maxAttempts {
        dlq.Push(item.id, reason);
        repo.UpdateStatus(item.id, Failed, Some(reason), None, attemptNo);
        Publish(n, item.id, Failed);
        metrics := metrics + [Metric(FailedCount, n.channel)];
        return;
      }
      repo.UpdateStatus(item.id, Queued, Some(reason), None, attemptNo);
      metrics := metrics + [Metric(RetriedCount, n.channel)];
      retry.Add(item, now + cfg.retryInterval);
    }

    // ---- creating (internal/usecase/create_notification.go) ----

    method Create(input: Input, id: Id) returns (r: Outcome<(Id, Notification)>)
      requires Valid()
      modifies repo, idem, queue, scheduled
      ensures Valid()
      ensures (State(), r) == Created(cfg, old(State()), input, id)
    {
      hide Ranked, Content, Stored, Validates;
      if input.key.Some? {
        var found := repo.GetByIdempotencyKey(input.key.value);
        if found.Ok? {
          return found;
        }
      }
      var content := Text(input);
      if content.Err? {
        return Err(content.error);
      }
      var n := Draft(input, content.value);
      if !Validates(n) {
        return Err(Invalid);
      }
      if n.key.Some? {
        var claim := idem.Remember(n.key.value, id, now, now);
        if claim.Ok? && claim.value.Some? {
          var existing := repo.Get(claim.value.value);
          return if existing.Ok? then Ok((claim.value.value, existing.value)) else Err(existing.error);
        }
      }
      r := Store(n, id);
    }

    method Text(input: Input) returns (r: Outcome<string>)
      ensures r == Content(cfg, input)
    {
      if input.template.None? {
        return Ok(input.content);
      }
      if input.template.value !in cfg.templates {
        return Err(NotFound);
      }
      var rendered := T.RenderBody(cfg.templates[input.template.value], input.variables);
      return match rendered case Missing(_) => Err(Invalid) case Text(out) => Ok(out);
    }

    // Inserts the row, then schedules or enqueues its item and marks it queued.
    method Store(n: Notification, id: Id) returns (r: Outcome<(Id, Notification)>)
      requires Valid() && n.attempts == 0 && n.lastError.None?
      modifies repo, queue, scheduled
      ensures Valid()
      ensures (State(), r) == StoredOr(old(State()), id, n)
    {
      hide Ranked, Indexed, PQ.Pushed, Added;
      var inserted := repo.Create(id, n);
      if inserted.Err? {
        return Err(inserted.error);
      }
      var item := QueueItem(id, n.priority);
      if n.scheduledAt.Some? && now < n.scheduledAt.value {
        scheduled.Add(item, n.scheduledAt.value);
        return Ok((id, n));
      }
      queue.Enqueue(item);
      repo.UpdateStatus(id, Queued, None, None, 0);
      assert n.(status := Queued) == WithStatus(n, Queued, None, None, 0);
      assert repo.rows == old(repo.rows)[id := n.(status := Queued)];
      return Ok((id, n.(status := Queued)));
    }

    // ---- cancelling (internal/usecase/cancel_notification.go) ----

    method Cancel(id: Id) returns (r: Outcome<()>)
      requires Valid()
      modifies repo, queue, scheduled
      ensures Valid() && State() == CancelledWorld(old(State()), id)
      ensures r == Err(NotFound) <==> id !in old(repo.rows)
      ensures r == Err(NotCancellable) <==>
              id in old(repo.rows) && old(repo.rows)[id].status != Pending && old(repo.rows)[id].status != Queued
      ensures r.Err? ==> r.error == NotFound || r.error == NotCancellable
    {
      hide Ranked, Indexed, PQ.Purged, Kept;
      var got := repo.Get(id);
      if got.Err? {
        return Err(got.error);
      }
      if !got.value.status.Cancellable() {
        return Err(NotCancellable);
      }
      queue.Remove(id);
      scheduled.RemoveByID(id);
      repo.UpdateStatus(id, Cancelled, None, None, got.value.attempts);
      return Ok(());
    }

    // ---- the worker loop and the promoters (internal/worker/loop.go, internal/scheduler) ----

    method Take() returns (item: Option<QueueItem>)
      requires Valid()
      modifies this`hands, queue
      ensures Valid() && State() == Taken(old(State())) && item == PQ.Front(old(queue.lists))
      ensures item.Some? ==> item.value in hands
    {
      hide PQ.Front, PQ.Popped;
      item := queue.Dequeue();
      if item.Some? {
        hands := hands + multiset{item.value};
      }
      FrontlessStays(old(State()));
    }

    // The loop drops what processing answers.
    method Round(answer: Answer) returns (took: bool)
      requires Valid()
      modifies this, repo, queue, retry, limiter, dlq
      ensures Valid() && State() == Worked(cfg, old(State()), answer)
      ensures took <==> PQ.Front(old(queue.lists)).Some?
    {
      hide Ranked, Indexed, PQ.Front, PQ.Popped, Processed;
      var item := Take();
      if item.Some? {
        ProcessedHands(cfg, State(), item.value, answer);
        var _ := Execute(item.value, answer);
        hands := hands - multiset{item.value};
      }
      took := item.Some?;
    }

    method Work(answers: seq<Answer>)
      requires Valid()
      modifies this, repo, queue, retry, limiter, dlq
      ensures Valid() && State() == Rounds(cfg, old(State()), answers)
    {
      hide Ranked, Indexed, Worked, Rounds;
      RoundsStep(cfg, State(), answers);
      for i := 0 to |answers|
        invariant Valid() && State() == Rounds(cfg, old(State()), answers[..i])
      {
        var _ := Round(answers[i]);
      }
      assert answers[..|answers|] == answers;
    }

    // Takes the clock forward.
    method Pass(time: nat)
      requires Valid()
      modifies this`now
      ensures Valid() && State() == old(State()).(now := old(now) + time)
    {
      now := now + time;
    }

    method PromoteRetry() returns (count: nat)
      requires Valid()
      modifies queue, retry
      ensures Valid() && State() == RetryPromoted(old(State())) && count == DueCount(old(retry.entries), now)
    {
      hide Ranked, Indexed, PushedAll, DueCount;
      count := retry.DuePromote(now, queue);
    }

    method PromoteScheduled() returns (count: nat)
      requires Valid()
      modifies queue, scheduled
      ensures Valid() && State() == ScheduledPromoted(old(State())) && count == DueCount(old(scheduled.entries), now)
    {
      hide Ranked, Indexed, PushedAll, DueCount;
      count := scheduled.DuePromote(now, queue);
    }
  }

  // One answer more is one round more.
  lemma RoundsStep(cfg: Config, w: World, answers: seq<Answer>)
    ensures Rounds(cfg, w, answers[..0]) == w
    ensures forall i :: 0 <= i < |answers| ==>
              Rounds(cfg, w, answers[..i + 1]) == Worked(cfg, Rounds(cfg, w, answers[..i]), answers[i])
  {
    hide Worked;
    forall i | 0 <= i < |answers| ensures answers[..i + 1][..i] == answers[..i] {
    }
  }

  lemma ProcessedHands(cfg: Config, w: World, item: QueueItem, answer: Answer)
    ensures Processed(cfg, w, item, answer).hands == w.hands - multiset{item}
  {
  }

  // Nothing is popped when nothing can be served.
  lemma FrontlessStays(w: World)
    ensures PQ.Front(w.lists).None? ==> PQ.Popped(w.lists) == w.lists
  {
  }
}
