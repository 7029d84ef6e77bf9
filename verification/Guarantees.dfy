// The promises of the use cases, for every run from empty stores.

module Guarantees {
  import opened Domain
  import opened DelayedSet
  import opened RateLimit
  import opened Tokens
  import opened UseCases
  import opened Lifecycle
  import PQ = PriorityQueue

  // A world that some run of use cases reaches.
  ghost predicate Reached(cfg: Config, w: World) {
    exists now, steps :: w == Run(cfg, Empty(now), steps)
  }

  lemma ReachedInv(cfg: Config, w: World)
    requires Reached(cfg, w)
    ensures Inv(cfg, w)
  {
    hide Inv, Run, Empty;
    var now, steps :| w == Run(cfg, Empty(now), steps);
    EmptyInv(cfg, now);
    RunKeepsInv(cfg, Empty(now), steps);
  }

  lemma NextReached(cfg: Config, w: World, step: Step)
    requires Reached(cfg, w)
    ensures Reached(cfg, Next(cfg, w, step))
  {
    hide Next, Empty;
    var now, steps :| w == Run(cfg, Empty(now), steps);
    assert (steps + [step])[..|steps|] == steps;
    assert Next(cfg, w, step) == Run(cfg, Empty(now), steps + [step]);
  }

  // A round of the worker loop is a run of two steps at most.
  lemma WorkedReached(cfg: Config, w: World, answer: Answer)
    requires Reached(cfg, w)
    ensures Reached(cfg, Worked(cfg, w, answer))
  {
    hide Processed, PQ.Popped, PQ.Front, Reached;
    if PQ.Front(w.lists).Some? {
      NextReached(cfg, w, Take);
      NextReached(cfg, Taken(w), Process(PQ.Front(w.lists).value, answer));
    }
  }

  // The worker loop takes the answers in turn, and each round is a step of a run.
  lemma {:induction false} RoundsInTurn(cfg: Config, w: World, a: seq<Answer>, b: seq<Answer>)
    ensures Rounds(cfg, w, a + b) == Rounds(cfg, Rounds(cfg, w, a), b)
    ensures Reached(cfg, w) ==> Reached(cfg, Rounds(cfg, w, a + b))
    decreases |a| + |b|
  {
    hide Worked, Reached;
    if b != [] {
      var last := |b| - 1;
      assert (a + b)[..|a + b| - 1] == a + b[..last];
      RoundsInTurn(cfg, w, a, b[..last]);
      if Reached(cfg, w) {
        WorkedReached(cfg, Rounds(cfg, w, a + b[..last]), b[last]);
      }
    } else if a != [] {
      assert a + b == a[..|a| - 1] + [a[|a| - 1]];
      RoundsInTurn(cfg, w, a[..|a| - 1], []);
      assert a[..|a| - 1] + [] == a[..|a| - 1];
      if Reached(cfg, w) {
        WorkedReached(cfg, Rounds(cfg, w, a[..|a| - 1]), a[|a| - 1]);
      }
    }
  }

  // Nothing is lost and nothing is doubled: a pending or queued notification has
  // exactly one token, a delivered or failed one none, a cancelled one at most
  // one, always under the priority of its row; `sending` is never seen.
  lemma NoLoss(cfg: Config, w: World, id: Id, p: Priority)
    requires Reached(cfg, w) && id in w.rows
    ensures var n := w.rows[id]; var tokens := TokensIn(w)[QueueItem(id, p)];
      && n.status != Sending
      && (p != n.priority ==> tokens == 0)
      && (p == n.priority && n.status.Cancellable() ==> tokens == 1)
      && (n.status == Delivered || n.status == Failed ==> tokens == 0)
      && tokens <= 1
  {
    hide TokensIn, Ranked, Indexed, Validates;
    ReachedInv(cfg, w);
    assert Sound(Cap(cfg.maxAttempts), ViewOf(w, id));
    assert QueueItem(id, p) in TokensIn(w) ==> w.rows[id].priority == p;
  }

  // The attempts column, the attempt records and the provider calls agree; failed
  // means dead-lettered once after the last attempt; delivered means the last
  // record is a delivery and a provider id is stored.
  lemma AuditAgreement(cfg: Config, w: World, id: Id)
    requires Reached(cfg, w) && id in w.rows
    ensures var n := w.rows[id]; var records := RecordsOf(w.attempts, id);
      && n.attempts == |records| == SendsOf(w.sends, id) <= Cap(cfg.maxAttempts)
      && (forall i :: 0 <= i < |records| ==>
            records[i].no == i + 1 && (records[i].answer.Accepted? <==> i == |records| - 1 && n.status == Delivered))
      && (n.status == Delivered <==> n.providerId.Some?)
      && (n.status == Delivered ==> records != [])
      && DeadOf(w.dead, id) == (if n.status == Failed then 1 else 0)
      && (n.status == Failed ==> |records| == Cap(cfg.maxAttempts))
  {
    hide TokensIn, Ranked, Indexed, Validates, RecordsOf, SendsOf, DeadOf;
    ReachedInv(cfg, w);
    assert Sound(Cap(cfg.maxAttempts), ViewOf(w, id));
  }

  // ---- the status column over time ----

  // Where the status column may go in one step.
  predicate Arrow(s: Status, s': Status) {
    s' == s || (s.Cancellable() && (s'.Settled() || s' == Queued))
  }

  // A row is never removed, keeps its key, and moves along an arrow; a settled
  // one is never sent again.
  predicate Moves(v: View, v': View) {
    v.row.Some? ==>
      && v'.row.Some?
      && v'.row.value.key == v.row.value.key
      && Arrow(v.row.value.status, v'.row.value.status)
      && v.sends <= v'.sends
      && (v.row.value.status.Settled() ==> v'.sends == v.sends && v'.records == v.records && v'.dead == v.dead)
  }

  lemma ProcessMoves(cfg: Config, w: World, item: QueueItem, answer: Answer, id: Id)
    requires Inv(cfg, w) && item in w.hands
    ensures Moves(ViewOf(w, id), ViewOf(Processed(cfg, w, item, answer), id))
  {
    hide Inv, TokensIn, Processed, RecordsOf, SendsOf, DeadOf, ViewOf, VerdictOn;
    HeldItem(cfg, w, item);
    HeldView(w, item);
    ProcessedViews(cfg, w, item, answer, id);
    RowKeepsPriority(w.rows[item.id], VerdictOn(cfg, w, item, answer), answer);
    HeldVerdict(cfg, w, item, answer);
  }

  // A cancelled item in hand is discarded.
  lemma HeldVerdict(cfg: Config, w: World, item: QueueItem, answer: Answer)
    requires Inv(cfg, w) && item in w.hands
    ensures item.id in w.rows
    ensures VerdictOn(cfg, w, item, answer).Discard? <==> w.rows[item.id].status == Cancelled
  {
    hide Inv;
    HeldItem(cfg, w, item);
  }

  lemma CancelMoves(cfg: Config, w: World, cancelled: Id, id: Id)
    ensures Moves(ViewOf(w, id), ViewOf(CancelledWorld(w, cancelled), id))
  {
    hide TokensIn, RecordsOf, SendsOf, DeadOf, PQ.Purged, Kept;
  }

  lemma StoredMoves(w: World, created: Id, n: Notification, id: Id)
    requires created !in w.rows
    ensures Moves(ViewOf(w, id), ViewOf(Stored(w, created, n), id))
  {
    hide TokensIn, RecordsOf, SendsOf, DeadOf, PQ.Pushed, Added, NewRow;
  }

  lemma CreateMoves(cfg: Config, w: World, input: Input, created: Id, id: Id)
    requires created !in w.rows
    ensures Moves(ViewOf(w, id), ViewOf(Created(cfg, w, input, created).0, id))
  {
    hide TokensIn, Stored, Content, Validates, ViewOf;
    if Content(cfg, input).Ok? {
      var n := Draft(input, Content(cfg, input).value);
      StoredMoves(WithLease(w, n.key, created), created, n, id);
      LeaseDoesNotMatter(w, n.key, created, id);
    }
  }

  lemma LeaseDoesNotMatter(w: World, key: Option<Key>, created: Id, id: Id)
    ensures ViewOf(WithLease(w, key, created), id) == ViewOf(w, id)
  {
    KeysDoNotMatter(w, WithLease(w, key, created));
  }

  // One step moves every row along an arrow at most.
  lemma NextMoves(cfg: Config, w: World, step: Step, id: Id)
    requires Inv(cfg, w)
    ensures Moves(ViewOf(w, id), ViewOf(Next(cfg, w, step), id))
  {
    hide Inv, ViewOf, Created, Processed, CancelledWorld, RetryPromoted, ScheduledPromoted, Taken, TokensIn;
    match step {
      case Create(input, created) =>
        if created !in w.rows {
          CreateMoves(cfg, w, input, created, id);
        }
      case Take =>
        TakeKeepsInv(cfg, w);
      case Process(item, answer) =>
        if item in w.hands {
          ProcessMoves(cfg, w, item, answer, id);
        }
      case Cancel(cancelled) => CancelMoves(cfg, w, cancelled, id);
      case PromoteRetry =>
        PromoteRetryKeepsInv(cfg, w);
      case PromoteScheduled =>
        PromoteScheduledKeepsInv(cfg, w);
      case Pass(time) => PassKeepsInv(cfg, w, time);
    }
  }

  // Whatever runs later, a row stays, keeps its key and moves along an arrow.
  lemma {:induction false} RunMoves(cfg: Config, w: World, steps: seq<Step>, id: Id)
    requires Inv(cfg, w)
    ensures Moves(ViewOf(w, id), ViewOf(Run(cfg, w, steps), id))
  {
    hide Inv, ViewOf, Next;
    if steps != [] {
      var before := steps[..|steps| - 1];
      RunMoves(cfg, w, before, id);
      RunKeepsInv(cfg, w, before);
      NextMoves(cfg, Run(cfg, w, before), steps[|steps| - 1], id);
    }
  }

  // Delivered, failed and cancelled are never left, and nothing is sent,
  // recorded or dead-lettered for such a notification any more.
  lemma SettledForever(cfg: Config, w: World, steps: seq<Step>, id: Id)
    requires Reached(cfg, w) && id in w.rows && w.rows[id].status.Settled()
    ensures var w' := Run(cfg, w, steps);
      && id in w'.rows && w'.rows[id].status == w.rows[id].status
      && SendsOf(w'.sends, id) == SendsOf(w.sends, id)
      && RecordsOf(w'.attempts, id) == RecordsOf(w.attempts, id)
      && DeadOf(w'.dead, id) == DeadOf(w.dead, id)
  {
    hide Run, Inv, TokensIn, RecordsOf, SendsOf, DeadOf;
    ReachedInv(cfg, w);
    RunMoves(cfg, w, steps, id);
  }

  // After a successful cancel no send for the id ever starts, although a token
  // may still be waiting in the retry set or in a worker's hands.
  lemma CancelStopsSends(cfg: Config, w: World, id: Id, steps: seq<Step>)
    requires Reached(cfg, w) && CancelError(w, id).None?
    ensures var w' := Run(cfg, CancelledWorld(w, id), steps);
      && id in w'.rows && w'.rows[id].status == Cancelled
      && SendsOf(w'.sends, id) == SendsOf(w.sends, id)
  {
    hide Run, Inv, TokensIn, RecordsOf, SendsOf, DeadOf, PQ.Purged, Kept;
    ReachedInv(cfg, w);
    CancelKeepsInv(cfg, w, id);
    RunMoves(cfg, CancelledWorld(w, id), steps, id);
  }

  // ---- creating with a key ----

  // An accepted create answers with the stored row under its key; anything but a
  // new row leaves every store as it was, and an error always does.
  lemma CreateAnswers(cfg: Config, w: World, input: Input, id: Id)
    requires Inv(cfg, w) && id !in w.rows
    ensures var (w', r) := Created(cfg, w, input, id);
      match r
      case Err(_) => w' == w
      case Ok((i, n)) =>
        && i in w'.rows && w'.rows[i] == n && n.key == input.key
        && (i != id ==> w' == w && input.key.Some?)
  {
    hide TokensIn, ViewOf, Sound, Ranked, TokensMatch, Validates, Content, PQ.Pushed, Added;
    if input.key.Some? && input.key.value in w.index {
    } else if Content(cfg, input).Ok? {
      var n := Draft(input, Content(cfg, input).value);
      NewRowIsNew(WithLease(w, n.key, id), n);
    }
  }

  // Once a create with a key has been accepted, every later one with that key
  // answers with the same notification and changes nothing, whatever has happened
  // since and whether or not the key's lease has expired.
  lemma CreateOncePerKey(cfg: Config, w: World, first: Input, id: Id, steps: seq<Step>, again: Input, id': Id)
    requires Reached(cfg, w) && id !in w.rows
    requires first.key.Some? && again.key == first.key
    requires Created(cfg, w, first, id).1.Ok?
    ensures var i := Created(cfg, w, first, id).1.value.0;
      var w' := Run(cfg, Created(cfg, w, first, id).0, steps);
      i in w'.rows && Created(cfg, w', again, id') == (w', Ok((i, w'.rows[i])))
  {
    ReachedInv(cfg, w);
    CreateKeepsInv(cfg, w, first, id);
    CreateAnswers(cfg, w, first, id);
    var w1, i := Created(cfg, w, first, id).0, Created(cfg, w, first, id).1.value.0;
    StaysKeyed(cfg, w1, i, steps);
    KeyFound(cfg, Run(cfg, w1, steps), i, again, id');
  }

  lemma StaysKeyed(cfg: Config, w: World, i: Id, steps: seq<Step>)
    requires Inv(cfg, w) && i in w.rows
    ensures Inv(cfg, Run(cfg, w, steps))
    ensures i in Run(cfg, w, steps).rows && Run(cfg, w, steps).rows[i].key == w.rows[i].key
  {
    hide Inv, Run, TokensIn;
    RunKeepsInv(cfg, w, steps);
    RunMoves(cfg, w, steps, i);
  }

  lemma KeyFound(cfg: Config, w: World, i: Id, input: Input, id: Id)
    requires Inv(cfg, w) && i in w.rows && input.key.Some? && w.rows[i].key == input.key
    ensures Created(cfg, w, input, id) == (w, Ok((i, w.rows[i])))
  {
    hide TokensIn, ViewOf, Sound, Ranked, TokensMatch, Validates, Content, StoredOr;
  }

  // Two rows never share a key.
  lemma KeysAreUnique(cfg: Config, w: World, id: Id, id': Id)
    requires Reached(cfg, w) && id in w.rows && id' in w.rows
    requires w.rows[id].key.Some? && w.rows[id].key == w.rows[id'].key
    ensures id == id'
  {
    hide TokensIn, ViewOf, Sound, Ranked, TokensMatch, Validates;
    ReachedInv(cfg, w);
  }

  // ---- metrics ----

  function Recorded(metrics: seq<Metric>, m: Metric): nat {
    if metrics == [] then 0
    else Recorded(metrics[..|metrics| - 1], m) + if metrics[|metrics| - 1] == m then 1 else 0
  }

  function CallsOn(sends: seq<ProviderCall>, channel: Channel, accepted: bool): nat {
    if sends == [] then 0
    else
      var last := sends[|sends| - 1];
      CallsOn(sends[..|sends| - 1], channel, accepted)
      + if last.channel == channel && last.answer.Accepted? == accepted then 1 else 0
  }

  // Deliveries are the accepted calls; the rejected ones are retried or failed.
  predicate Tallied(w: World, channel: Channel) {
    && CallsOn(w.sends, channel, true) == Recorded(w.metrics, Metric(DeliveredCount, channel))
    && CallsOn(w.sends, channel, false)
       == Recorded(w.metrics, Metric(FailedCount, channel)) + Recorded(w.metrics, Metric(RetriedCount, channel))
  }

  lemma RecordedGrows(metrics: seq<Metric>, last: Metric, m: Metric)
    ensures Recorded(metrics + [last], m) == Recorded(metrics, m) + if last == m then 1 else 0
  {
    assert (metrics + [last])[..|metrics|] == metrics;
  }

  lemma CallsGrow(sends: seq<ProviderCall>, last: ProviderCall, channel: Channel, accepted: bool)
    ensures CallsOn(sends + [last], channel, accepted) ==
            CallsOn(sends, channel, accepted) +
            if last.channel == channel && last.answer.Accepted? == accepted then 1 else 0
  {
    assert (sends + [last])[..|sends|] == sends;
  }

  lemma ProcessTallied(cfg: Config, w: World, item: QueueItem, answer: Answer, channel: Channel)
    requires Tallied(w, channel)
    ensures Tallied(Processed(cfg, w, item, answer), channel)
  {
    hide Allowed, Bumped, RowAfter, RetryAfter, EventsAfter, CallsOn, Recorded;
    if item.id in w.rows {
      var c, v := w.rows[item.id].channel, VerdictOn(cfg, w, item, answer);
      CallsGrow(w.sends, CallFor(item.id, w.rows[item.id], answer), channel, true);
      CallsGrow(w.sends, CallFor(item.id, w.rows[item.id], answer), channel, false);
      if MetricAfter(v).Some? {
        var last := Metric(MetricAfter(v).value, c);
        RecordedGrows(w.metrics, last, Metric(DeliveredCount, channel));
        RecordedGrows(w.metrics, last, Metric(FailedCount, channel));
        RecordedGrows(w.metrics, last, Metric(RetriedCount, channel));
      }
    }
  }

  // Only processing sends, counts or asks the limiter, and the clock never goes back.
  predicate Quiet(w: World, w': World) {
    w'.sends == w.sends && w'.metrics == w.metrics && w'.counters == w.counters && w'.now >= w.now
  }

  lemma StoredQuiet(w: World, id: Id, n: Notification)
    ensures var w' := Stored(w, id, n);
      && Quiet(w, w') && w'.retry == w.retry
      && (id !in w.rows ==> forall i :: i in w.rows ==> i in w'.rows && w'.rows[i] == w.rows[i])
  {
    hide PQ.Pushed, Added, NewRow;
  }

  lemma CreateQuiet(cfg: Config, w: World, input: Input, id: Id)
    ensures Quiet(w, Created(cfg, w, input, id).0)
    ensures Created(cfg, w, input, id).0.retry == w.retry
    ensures var rows' := Created(cfg, w, input, id).0.rows;
      id !in w.rows ==> (forall i :: i in w.rows ==> i in rows' && rows'[i] == w.rows[i])
  {
    hide Content, Validates, Stored;
    if Content(cfg, input).Ok? {
      var n := Draft(input, Content(cfg, input).value);
      StoredQuiet(WithLease(w, n.key, id), id, n);
    }
  }

  lemma OnlyProcessSends(cfg: Config, w: World, step: Step)
    requires !step.Process?
    ensures Quiet(w, Next(cfg, w, step))
  {
    hide PQ.Purged, Kept, PushedAll, PQ.Front, DueCount, Created;
    if step.Create? {
      CreateQuiet(cfg, w, step.input, step.id);
    }
  }

  lemma NextTallied(cfg: Config, w: World, step: Step, channel: Channel)
    requires Tallied(w, channel)
    ensures Tallied(Next(cfg, w, step), channel)
  {
    hide CallsOn, Recorded, Processed;
    if step.Process? {
      ProcessTallied(cfg, w, step.item, step.answer, channel);
    } else {
      OnlyProcessSends(cfg, w, step);
    }
  }

  // Per channel the accepted calls are the delivered counter and the rejected
  // ones the failed and retried counters.
  lemma {:induction false} MetricsTally(cfg: Config, now: int, steps: seq<Step>, channel: Channel)
    ensures Tallied(Run(cfg, Empty(now), steps), channel)
  {
    hide Next;
    if steps != [] {
      MetricsTally(cfg, now, steps[..|steps| - 1], channel);
      NextTallied(cfg, Run(cfg, Empty(now), steps[..|steps| - 1]), steps[|steps| - 1], channel);
    }
  }
}
