// The use cases as functions on the stores: each of create, dequeue, process,
// cancel and promote is one step, and no store call fails. Between dequeue and
// process a worker holds an item in its hands.

module UseCases {
  import opened Domain
  import opened DelayedSet
  import opened RateLimit
  import opened Tokens
  import PQ = PriorityQueue
  import T = Template

  datatype Notification = Notification(
    channel: Channel, recipient: string, content: string, template: Option<Id>, priority: Priority,
    status: Status, key: Option<Key>, scheduledAt: Option<int>, batch: Option<Id>,
    attempts: nat, lastError: Option<string>, providerId: Option<string>)

  datatype Input = Input(
    channel: Channel, recipient: string, content: string, template: Option<Id>, variables: map<string, string>,
    priority: Priority, key: Option<Key>, scheduledAt: Option<int>, batch: Option<Id>)

  datatype Error = Invalid | NotFound | NotCancellable | Duplicate | RateLimited

  datatype Outcome<+R> = Ok(value: R) | Err(error: Error)

  datatype Answer = Accepted(messageId: string) | Rejected(reason: string)

  datatype Lease = Lease(id: Id, expires: int)
  datatype DeadLetter = DeadLetter(id: Id, reason: string)
  datatype Attempt = Attempt(id: Id, no: nat, answer: Answer)
  datatype StatusEvent = StatusEvent(id: Id, batch: Option<Id>, status: Status)
  datatype ProviderCall = ProviderCall(
    id: Id, channel: Channel, recipient: string, content: string, answer: Answer)
  datatype Kind = DeliveredCount | FailedCount | RetriedCount | RateLimitedCount
  datatype Metric = Metric(kind: Kind, channel: Channel)

  datatype Config = Config(maxAttempts: int, retryInterval: int, perSec: int, templates: map<Id, string>)

  // Every store, in one value. rows is the notifications table and index its
  // unique index on idempotency keys; sends is the provider's log of calls.
  datatype World = World(
    now: int,
    rows: map<Id, Notification>, index: map<Key, Id>, keys: map<Key, Lease>,
    lists: PQ.Lists, retry: seq<Entry>, scheduled: seq<Entry>, hands: multiset<QueueItem>,
    counters: Counters, dead: seq<DeadLetter>, attempts: seq<Attempt>, events: seq<StatusEvent>,
    sends: seq<ProviderCall>, metrics: seq<Metric>)

  // ---- validation (internal/domain/validation.go) ----

  function MaxLen(c: Channel): nat {
    if c == SMS then 1600 else if c == EMAIL then 100000 else if c == PUSH then 4000 else 0
  }

  predicate Validates(n: Notification) {
    && ValidChannel(n.channel)
    && ValidPriority(n.priority)
    && n.recipient != ""
    && !(n.content == "" && n.template.None?)
    && |n.content| <= MaxLen(n.channel)
  }

  // ---- rows (internal/adapter/repository/postgres/notification_repo.go) ----

  // The provider id is only overwritten by a new one.
  function WithStatus(n: Notification, s: Status, lastError: Option<string>, providerId: Option<string>,
                      attempts: nat): Notification {
    n.(status := s, lastError := lastError, attempts := attempts,
       providerId := if providerId.Some? then providerId else n.providerId)
  }

  function UpdatedRows(rows: map<Id, Notification>, id: Id, s: Status, lastError: Option<string>,
                       providerId: Option<string>, attempts: nat): map<Id, Notification> {
    if id in rows then rows[id := WithStatus(rows[id], s, lastError, providerId, attempts)] else rows
  }

  // ---- create (internal/usecase/create_notification.go) ----

  const IDEM_TTL: int := 24 * 3600 * SECOND

  function Content(cfg: Config, input: Input): Outcome<string> {
    match input.template
    case None => Ok(input.content)
    case Some(t) =>
      if t !in cfg.templates then Err(NotFound)
      else match T.Render(cfg.templates[t], input.variables)
        case Missing(_) => Err(Invalid)
        case Text(out) => Ok(out)
  }

  function Draft(input: Input, content: string): Notification {
    Notification(input.channel, input.recipient, content, input.template,
                 if input.priority == "" then NORMAL else input.priority,
                 Pending, input.key, input.scheduledAt, input.batch, 0, None, None)
  }

  // The lease of a key, if it has not expired.
  function LeaseAt(keys: map<Key, Lease>, key: Key, now: int): Option<Id> {
    if key in keys && now < keys[key].expires then Some(keys[key].id) else None
  }

  function Leased(w: World, key: Key): Option<Id> {
    LeaseAt(w.keys, key, w.now)
  }

  predicate Clashes(w: World, id: Id, n: Notification) {
    id in w.rows || (n.key.Some? && n.key.value in w.index)
  }

  predicate Deferred(w: World, n: Notification) {
    n.scheduledAt.Some? && w.now < n.scheduledAt.value
  }

  // A notification that is due at once is queued, one for later stays pending.
  function NewRow(w: World, n: Notification): Notification {
    if Deferred(w, n) then n else WithStatus(n, Queued, None, None, 0)
  }

  // The row inserted, and its item scheduled or enqueued.
  function Stored(w: World, id: Id, n: Notification): World {
    var item := QueueItem(id, n.priority);
    w.(rows := w.rows[id := NewRow(w, n)],
       index := if n.key.Some? then w.index[n.key.value := id] else w.index,
       scheduled := if Deferred(w, n) then Added(w.scheduled, item, n.scheduledAt.value) else w.scheduled,
       lists := if Deferred(w, n) then w.lists else PQ.Pushed(w.lists, item))
  }

  function StoredOr(w: World, id: Id, n: Notification): (World, Outcome<(Id, Notification)>) {
    if Clashes(w, id, n) then (w, Err(Duplicate)) else (Stored(w, id, n), Ok((id, NewRow(w, n))))
  }

  function WithLease(w: World, key: Option<Key>, id: Id): World {
    if key.Some? then w.(keys := w.keys[key.value := Lease(id, w.now + IDEM_TTL)]) else w
  }

  function Created(cfg: Config, w: World, input: Input, id: Id): (World, Outcome<(Id, Notification)>) {
    if input.key.Some? && input.key.value in w.index && w.index[input.key.value] in w.rows then
      (w, Ok((w.index[input.key.value], w.rows[w.index[input.key.value]])))
    else match Content(cfg, input)
      case Err(e) => (w, Err(e))
      case Ok(content) =>
        var n := Draft(input, content);
        if !Validates(n) then (w, Err(Invalid))
        else if n.key.Some? && Leased(w, n.key.value).Some? then
          var existing := Leased(w, n.key.value).value;
          (w, if existing in w.rows then Ok((existing, w.rows[existing])) else Err(NotFound))
        else StoredOr(WithLease(w, n.key, id), id, n)
  }

  // ---- the worker (internal/worker/loop.go, internal/usecase/process_notification.go) ----

  function Taken(w: World): World {
    match PQ.Front(w.lists)
    case None => w
    case Some(item) => w.(lists := PQ.Popped(w.lists), hands := w.hands + multiset{item})
  }

  datatype Verdict = Discard | Throttle | Deliver | GiveUp | TryLater

  // What processing an item comes to.
  function VerdictOn(cfg: Config, w: World, item: QueueItem, answer: Answer): Verdict {
    if item.id !in w.rows || w.rows[item.id].status.Cancelled? || w.rows[item.id].status.Delivered? then Discard
    else if !Allowed(w.counters, cfg.perSec, w.rows[item.id].channel, w.now) then Throttle
    else AfterSend(cfg, w.rows[item.id], answer)
  }

  function AfterSend(cfg: Config, n: Notification, answer: Answer): (v: Verdict)
    ensures Sends(v) && (v.Deliver? <==> answer.Accepted?)
  {
    if answer.Accepted? then Deliver
    else if n.attempts + 1 >= cfg.maxAttempts then GiveUp
    else TryLater
  }

  predicate Sends(v: Verdict) {
    v.Deliver? || v.GiveUp? || v.TryLater?
  }

  // The row after an attempt: the count goes up by one, and only a delivery sets
  // the provider id and clears the error.
  function RowAfter(n: Notification, v: Verdict, answer: Answer): Notification {
    match answer
    case Accepted(m) => WithStatus(n, Delivered, None, Some(m), n.attempts + 1)
    case Rejected(r) => WithStatus(n, if v.GiveUp? then Failed else Queued, Some(r), None, n.attempts + 1)
  }

  // The item goes back to the retry set a second later if there was no rate
  // token, and after the retry interval if a failed attempt was not the last.
  function RetryAfter(cfg: Config, w: World, item: QueueItem, v: Verdict): seq<Entry> {
    match v
    case Throttle => Added(w.retry, item, w.now + SECOND)
    case TryLater => Added(w.retry, item, w.now + cfg.retryInterval)
    case _ => w.retry
  }

  function MetricAfter(v: Verdict): Option<Kind> {
    match v
    case Discard => None
    case Throttle => Some(RateLimitedCount)
    case Deliver => Some(DeliveredCount)
    case GiveUp => Some(FailedCount)
    case TryLater => Some(RetriedCount)
  }

  // What the provider is sent, with its answer (internal/adapter/provider/webhook/client.go).
  function CallFor(id: Id, n: Notification, answer: Answer): ProviderCall {
    ProviderCall(id, n.channel, n.recipient, n.content, answer)
  }

  // Every send is announced; a final answer is announced too.
  function EventsAfter(id: Id, n: Notification, v: Verdict): seq<StatusEvent> {
    match v
    case Deliver => [StatusEvent(id, n.batch, Sending), StatusEvent(id, n.batch, Delivered)]
    case GiveUp => [StatusEvent(id, n.batch, Sending), StatusEvent(id, n.batch, Failed)]
    case TryLater => [StatusEvent(id, n.batch, Sending)]
    case _ => []
  }

  function Processed(cfg: Config, w: World, item: QueueItem, answer: Answer): World {
    var v := VerdictOn(cfg, w, item, answer);
    if item.id !in w.rows then w.(hands := w.hands - multiset{item})
    else
      var n := w.rows[item.id];
      w.(hands := w.hands - multiset{item},
         counters := if v.Discard? then w.counters else Bumped(w.counters, n.channel, w.now, true),
         rows := if Sends(v) then w.rows[item.id := RowAfter(n, v, answer)] else w.rows,
         retry := RetryAfter(cfg, w, item, v),
         sends := if Sends(v) then w.sends + [CallFor(item.id, n, answer)] else w.sends,
         attempts := if Sends(v) then w.attempts + [Attempt(item.id, n.attempts + 1, answer)] else w.attempts,
         dead := if v.GiveUp? && answer.Rejected? then [DeadLetter(item.id, answer.reason)] + w.dead else w.dead,
         events := if Sends(v) then w.events + EventsAfter(item.id, n, v) else w.events,
         metrics := if MetricAfter(v).Some? then w.metrics + [Metric(MetricAfter(v).value, n.channel)] else w.metrics)
  }

  // One round of the worker loop: an item is dequeued, if there is one, and processed.
  function Worked(cfg: Config, w: World, answer: Answer): World {
    match PQ.Front(w.lists)
    case None => w
    case Some(item) => Processed(cfg, Taken(w), item, answer)
  }

  // Rounds one after the other; the loop ignores what processing answers.
  function Rounds(cfg: Config, w: World, answers: seq<Answer>): World {
    if answers == [] then w
    else Worked(cfg, Rounds(cfg, w, answers[..|answers| - 1]), answers[|answers| - 1])
  }

  // ---- cancel (internal/usecase/cancel_notification.go) ----

  function CancelError(w: World, id: Id): Option<Error> {
    if id !in w.rows then Some(NotFound)
    else if !w.rows[id].status.Cancellable() then Some(NotCancellable)
    else None
  }

  function CancelledWorld(w: World, id: Id): World {
    if CancelError(w, id).Some? then w
    else
      w.(lists := PQ.Purged(w.lists, id), scheduled := Kept(w.scheduled, id),
         rows := w.rows[id := WithStatus(w.rows[id], Cancelled, None, None, w.rows[id].attempts)])
  }

  // ---- promotion (internal/scheduler/promoter.go) ----

  function RetryPromoted(w: World): World {
    var n := DueCount(w.retry, w.now);
    w.(retry := w.retry[n..], lists := PushedAll(w.lists, Items(w.retry[..n])))
  }

  function ScheduledPromoted(w: World): World {
    var n := DueCount(w.scheduled, w.now);
    w.(scheduled := w.scheduled[n..], lists := PushedAll(w.lists, Items(w.scheduled[..n])))
  }

  // ---- steps and runs ----

  datatype Step =
    | Create(input: Input, id: Id)
    | Take
    | Process(item: QueueItem, answer: Answer)
    | Cancel(id: Id)
    | PromoteRetry
    | PromoteScheduled
    | Pass(time: nat)

  // An item is processed by the worker that holds it, and ids are fresh;
  // anything else leaves the world as it is.
  function Next(cfg: Config, w: World, step: Step): World {
    match step
    case Create(input, id) => if id in w.rows then w else Created(cfg, w, input, id).0
    case Take => Taken(w)
    case Process(item, answer) => if item in w.hands then Processed(cfg, w, item, answer) else w
    case Cancel(id) => CancelledWorld(w, id)
    case PromoteRetry => RetryPromoted(w)
    case PromoteScheduled => ScheduledPromoted(w)
    case Pass(time) => w.(now := w.now + time)
  }

  function Empty(now: int): World {
    World(now, map[], map[], map[], map[], [], [], multiset{}, map[], [], [], [], [], [])
  }

  function Run(cfg: Config, w: World, steps: seq<Step>): World {
    if steps == [] then w else Next(cfg, Run(cfg, w, steps[..|steps| - 1]), steps[|steps| - 1])
  }
}
