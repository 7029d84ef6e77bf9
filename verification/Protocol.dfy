// The delivery protocol at the grain of single store commands.
//
// Any number of creators, workers, promoters and cancellers run side by side.
// Each is a thread whose constructor names the command it issues next, with the
// locals it carries, and one action runs one command of one thread. A thread
// that is never chosen again has stopped for good; that also covers every error
// that makes the original return. Where the original discards an error, the
// action's choice says whether the command was applied.

module Protocol {
  import opened Domain
  import DS = DelayedSet

  type ThreadId = nat

  datatype Row = Row(key: Option<Key>, priority: Priority, status: Status, attempts: nat)

  datatype Request = Request(key: Option<Key>, priority: Priority, dueAt: Option<int>)

  datatype Delayed = RetrySet | ScheduledSet

  // Where CreateNotification.Execute stands.
  datatype CreatePoint =
    | CheckKey
    | Prepare
    | Claim(id: Id, now: int)
    | ReadClaim
    | FetchClaimed(existing: Id)
    | Insert(id: Id, now: int)
    | Handover(id: Id, now: int)
    | MarkQueued(id: Id)
    | Returned(id: Id)

  // Where ProcessNotification.Execute stands; row is the row as it was fetched.
  datatype WorkPoint =
    | Fetch
    | Throttle(row: Row)
    | Requeue
    | MarkSending(row: Row)
    | PublishSending(row: Row)
    | CallProvider(row: Row)
    | RecordAccepted(row: Row)
    | MarkDelivered(row: Row)
    | PublishDelivered
    | RecordRejected(row: Row)
    | PushDead(row: Row)
    | MarkFailed(row: Row)
    | PublishFailed
    | MarkRetry(row: Row)
    | ScheduleRetry

  // Where CancelNotification.Execute stands.
  datatype CancelPoint =
    | PurgeQueue(lists: seq<Priority>)
    | ScanScheduled
    | Unschedule(todo: seq<QueueItem>)
    | MarkCancelled
    | CancelReturned

  datatype Thread =
    | Creating(req: Request, create: CreatePoint)
    | Working(item: QueueItem, work: WorkPoint)
    | Promoting(src: Delayed, hand: Option<QueueItem>, todo: seq<QueueItem>)
    | Cancelling(id: Id, attempts: nat, cancel: CancelPoint)
    | Stopped

  datatype Writer = ByCreator | ByWorker | ByCanceller

  // The history a run leaves behind: provider calls with their answers,
  // dead-letter pushes, attempt records, published status events, and writes of
  // the status column (RetryLost notes that a failed send's write was dropped).
  datatype Event =
    | Sent(id: Id, accepted: bool)
    | Dead(id: Id)
    | Recorded(id: Id, no: nat, accepted: bool)
    | Published(id: Id, status: Status)
    | Wrote(id: Id, status: Status, writer: Writer)
    | RetryLost(id: Id)

  // Which request an id was generated for, and by which thread.
  datatype Origin = Origin(key: Option<Key>, creator: ThreadId)

  datatype State = State(
    rows: map<Id, Row>,
    keys: map<Key, Id>,
    queue: multiset<QueueItem>,
    retry: map<QueueItem, int>,
    scheduled: map<QueueItem, int>,
    threads: map<ThreadId, Thread>,
    issued: map<Id, Origin>,
    log: seq<Event>)

  // The inputs a command may receive from outside: whether a fallible command
  // was applied (or the provider accepted, or a rate token was free), a
  // generated id, the clock, and the order in which a set is listed.
  datatype Choice = Choice(ok: bool, id: Id, now: int, listing: seq<QueueItem>)

  datatype Action =
    | BeginCreate(t: ThreadId, req: Request)
    | BeginWork(t: ThreadId, item: QueueItem)
    | BeginPromote(t: ThreadId, src: Delayed, c: Choice)
    | BeginCancel(t: ThreadId, id: Id)
    | Advance(t: ThreadId, c: Choice)
    | ExpireKey(key: Key)

  const INIT: State := State(map[], map[], multiset{}, map[], map[], map[], map[], [])

  ghost predicate KeyTaken(rows: map<Id, Row>, key: Option<Key>) {
    key.Some? && exists id :: id in rows && rows[id].key == key
  }

  function Members(s: State, src: Delayed): map<QueueItem, int> {
    if src.RetrySet? then s.retry else s.scheduled
  }

  function Without(m: map<QueueItem, int>, item: QueueItem): map<QueueItem, int> {
    map x | x in m && x != item :: m[x]
  }

  // listing names every member that passes the test, once each.
  ghost predicate Lists(listing: seq<QueueItem>, m: map<QueueItem, int>, test: QueueItem -> bool) {
    && (forall i :: 0 <= i < |listing| ==> listing[i] in m && test(listing[i]))
    && (forall x :: x in m && test(x) ==> x in listing)
    && (forall i, j :: 0 <= i < j < |listing| ==> listing[i] != listing[j])
  }

  // What a command does to the stores. Reads, and calls that had no effect, are Idle.
  datatype Command =
    | Idle
    | Generate(id: Id, origin: Origin)
    | SetKey(key: Key, id: Id)
    | InsertRow(id: Id, row: Row)
    | UpdateRow(id: Id, status: Status, attempts: nat, writer: Writer)
    | Push(item: QueueItem)
    | Pop(item: QueueItem)
    | Purge(item: QueueItem)
    | Add(dst: Delayed, item: QueueItem, at: int)
    | Remove(src: Delayed, item: QueueItem)
    | Say(event: Event)

  // UPDATE ... WHERE id: no row, no effect.
  function RowsAfter(rows: map<Id, Row>, c: Command): map<Id, Row> {
    match c
    case InsertRow(id, row) => rows[id := row]
    case UpdateRow(id, status, attempts, _) =>
      if id in rows then rows[id := rows[id].(status := status, attempts := attempts)] else rows
    case _ => rows
  }

  function QueueAfter(queue: multiset<QueueItem>, c: Command): multiset<QueueItem> {
    match c
    case Push(item) => queue + multiset{item}
    case Pop(item) => queue - multiset{item}
    case Purge(item) => queue[item := 0]
    case _ => queue
  }

  function MembersAfter(members: map<QueueItem, int>, which: Delayed, c: Command): map<QueueItem, int> {
    match c
    case Add(dst, item, at) => if dst == which then members[item := at] else members
    case Remove(src, item) => if src == which then Without(members, item) else members
    case _ => members
  }

  function LogAfter(log: seq<Event>, c: Command): seq<Event> {
    match c
    case UpdateRow(id, status, _, writer) => log + [Wrote(id, status, writer)]
    case Say(event) => log + [event]
    case _ => log
  }

  function Exec(s: State, c: Command): State {
    s.(rows := RowsAfter(s.rows, c),
       keys := if c.SetKey? then s.keys[c.key := c.id] else s.keys,
       queue := QueueAfter(s.queue, c),
       retry := MembersAfter(s.retry, RetrySet, c),
       scheduled := MembersAfter(s.scheduled, ScheduledSet, c),
       issued := if c.Generate? then s.issued[c.id := c.origin] else s.issued,
       log := LogAfter(s.log, c))
  }

  // One turn of a thread: the command it issues and where it goes next. The
  // command's reply is read off the state.
  datatype Turn = Turn(command: Command, next: Thread)

  // internal/usecase/create_notification.go
  ghost function CreatorTurn(s: State, t: ThreadId, req: Request, at: CreatePoint, c: Choice): Turn {
    match at
    case CheckKey =>
      if KeyTaken(s.rows, req.key) then
        var id :| id in s.rows && s.rows[id].key == req.key;
        Turn(Idle, Creating(req, Returned(id)))
      else Turn(Idle, Creating(req, Prepare))
    case Prepare =>
      // template, id generation and validation touch no shared state
      if !c.ok || !ValidPriority(req.priority) || c.id in s.issued then Turn(Idle, Stopped)
      else Turn(Generate(c.id, Origin(req.key, t)),
                Creating(req, if req.key.Some? then Claim(c.id, c.now) else Insert(c.id, c.now)))
    case Claim(id, now) =>
      if req.key.None? then Turn(Idle, Stopped)
      else if req.key.value in s.keys then Turn(Idle, Creating(req, ReadClaim))
      else Turn(SetKey(req.key.value, id), Creating(req, Insert(id, now)))
    case ReadClaim =>
      if req.key.Some? && req.key.value in s.keys
      then Turn(Idle, Creating(req, FetchClaimed(s.keys[req.key.value])))
      else Turn(Idle, Stopped)
    case FetchClaimed(existing) =>
      Turn(Idle, if existing in s.rows then Creating(req, Returned(existing)) else Stopped)
    case Insert(id, now) =>
      if id in s.rows || KeyTaken(s.rows, req.key) then Turn(Idle, Stopped)
      else Turn(InsertRow(id, Row(req.key, req.priority, Pending, 0)), Creating(req, Handover(id, now)))
    case Handover(id, now) =>
      var item := QueueItem(id, req.priority);
      if req.dueAt.Some? && now < req.dueAt.value
      then Turn(Add(ScheduledSet, item, DS.Unix(req.dueAt.value)), Creating(req, Returned(id)))
      else Turn(Push(item), Creating(req, MarkQueued(id)))
    case MarkQueued(id) => Turn(UpdateRow(id, Queued, 0, ByCreator), Creating(req, Returned(id)))
    case Returned(_) => Turn(Idle, Creating(req, at))
  }

  // internal/usecase/process_notification.go
  ghost function WorkerTurn(maxAttempts: int, s: State, item: QueueItem, at: WorkPoint, c: Choice): Turn {
    match at
    case Fetch =>
      if item.id !in s.rows || s.rows[item.id].status.Cancelled? || s.rows[item.id].status.Delivered?
      then Turn(Idle, Stopped)
      else Turn(Idle, Working(item, Throttle(s.rows[item.id])))
    case Throttle(row) => Turn(Idle, Working(item, if c.ok then MarkSending(row) else Requeue))
    case Requeue => Turn(if c.ok then Add(RetrySet, item, DS.Unix(c.now + DS.SECOND)) else Idle, Stopped)
    case MarkSending(row) =>
      Turn(if c.ok then UpdateRow(item.id, Sending, row.attempts, ByWorker) else Idle,
           Working(item, PublishSending(row)))
    case PublishSending(row) => Turn(Say(Published(item.id, Sending)), Working(item, CallProvider(row)))
    case CallProvider(row) =>
      Turn(Say(Sent(item.id, c.ok)), Working(item, if c.ok then RecordAccepted(row) else RecordRejected(row)))
    case RecordAccepted(row) =>
      Turn(if c.ok then Say(Recorded(item.id, row.attempts + 1, true)) else Idle, Working(item, MarkDelivered(row)))
    case MarkDelivered(row) =>
      Turn(if c.ok then UpdateRow(item.id, Delivered, row.attempts + 1, ByWorker) else Idle,
           Working(item, PublishDelivered))
    case PublishDelivered => Turn(Say(Published(item.id, Delivered)), Stopped)
    case RecordRejected(row) =>
      Turn(if c.ok then Say(Recorded(item.id, row.attempts + 1, false)) else Idle,
           Working(item, if row.attempts + 1 >= maxAttempts then PushDead(row) else MarkRetry(row)))
    case PushDead(row) => Turn(if c.ok then Say(Dead(item.id)) else Idle, Working(item, MarkFailed(row)))
    case MarkFailed(row) =>
      Turn(if c.ok then UpdateRow(item.id, Failed, row.attempts + 1, ByWorker) else Idle,
           Working(item, PublishFailed))
    case PublishFailed => Turn(Say(Published(item.id, Failed)), Stopped)
    case MarkRetry(row) =>
      Turn(if c.ok then UpdateRow(item.id, Queued, row.attempts + 1, ByWorker) else Say(RetryLost(item.id)),
           Working(item, ScheduleRetry))
    case ScheduleRetry => Turn(Add(RetrySet, item, DS.Unix(c.now)), Stopped) // the clock, with the retry interval added
  }

  // duePromote in internal/adapter/queue/redis/zset.go: remove first, then enqueue.
  ghost function PromoterTurn(s: State, src: Delayed, hand: Option<QueueItem>, todo: seq<QueueItem>): Turn {
    match hand
    case Some(item) => Turn(Push(item), Promoting(src, None, todo))
    case None =>
      if todo == [] then Turn(Idle, Stopped)
      else if todo[0] !in Members(s, src) then Turn(Idle, Promoting(src, None, todo[1..]))
      else Turn(Remove(src, todo[0]), Promoting(src, Some(todo[0]), todo[1..]))
  }

  // internal/usecase/cancel_notification.go. The removals' errors are discarded,
  // and an error ends the removal it hit.
  ghost function CancellerTurn(s: State, id: Id, attempts: nat, at: CancelPoint, c: Choice): Turn {
    match at
    case PurgeQueue(lists) =>
      if !c.ok || lists == [] then Turn(Idle, Cancelling(id, attempts, ScanScheduled))
      else Turn(Purge(QueueItem(id, lists[0])), Cancelling(id, attempts, PurgeQueue(lists[1..])))
    case ScanScheduled =>
      if !c.ok || !Lists(c.listing, s.scheduled, (x: QueueItem) => x.id == id)
      then Turn(Idle, Cancelling(id, attempts, MarkCancelled))
      else Turn(Idle, Cancelling(id, attempts, Unschedule(c.listing)))
    case Unschedule(todo) =>
      if !c.ok || todo == [] then Turn(Idle, Cancelling(id, attempts, MarkCancelled))
      else Turn(Remove(ScheduledSet, todo[0]), Cancelling(id, attempts, Unschedule(todo[1..])))
    case MarkCancelled => Turn(UpdateRow(id, Cancelled, attempts, ByCanceller), Cancelling(id, attempts,
        CancelReturned))
    case CancelReturned => Turn(Idle, Cancelling(id, attempts, at))
  }

  ghost function ThreadTurn(maxAttempts: int, s: State, t: ThreadId, pc: Thread, c: Choice): Turn {
    match pc
    case Creating(req, at) => CreatorTurn(s, t, req, at, c)
    case Working(item, at) => WorkerTurn(maxAttempts, s, item, at, c)
    case Promoting(src, hand, todo) => PromoterTurn(s, src, hand, todo)
    case Cancelling(id, attempts, at) => CancellerTurn(s, id, attempts, at, c)
    case Stopped => Turn(Idle, Stopped)
  }

  // The first turn of a new thread.
  ghost function FirstTurn(s: State, a: Action): Turn
    requires a.BeginCreate? || a.BeginWork? || a.BeginPromote? || a.BeginCancel?
  {
    match a
    case BeginCreate(_, req) => Turn(Idle, Creating(req, if req.key.Some? then CheckKey else Prepare))
    case BeginWork(_, item) =>
      if item in s.queue && ValidPriority(item.priority) then Turn(Pop(item), Working(item, Fetch))
      else Turn(Idle, Stopped)
    case BeginPromote(_, src, c) =>
      var members := Members(s, src);
      if Lists(c.listing, members, (x: QueueItem) => x in members && members[x] <= DS.Unix(c.now))
      then Turn(Idle, Promoting(src, None, c.listing))
      else Turn(Idle, Stopped)
    case BeginCancel(_, id) =>
      if id in s.rows && s.rows[id].status.Cancellable()
      then Turn(Idle, Cancelling(id, s.rows[id].attempts, PurgeQueue([HIGH, NORMAL, LOW])))
      else Turn(Idle, Stopped)
  }

  // The turn an action takes. Beginning a thread that exists, or advancing one
  // that does not, does nothing.
  ghost function TurnOf(maxAttempts: int, s: State, a: Action): Turn
    requires !a.ExpireKey?
  {
    if a.Advance? then
      if a.t in s.threads then ThreadTurn(maxAttempts, s, a.t, s.threads[a.t], a.c) else Turn(Idle, Stopped)
    else
      if a.t in s.threads then Turn(Idle, s.threads[a.t]) else FirstTurn(s, a)
  }

  ghost function Next(maxAttempts: int, s: State, a: Action): State {
    if a.ExpireKey? then s.(keys := map k | k in s.keys && k != a.key :: s.keys[k])
    else
      var turn := TurnOf(maxAttempts, s, a);
      Exec(s, turn.command).(threads := s.threads[a.t := turn.next])
  }

  // The state reached by a run; every reachable state is After(m, run) for some run.
  ghost function After(maxAttempts: int, run: seq<Action>): State {
    if run == [] then INIT else Next(maxAttempts, After(maxAttempts, run[..|run| - 1]), run[|run| - 1])
  }
}
