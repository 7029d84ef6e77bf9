// How often one notification can be sent, however commands interleave.

module ProtocolBound {
  import opened Domain
  import opened Protocol
  import opened ProtocolTokens
  import opened ProtocolEnds
  import opened ProtocolEvents
  import opened ProtocolKeys

  // Failed sends whose status write was dropped.
  function LostOf(log: seq<Event>, id: Id): nat {
    if log == [] then 0
    else LostOf(log[..|log| - 1], id) + if log[|log| - 1] == RetryLost(id) then 1 else 0
  }

  // The creator's own write of `queued`, which resets attempts to zero, has landed.
  function Late(log: seq<Event>, id: Id): bool {
    log != [] && (log[|log| - 1] == Wrote(id, Queued, ByCreator) || Late(log[..|log| - 1], id))
  }

  // All that the bound depends on, for one id.
  datatype Figures = Figures(sends: nat, lost: nat, late: bool, row: Option<Row>)

  function FiguresOf(s: State, id: Id): Figures {
    Figures(SendsLogged(s.log, id), LostOf(s.log, id), Late(s.log, id), if id in s.rows then Some(s.rows[id]) else None)
  }

  // Sends that the late write allows on top of the cap.
  function Extra(cap: nat, f: Figures): int {
    (if f.late then cap - 1 else 0) + f.lost
  }

  predicate Total(cap: nat, f: Figures) {
    f.sends <= cap + Extra(cap, f)
  }

  // The stored count keeps up with the sends, but for `behind`, or the row is cancelled.
  predicate Counted(cap: nat, f: Figures, behind: nat) {
    f.row.Some? ==>
      && f.row.value.attempts <= cap - 1
      && (f.row.value.status.Cancelled? || f.sends <= f.row.value.attempts + behind + Extra(cap, f))
  }

  // An id whose token may still lead to a send.
  predicate Resting(cap: nat, f: Figures) {
    f.sends <= cap - 1 + Extra(cap, f) && Counted(cap, f, 0)
  }

  predicate Snapshot(cap: nat, f: Figures, attempts: nat, sent: nat) {
    attempts <= cap - 1 && f.sends <= attempts + sent + Extra(cap, f) && Counted(cap, f, sent)
  }

  predicate Holding(maxAttempts: int, f: Figures, pc: Thread) {
    var cap := Cap(maxAttempts);
    match pc
    case Creating(_, at) => f.sends == 0 && (at.Handover? ==> Counted(cap, f, 0))
    case Promoting(_, _, _) => Resting(cap, f)
    case Working(_, at) => (match at
      case Fetch => Resting(cap, f)
      case Requeue => Resting(cap, f)
      case ScheduleRetry => Resting(cap, f)
      case Throttle(row) => Snapshot(cap, f, row.attempts, 0) && Resting(cap, f)
      case MarkSending(row) => Snapshot(cap, f, row.attempts, 0)
      case PublishSending(row) => Snapshot(cap, f, row.attempts, 0)
      case CallProvider(row) => Snapshot(cap, f, row.attempts, 0)
      case RecordRejected(row) => Snapshot(cap, f, row.attempts, 1)
      case MarkRetry(row) => Snapshot(cap, f, row.attempts, 1) && row.attempts + 1 <= cap - 1
      case _ => true)
    case _ => true
  }

  // The id a creator may still write `queued` for.
  function Making(pc: Thread): Option<Id> {
    match pc
    case Creating(_, MarkQueued(id)) => Some(id)
    case Creating(_, _) => Held(pc)
    case _ => None
  }

  // A canceller writes back an attempts count read from a row that could still be cancelled.
  predicate Remembers(maxAttempts: int, pc: Thread) {
    pc.Cancelling? ==> pc.attempts <= Cap(maxAttempts) - 1
  }

  ghost predicate IdBound(maxAttempts: int, s: State, id: Id) {
    var f := FiguresOf(s, id);
    && Total(Cap(maxAttempts), f)
    && (id !in s.issued ==> f.sends == 0 && !f.late)
    && (f.row.Some? && f.row.value.status.Cancellable() ==> f.row.value.attempts <= Cap(maxAttempts) - 1)
    && (!NotStored(s, id) ==> Resting(Cap(maxAttempts), f))
  }

  ghost predicate ThreadBound(maxAttempts: int, s: State, pc: Thread) {
    && (Held(pc).Some? ==> Holding(maxAttempts, FiguresOf(s, Held(pc).value), pc))
    && (Making(pc).Some? ==> !FiguresOf(s, Making(pc).value).late)
    && Remembers(maxAttempts, pc)
  }

  ghost predicate BoundInv(maxAttempts: int, s: State) {
    && (forall id :: IdBound(maxAttempts, s, id))
    && (forall t :: t in s.threads ==> ThreadBound(maxAttempts, s, s.threads[t]))
  }

  // What a command does to the figures of id.
  function FiguresAfter(f: Figures, c: Command, id: Id): Figures {
    match c
    case InsertRow(id', row) => if id' == id then f.(row := Some(row)) else f
    case UpdateRow(id', status, attempts, writer) =>
      if id' != id then f
      else f.(late := f.late || (status == Queued && writer == ByCreator),
              row := if f.row.Some? then Some(f.row.value.(status := status, attempts := attempts)) else None)
    case Say(e) =>
      if e.Sent? && e.id == id then f.(sends := f.sends + 1)
      else if e == RetryLost(id) then f.(lost := f.lost + 1)
      else if e == Wrote(id, Queued, ByCreator) then f.(late := true)
      else f
    case _ => f
  }

  lemma LostFollows(log: seq<Event>, c: Command, id: Id)
    ensures LostOf(LogAfter(log, c), id) == LostOf(log, id) + if c == Say(RetryLost(id)) then 1 else 0
  {
    var log' := LogAfter(log, c);
    if |log'| > |log| {
      assert log'[..|log'| - 1] == log;
    }
  }

  lemma LateFollows(log: seq<Event>, c: Command, id: Id)
    ensures Late(LogAfter(log, c), id) <==>
            Late(log, id)
            || (c.UpdateRow? && c.id == id && c.status == Queued && c.writer == ByCreator)
            || c == Say(Wrote(id, Queued, ByCreator))
  {
    var log' := LogAfter(log, c);
    if |log'| > |log| {
      assert log'[..|log'| - 1] == log;
    }
  }

  lemma ExecParts(s: State, c: Command)
    ensures Exec(s, c).rows == RowsAfter(s.rows, c) && Exec(s, c).log == LogAfter(s.log, c)
  {
    hide RowsAfter, QueueAfter, MembersAfter, LogAfter;
  }

  lemma FiguresFollow(s: State, c: Command, id: Id)
    ensures FiguresOf(Exec(s, c), id) == FiguresAfter(FiguresOf(s, id), c, id)
  {
    hide Exec, LogAfter, LostOf, Late, SendsLogged;
    ExecParts(s, c);
    StoryAfter(s.log, c, id);
    LostFollows(s.log, c, id);
    LateFollows(s.log, c, id);
  }

  // Writes by a creator or a canceller never let more sends happen than Total allows.
  lemma ForeignWriteKeeps(maxAttempts: int, f: Figures, c: Command, id: Id, pc: Thread)
    requires c.UpdateRow? && c.id == id
    requires (c.status == Queued && c.attempts == 0 && c.writer == ByCreator && !f.late)
          || (c.status == Cancelled && c.attempts <= Cap(maxAttempts) - 1 && c.writer == ByCanceller)
    ensures var f' := FiguresAfter(f, c, id);
      && (Total(Cap(maxAttempts), f) ==> Total(Cap(maxAttempts), f'))
      && (Resting(Cap(maxAttempts), f) ==> Resting(Cap(maxAttempts), f'))
      && (Holding(maxAttempts, f, pc) && !(pc.Creating? && c.writer == ByCreator) ==> Holding(maxAttempts, f', pc))
  {
  }

  // A worker's own turn, up to the provider call and after it.
  lemma CallKeeps(maxAttempts: int, s: State, item: QueueItem, at: WorkPoint, c: Choice)
    requires at.Fetch? || at.Throttle? || at.Requeue? || at.MarkSending? || at.PublishSending? || at.CallProvider?
    requires Held(Working(item, at)) == Some(item.id) && Total(Cap(maxAttempts), FiguresOf(s, item.id))
    requires Holding(maxAttempts, FiguresOf(s, item.id), Working(item, at))
    requires at.Fetch? || at.Requeue? || item.id in s.rows
    ensures var turn := WorkerTurn(maxAttempts, s, item, at, c);
      var f' := FiguresAfter(FiguresOf(s, item.id), turn.command, item.id);
      && Total(Cap(maxAttempts), f')
      && (turn.next.Working? ==> Holding(maxAttempts, f', turn.next))
      && (turn.command.Add? ==> Resting(Cap(maxAttempts), f'))
      && (f'.row.Some? && f'.row.value.status.Cancellable() ==>
            f'.row.value.attempts <= Cap(maxAttempts) - 1 || f'.row == FiguresOf(s, item.id).row)
      && f'.late == FiguresOf(s, item.id).late
  {
  }

  lemma OutcomeKeeps(maxAttempts: int, s: State, item: QueueItem, at: WorkPoint, c: Choice)
    requires !at.Fetch? && !at.Throttle? && !at.Requeue? && !at.MarkSending? && !at.PublishSending? && !at.CallProvider?
    requires Held(Working(item, at)) == Some(item.id) && Total(Cap(maxAttempts), FiguresOf(s, item.id))
    requires Holding(maxAttempts, FiguresOf(s, item.id), Working(item, at))
    requires at.Fetch? || at.Requeue? || item.id in s.rows
    ensures var turn := WorkerTurn(maxAttempts, s, item, at, c);
      var f' := FiguresAfter(FiguresOf(s, item.id), turn.command, item.id);
      && Total(Cap(maxAttempts), f')
      && (turn.next.Working? ==> Holding(maxAttempts, f', turn.next))
      && (turn.command.Add? ==> Resting(Cap(maxAttempts), f'))
      && (f'.row.Some? && f'.row.value.status.Cancellable() ==>
            f'.row.value.attempts <= Cap(maxAttempts) - 1 || f'.row == FiguresOf(s, item.id).row)
      && f'.late == FiguresOf(s, item.id).late
  {
  }

  // A worker's own turn.
  lemma WorkKeeps(maxAttempts: int, s: State, item: QueueItem, at: WorkPoint, c: Choice)
    requires Held(Working(item, at)) == Some(item.id) && Total(Cap(maxAttempts), FiguresOf(s, item.id))
    requires Holding(maxAttempts, FiguresOf(s, item.id), Working(item, at))
    requires at.Fetch? || at.Requeue? || item.id in s.rows
    ensures var turn := WorkerTurn(maxAttempts, s, item, at, c);
      var f' := FiguresAfter(FiguresOf(s, item.id), turn.command, item.id);
      && Total(Cap(maxAttempts), f')
      && (turn.next.Working? ==> Holding(maxAttempts, f', turn.next))
      && (turn.command.Add? ==> Resting(Cap(maxAttempts), f'))
      && (f'.row.Some? && f'.row.value.status.Cancellable() ==>
            f'.row.value.attempts <= Cap(maxAttempts) - 1 || f'.row == FiguresOf(s, item.id).row)
      && f'.late == FiguresOf(s, item.id).late
  {
    hide WorkerTurn, FiguresOf, FiguresAfter, Total, Resting, Holding;
    if at.Fetch? || at.Throttle? || at.Requeue? || at.MarkSending? || at.PublishSending? || at.CallProvider? {
      CallKeeps(maxAttempts, s, item, at, c);
    } else {
      OutcomeKeeps(maxAttempts, s, item, at, c);
    }
  }

  // The id whose figures a command may change.
  predicate About(c: Command, id: Id) {
    match c
    case InsertRow(id', _) => id' == id
    case UpdateRow(id', _, _, _) => id' == id
    case Say(e) => e.id == id
    case _ => false
  }

  predicate Stores(c: Command, id: Id) {
    (c.Push? || c.Add?) && c.item.id == id
  }

  // Ids a turn is not about keep their bound; a token that is put down rests.
  lemma OtherIdsKept(maxAttempts: int, s: State, t: ThreadId, turn: Turn, id: Id)
    requires IdBound(maxAttempts, s, id) && !About(turn.command, id)
    requires Stores(turn.command, id) ==> Resting(Cap(maxAttempts), FiguresOf(s, id))
    ensures IdBound(maxAttempts, Exec(s, turn.command).(threads := s.threads[t := turn.next]), id)
    ensures FiguresOf(Exec(s, turn.command).(threads := s.threads[t := turn.next]), id) == FiguresOf(s, id)
  {
    hide Exec, Resting, Total, FiguresOf, NotStored;
    var s' := Exec(s, turn.command).(threads := s.threads[t := turn.next]);
    FiguresFollow(s, turn.command, id);
    SameFigures(Exec(s, turn.command), s', id);
    StoredAfter(s, turn.command);
    StoredOnly(s, s', turn.command, id);
  }

  lemma SameFigures(s: State, s': State, id: Id)
    requires s'.log == s.log && s'.rows == s.rows
    ensures FiguresOf(s', id) == FiguresOf(s, id)
  {
  }

  lemma StoredOnly(s: State, s': State, c: Command, id: Id)
    requires forall x :: x in s'.queue ==> x in s.queue || c == Push(x)
    requires forall x :: x in s'.retry || x in s'.scheduled ==>
               x in s.retry || x in s.scheduled || (c.Add? && c.item == x)
    ensures !NotStored(s', id) ==> !NotStored(s, id) || Stores(c, id)
  {
  }

  ghost predicate Known(maxAttempts: int, s: State, loc: map<Id, Place>) {
    Owns(s, loc) && KeysInv(s) && BoundInv(maxAttempts, s)
  }

  ghost function Result(s: State, t: ThreadId, turn: Turn): State {
    Exec(s, turn.command).(threads := s.threads[t := turn.next])
  }

  // Where a thread stands decides what its turn is about.
  lemma WhoIsAbout(maxAttempts: int, s: State, a: Action, id: Id)
    requires !a.ExpireKey?
    ensures var c := TurnOf(maxAttempts, s, a).command;
      About(c, id) || Stores(c, id) ==>
        a.t in s.threads && a.Advance? && (Held(s.threads[a.t]) == Some(id) || c.UpdateRow?)
    ensures var c := TurnOf(maxAttempts, s, a).command;
      c.UpdateRow? && a.t in s.threads ==>
        (s.threads[a.t].Working? && c.id == s.threads[a.t].item.id)
        || (s.threads[a.t].Creating? && s.threads[a.t].create == MarkQueued(c.id)
            && c.status == Queued && c.attempts == 0 && c.writer == ByCreator)
        || (s.threads[a.t].Cancelling? && c.status == Cancelled && c.writer == ByCanceller
            && c.attempts == s.threads[a.t].attempts)
  {
    hide Lists, KeyTaken;
  }

  // A token that is put down belongs to an id that may rest.
  lemma StoredRests(maxAttempts: int, s: State, a: Action, loc: map<Id, Place>, id: Id)
    requires Known(maxAttempts, s, loc) && !a.ExpireKey? && Stores(TurnOf(maxAttempts, s, a).command, id)
    ensures Resting(Cap(maxAttempts), FiguresOf(s, id))
  {
    hide Account, KeysInv, FiguresOf, Lists, KeyTaken;
    WhoIsAbout(maxAttempts, s, a, id);
    assert ThreadBound(maxAttempts, s, s.threads[a.t]);
  }

  // A worker stays with its item until it stops, and writes no row but its own.
  lemma WorkerStays(maxAttempts: int, s: State, item: QueueItem, at: WorkPoint, c: Choice)
    ensures var turn := WorkerTurn(maxAttempts, s, item, at, c);
      && (turn.next == Stopped || (turn.next.Working? && turn.next.item == item))
      && !turn.command.Push? && (turn.command.Add? ==> turn.command.item.id == item.id)
  {
  }

  lemma WorkerRow(s: State, t: ThreadId, item: QueueItem, at: WorkPoint)
    requires KeysInv(s) && t in s.threads && s.threads[t] == Working(item, at)
    ensures at.Fetch? || at.Requeue? || item.id in s.rows
  {
    assert ThreadKeyed(s.rows, s.issued, t, s.threads[t]);
  }

  // The bound of the id a worker's turn is about.
  lemma WorkerIdKept(maxAttempts: int, s: State, t: ThreadId, item: QueueItem, at: WorkPoint, c: Choice,
                     loc: map<Id, Place>)
    requires Known(maxAttempts, s, loc) && t in s.threads && s.threads[t] == Working(item, at)
    ensures var turn := WorkerTurn(maxAttempts, s, item, at, c); var s' := Result(s, t, turn);
      && (About(turn.command, item.id) ==> IdBound(maxAttempts, s', item.id))
      && ThreadBound(maxAttempts, s', turn.next)
  {
    hide Account, FiguresOf, Exec, Total, Resting, KeysInv, WorkerTurn, Holding;
    var turn := WorkerTurn(maxAttempts, s, item, at, c);
    var s' := Result(s, t, turn);
    assert ThreadBound(maxAttempts, s, s.threads[t]);
    assert IdBound(maxAttempts, s, item.id);
    WorkerRow(s, t, item, at);
    WorkerStays(maxAttempts, s, item, at, c);
    HolderIsAlone(s, t, item.id, loc);
    WorkKeeps(maxAttempts, s, item, at, c);
    FiguresFollow(s, turn.command, item.id);
    SameFigures(Exec(s, turn.command), s', item.id);
    StoredAfter(s, turn.command);
    StoredOnly(s, s', turn.command, item.id);
  }

  // The bound of the id a creator's or a canceller's turn is about.
  lemma ForeignIdKept(maxAttempts: int, s: State, a: Action, loc: map<Id, Place>, id: Id)
    requires Known(maxAttempts, s, loc) && !a.ExpireKey? && About(TurnOf(maxAttempts, s, a).command, id)
    requires a.t in s.threads && !s.threads[a.t].Working?
    ensures IdBound(maxAttempts, Result(s, a.t, TurnOf(maxAttempts, s, a)), id)
  {
    hide Account, FiguresOf, Exec, ThreadTurn;
    var turn := TurnOf(maxAttempts, s, a);
    var s' := Result(s, a.t, turn);
    WhoIsAbout(maxAttempts, s, a, id);
    ForeignTurn(maxAttempts, s, a, id);
    assert ThreadBound(maxAttempts, s, s.threads[a.t]);
    assert IdBound(maxAttempts, s, id);
    FiguresFollow(s, turn.command, id);
    SameFigures(Exec(s, turn.command), s', id);
    StoredAfter(s, turn.command);
    StoredOnly(s, s', turn.command, id);
    if turn.command.UpdateRow? {
      ForeignWriteKeeps(maxAttempts, FiguresOf(s, id), turn.command, id, s.threads[a.t]);
    } else {
      HolderIsAlone(s, a.t, id, loc);
    }
  }

  // Only workers say anything; a creator's new row starts at zero attempts.
  lemma ForeignTurn(maxAttempts: int, s: State, a: Action, id: Id)
    requires !a.ExpireKey? && About(TurnOf(maxAttempts, s, a).command, id)
    requires a.t in s.threads && !s.threads[a.t].Working?
    ensures var c := TurnOf(maxAttempts, s, a).command;
      && !c.Say?
      && (c.InsertRow? ==> c.row.status == Pending && c.row.attempts == 0 && Held(s.threads[a.t]) == Some(id))
      && (c.UpdateRow? ==> (s.threads[a.t].Creating? ==> Making(s.threads[a.t]) == Some(id)))
  {
    hide Lists, KeyTaken;
  }

  // Where a new thread starts.
  lemma FirstKept(maxAttempts: int, s: State, a: Action, loc: map<Id, Place>)
    requires Known(maxAttempts, s, loc) && !a.ExpireKey? && a.t !in s.threads
    ensures var turn := TurnOf(maxAttempts, s, a); ThreadBound(maxAttempts, Result(s, a.t, turn), turn.next)
  {
    hide Account, KeysInv, Lists, FiguresOf, RowsAfter, QueueAfter, MembersAfter, LogAfter;
    var turn := TurnOf(maxAttempts, s, a);
    if a.BeginWork? {
      NextFigures(s, a.t, turn, a.item.id);
      assert IdBound(maxAttempts, s, a.item.id);
    }
    if a.BeginCancel? {
      assert IdBound(maxAttempts, s, a.id);
      assert a.id in s.rows ==> FiguresOf(s, a.id).row == Some(s.rows[a.id]) by {
        RowIs(s, a.id);
      }
    }
  }

  // Where a creator goes next.
  lemma CreatorNextKept(maxAttempts: int, s: State, t: ThreadId, req: Request, at: CreatePoint, c: Choice,
      loc: map<Id, Place>)
    requires Known(maxAttempts, s, loc) && t in s.threads && s.threads[t] == Creating(req, at)
    ensures var turn := CreatorTurn(s, t, req, at, c); ThreadBound(maxAttempts, Result(s, t, turn), turn.next)
  {
    hide Account, KeysInv, KeyTaken, FiguresOf, Exec;
    var turn := CreatorTurn(s, t, req, at, c);
    assert ThreadBound(maxAttempts, s, s.threads[t]);
    if Making(turn.next).Some? {
      var id := Making(turn.next).value;
      NextFigures(s, t, turn, id);
      assert IdBound(maxAttempts, s, id);
    }
  }

  // Where a promoter goes next: what it takes out of a set was resting there.
  lemma PromoterNextKept(maxAttempts: int, s: State, a: Action, loc: map<Id, Place>)
    requires Known(maxAttempts, s, loc) && a.Advance? && a.t in s.threads && s.threads[a.t].Promoting?
    ensures var turn := TurnOf(maxAttempts, s, a); ThreadBound(maxAttempts, Result(s, a.t, turn), turn.next)
  {
    hide Account, KeysInv, FiguresOf, Exec;
    var turn := TurnOf(maxAttempts, s, a);
    if Held(turn.next).Some? {
      var id := Held(turn.next).value;
      NextFigures(s, a.t, turn, id);
      assert IdBound(maxAttempts, s, id);
    }
  }

  // Where a thread other than a worker goes next.
  lemma ForeignNextKept(maxAttempts: int, s: State, a: Action, loc: map<Id, Place>)
    requires Known(maxAttempts, s, loc) && a.Advance?
    requires a.t in s.threads && !s.threads[a.t].Working?
    ensures var turn := TurnOf(maxAttempts, s, a); ThreadBound(maxAttempts, Result(s, a.t, turn), turn.next)
  {
    hide Account, KeysInv, KeyTaken, Lists, FiguresOf, Exec, WorkerTurn, CreatorTurn, PromoterTurn;
    var pc := s.threads[a.t];
    assert ThreadBound(maxAttempts, s, pc);
    if pc.Creating? {
      CreatorNextKept(maxAttempts, s, a.t, pc.req, pc.create, a.c, loc);
    } else if pc.Promoting? {
      PromoterNextKept(maxAttempts, s, a, loc);
    }
  }

  lemma RowIs(s: State, id: Id)
    ensures FiguresOf(s, id).row == if id in s.rows then Some(s.rows[id]) else None
  {
  }

  lemma NextFigures(s: State, t: ThreadId, turn: Turn, id: Id)
    ensures FiguresOf(Result(s, t, turn), id) == FiguresAfter(FiguresOf(s, id), turn.command, id)
  {
    FiguresFollow(s, turn.command, id);
  }

  // No other thread holds the id a creator is about to mark as queued while it
  // could still be in that creator's hands.
  lemma OneMaker(s: State, t: ThreadId, u: ThreadId, id: Id)
    requires KeysInv(s) && t in s.threads && u in s.threads
    requires Making(s.threads[t]) == Some(id) && Making(s.threads[u]) == Some(id)
    ensures t == u
  {
    assert ThreadKeyed(s.rows, s.issued, t, s.threads[t]);
    assert ThreadKeyed(s.rows, s.issued, u, s.threads[u]);
  }

  // What another thread holds is not what this turn sends or inserts.
  lemma OtherHolderKept(maxAttempts: int, s: State, a: Action, loc: map<Id, Place>, u: ThreadId)
    requires Known(maxAttempts, s, loc) && !a.ExpireKey? && u in s.threads && u != a.t && Held(s.threads[u]).Some?
    ensures var id := Held(s.threads[u]).value;
      Holding(maxAttempts, FiguresAfter(FiguresOf(s, id), TurnOf(maxAttempts, s, a).command, id), s.threads[u])
  {
    hide Account, KeysInv, FiguresOf, TurnOf, Holding;
    var id := Held(s.threads[u]).value;
    var c := TurnOf(maxAttempts, s, a).command;
    assert ThreadBound(maxAttempts, s, s.threads[u]);
    if About(c, id) {
      WhoIsAbout(maxAttempts, s, a, id);
      HolderIsAlone(s, u, id, loc);
      assert ThreadBound(maxAttempts, s, s.threads[a.t]);
      if s.threads[u].Creating? && s.threads[a.t].Creating? {
        OneMaker(s, a.t, u, id);
      }
      ForeignWriteKeeps(maxAttempts, FiguresOf(s, id), c, id, s.threads[u]);
    }
  }

  // Only an id's creator can make its late write.
  lemma LateIsMakers(maxAttempts: int, s: State, a: Action, id: Id)
    requires !a.ExpireKey?
    ensures var f' := FiguresAfter(FiguresOf(s, id), TurnOf(maxAttempts, s, a).command, id);
      f'.late && !FiguresOf(s, id).late ==> a.t in s.threads && Making(s.threads[a.t]) == Some(id)
  {
    hide Lists, KeyTaken, FiguresOf;
  }

  lemma OtherThreadKept(maxAttempts: int, s: State, a: Action, loc: map<Id, Place>, u: ThreadId)
    requires Known(maxAttempts, s, loc) && !a.ExpireKey? && u in s.threads && u != a.t
    ensures ThreadBound(maxAttempts, Result(s, a.t, TurnOf(maxAttempts, s, a)), s.threads[u])
  {
    hide Account, KeysInv, FiguresOf, TurnOf, Exec, Holding;
    var turn := TurnOf(maxAttempts, s, a);
    assert ThreadBound(maxAttempts, s, s.threads[u]);
    if Held(s.threads[u]).Some? {
      NextFigures(s, a.t, turn, Held(s.threads[u]).value);
      OtherHolderKept(maxAttempts, s, a, loc, u);
    }
    if Making(s.threads[u]).Some? {
      var id := Making(s.threads[u]).value;
      NextFigures(s, a.t, turn, id);
      LateIsMakers(maxAttempts, s, a, id);
      if a.t in s.threads && Making(s.threads[a.t]) == Some(id) {
        OneMaker(s, a.t, u, id);
      }
    }
  }

  lemma NextKeepsBound(maxAttempts: int, s: State, a: Action, loc: map<Id, Place>)
    requires Known(maxAttempts, s, loc)
    ensures BoundInv(maxAttempts, Next(maxAttempts, s, a))
  {
    hide Account, KeysInv, IdBound, ThreadBound, TurnOf, WorkerTurn, Exec, FiguresOf;
    if a.ExpireKey? {
      ExpiryKeeps(maxAttempts, s, a);
    } else {
      var turn := TurnOf(maxAttempts, s, a);
      forall id ensures IdBound(maxAttempts, Result(s, a.t, turn), id) {
        IdKept(maxAttempts, s, a, loc, id);
      }
      NextThreadKept(maxAttempts, s, a, loc);
      ThreadsUntouched(s, turn.command);
      forall u | u in s.threads && u != a.t
        ensures ThreadBound(maxAttempts, Result(s, a.t, turn), s.threads[u])
      {
        OtherThreadKept(maxAttempts, s, a, loc, u);
      }
    }
  }

  lemma ExpiryKeeps(maxAttempts: int, s: State, a: Action)
    requires BoundInv(maxAttempts, s) && a.ExpireKey?
    ensures BoundInv(maxAttempts, Next(maxAttempts, s, a))
  {
    hide Total, Resting, Holding;
    var s' := Next(maxAttempts, s, a);
    forall id ensures IdBound(maxAttempts, s', id) {
      assert IdBound(maxAttempts, s, id);
    }
    forall t | t in s'.threads ensures ThreadBound(maxAttempts, s', s'.threads[t]) {
      assert ThreadBound(maxAttempts, s, s.threads[t]);
    }
  }

  lemma IdKept(maxAttempts: int, s: State, a: Action, loc: map<Id, Place>, id: Id)
    requires Known(maxAttempts, s, loc) && !a.ExpireKey?
    ensures IdBound(maxAttempts, Result(s, a.t, TurnOf(maxAttempts, s, a)), id)
  {
    hide Account, KeysInv, FiguresOf, TurnOf, Exec, IdBound, ThreadBound, Resting;
    var turn := TurnOf(maxAttempts, s, a);
    if About(turn.command, id) {
      WhoIsAbout(maxAttempts, s, a, id);
      if s.threads[a.t].Working? {
        WorkingTurn(maxAttempts, s, a);
        WorkerIdKept(maxAttempts, s, a.t, s.threads[a.t].item, s.threads[a.t].work, a.c, loc);
      } else {
        ForeignIdKept(maxAttempts, s, a, loc, id);
      }
    } else {
      if Stores(turn.command, id) {
        StoredRests(maxAttempts, s, a, loc, id);
      }
      assert IdBound(maxAttempts, s, id);
      OtherIdsKept(maxAttempts, s, a.t, turn, id);
    }
  }

  lemma WorkingTurn(maxAttempts: int, s: State, a: Action)
    requires a.Advance? && a.t in s.threads && s.threads[a.t].Working?
    ensures TurnOf(maxAttempts, s, a) == WorkerTurn(maxAttempts, s, s.threads[a.t].item, s.threads[a.t].work, a.c)
  {
    hide WorkerTurn;
  }

  lemma NextThreadKept(maxAttempts: int, s: State, a: Action, loc: map<Id, Place>)
    requires Known(maxAttempts, s, loc) && !a.ExpireKey?
    ensures var turn := TurnOf(maxAttempts, s, a); ThreadBound(maxAttempts, Result(s, a.t, turn), turn.next)
  {
    hide Account, KeysInv, FiguresOf, WorkerTurn, Exec, ThreadBound, IdBound, Result;
    if a.t !in s.threads {
      FirstKept(maxAttempts, s, a, loc);
    } else if !a.Advance? {
      IdleKeeps(maxAttempts, s, a.t, s.threads[a.t]);
    } else if s.threads[a.t].Working? {
      WorkingTurn(maxAttempts, s, a);
      WorkerIdKept(maxAttempts, s, a.t, s.threads[a.t].item, s.threads[a.t].work, a.c, loc);
    } else {
      ForeignNextKept(maxAttempts, s, a, loc);
    }
  }

  lemma IdleKeeps(maxAttempts: int, s: State, t: ThreadId, pc: Thread)
    requires ThreadBound(maxAttempts, s, pc)
    ensures ThreadBound(maxAttempts, Result(s, t, Turn(Idle, pc)), pc)
  {
  }

  lemma {:induction false} ReachableBound(maxAttempts: int, run: seq<Action>) returns (loc: map<Id, Place>)
    ensures Known(maxAttempts, After(maxAttempts, run), loc)
  {
    hide Account, KeysInv, BoundInv, Next;
    if run == [] {
      loc := map[];
      InitOwns();
      ReachableKeys(maxAttempts, run);
      InitBound(maxAttempts);
    } else {
      var before := After(maxAttempts, run[..|run| - 1]);
      var loc0 := ReachableBound(maxAttempts, run[..|run| - 1]);
      loc := NextOwns(maxAttempts, before, run[|run| - 1], loc0);
      NextKeepsKeys(maxAttempts, before, run[|run| - 1]);
      NextKeepsBound(maxAttempts, before, run[|run| - 1], loc0);
    }
  }

  lemma InitBound(maxAttempts: int)
    ensures BoundInv(maxAttempts, INIT)
  {
  }

  // In every run an id is sent at most max(1, MaxAttempts) times; MaxAttempts - 1
  // times more if the creator's own late write of `queued` reset the count, and
  // once more for each failed send whose status write was dropped.
  lemma SendBound(maxAttempts: int, run: seq<Action>, id: Id)
    ensures var log := After(maxAttempts, run).log; var cap := Cap(maxAttempts);
      SendsLogged(log, id) <= cap + (if Late(log, id) then cap - 1 else 0) + LostOf(log, id)
  {
    hide Account, KeysInv;
    var _ := ReachableBound(maxAttempts, run);
    assert IdBound(maxAttempts, After(maxAttempts, run), id);
  }
}
