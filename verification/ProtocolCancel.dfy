// When a cancel writes over a status that cannot be cancelled. It reads the row
// first and writes it last, so in between a token of the notification can take it
// to sending, delivered or failed; without such a token it never happens.

module ProtocolCancel {
  import opened Domain
  import opened Protocol
  import opened ProtocolTokens
  import opened ProtocolEnds
  import opened ProtocolKeys
  import opened ProtocolEvents
  import opened ProtocolBound
  import opened ProtocolRuns
  import opened ProtocolCalm
  import DS = DelayedSet

  // The statuses from which the notifier says nothing is cancelled.
  predicate Beyond(status: Status) {
    status.Sending? || status.Delivered? || status.Failed?
  }

  // A worker that has made its last write.
  predicate Finished(pc: Thread) {
    pc.Working? && (pc.work.PublishDelivered? || pc.work.PublishFailed?)
  }

  // No token of id is stored, and none is in a hand that can still use it.
  ghost predicate NoLiveToken(s: State, id: Id) {
    NotStored(s, id) && forall t :: t in s.threads && Held(s.threads[t]) == Some(id) ==> Finished(s.threads[t])
  }

  // If thread u is about to write `cancelled`, the row can still be cancelled or is
  // cancelled already.
  ghost predicate LandsWell(s: State, u: ThreadId, id: Id) {
    u in s.threads && s.threads[u].Cancelling? && s.threads[u].id == id && s.threads[u].cancel.MarkCancelled? ==>
      id in s.rows && !Beyond(s.rows[id].status)
  }

  // ---- without a live token ----

  ghost predicate Unworked(s: State, id: Id) {
    id in s.issued && id in s.rows && !Beyond(s.rows[id].status) && NoLiveToken(s, id)
  }

  predicate Unharmed(turn: Turn, id: Id) {
    var c := turn.command;
    && (Held(turn.next) == Some(id) ==> Finished(turn.next))
    && !Stores(c, id) && (c.InsertRow? ==> c.id != id)
    && (c.UpdateRow? && c.id == id ==> !Beyond(c.status))
  }

  lemma UnworkedWorker(maxAttempts: int, s: State, item: QueueItem, at: WorkPoint, c: Choice, id: Id)
    requires item.id == id ==> Finished(Working(item, at))
    ensures Unharmed(WorkerTurn(maxAttempts, s, item, at, c), id)
  {
  }

  lemma UnworkedCreator(s: State, t: ThreadId, req: Request, at: CreatePoint, c: Choice, id: Id)
    requires id in s.issued && Held(Creating(req, at)) != Some(id)
    ensures Unharmed(CreatorTurn(s, t, req, at, c), id)
  {
    hide KeyTaken;
  }

  lemma UnworkedOther(maxAttempts: int, s: State, a: Action, id: Id)
    requires Unworked(s, id) && !a.ExpireKey?
    requires a.t in s.threads && a.Advance? ==> !s.threads[a.t].Creating? && !s.threads[a.t].Working?
    ensures Unharmed(TurnOf(maxAttempts, s, a), id)
  {
    hide Lists, KeyTaken, WorkerTurn, CreatorTurn;
    if a.t in s.threads {
      assert Held(s.threads[a.t]) == Some(id) ==> Finished(s.threads[a.t]);
    }
  }

  lemma UnworkedTurn(maxAttempts: int, s: State, a: Action, id: Id)
    requires Unworked(s, id) && !a.ExpireKey?
    ensures Unharmed(TurnOf(maxAttempts, s, a), id)
  {
    hide WorkerTurn, CreatorTurn, PromoterTurn, CancellerTurn, FirstTurn, Unharmed, NotStored, Beyond;
    if a.t in s.threads && a.Advance? && s.threads[a.t].Working? {
      assert Held(s.threads[a.t]) == Some(id) ==> Finished(s.threads[a.t]);
      UnworkedWorker(maxAttempts, s, s.threads[a.t].item, s.threads[a.t].work, a.c, id);
    } else if a.t in s.threads && a.Advance? && s.threads[a.t].Creating? {
      assert Held(s.threads[a.t]) == Some(id) ==> Finished(s.threads[a.t]);
      UnworkedCreator(s, a.t, s.threads[a.t].req, s.threads[a.t].create, a.c, id);
    } else {
      UnworkedOther(maxAttempts, s, a, id);
    }
  }

  lemma RowStays(s: State, c: Command, id: Id)
    requires id in s.rows && !Beyond(s.rows[id].status) && (c.InsertRow? ==> c.id != id)
    requires c.UpdateRow? && c.id == id ==> !Beyond(c.status)
    ensures id in Exec(s, c).rows && !Beyond(Exec(s, c).rows[id].status)
  {
    hide QueueAfter, MembersAfter, LogAfter, Beyond;
  }

  lemma StaysOut(s: State, c: Command, id: Id)
    requires NotStored(s, id) && !Stores(c, id)
    ensures NotStored(Exec(s, c), id)
  {
    hide Exec;
    StoredAfter(s, c);
  }

  lemma NextUnworked(maxAttempts: int, s: State, a: Action, id: Id)
    requires Unworked(s, id)
    ensures Unworked(Next(maxAttempts, s, a), id)
  {
    hide TurnOf, Beyond, Exec, NotStored, Stores;
    if a.ExpireKey? {
      SameStored(s, Next(maxAttempts, s, a), id);
    } else {
      var turn := TurnOf(maxAttempts, s, a);
      UnworkedTurn(maxAttempts, s, a, id);
      StaysOut(s, turn.command, id);
      RowStays(s, turn.command, id);
      StoredAfter(s, turn.command);
      ThreadsUntouched(s, turn.command);
      SameStored(Exec(s, turn.command), Next(maxAttempts, s, a), id);
    }
  }

  lemma SameStored(s: State, s': State, id: Id)
    requires s'.queue == s.queue && s'.retry == s.retry && s'.scheduled == s.scheduled
    ensures NotStored(s', id) == NotStored(s, id)
  {
  }

  lemma {:induction false} ActsUnworked(maxAttempts: int, s: State, actions: seq<Action>, id: Id)
    requires Unworked(s, id)
    ensures Unworked(Acts(maxAttempts, s, actions), id)
    decreases |actions|
  {
    hide Next, Unworked;
    if actions != [] {
      ActsUnworked(maxAttempts, s, actions[..|actions| - 1], id);
      NextUnworked(maxAttempts, Acts(maxAttempts, s, actions[..|actions| - 1]), actions[|actions| - 1], id);
    }
  }

  // ---- priorities ----

  ghost predicate Served(queue: multiset<QueueItem>, retry: map<QueueItem, int>, scheduled: map<QueueItem, int>) {
    && (forall x :: x in queue ==> ValidPriority(x.priority))
    && (forall x :: x in retry ==> ValidPriority(x.priority))
    && (forall x :: x in scheduled ==> ValidPriority(x.priority))
  }

  predicate ServedThread(pc: Thread) {
    match pc
    case Creating(req, _) => Held(pc).Some? ==> ValidPriority(req.priority)
    case Working(item, _) => ValidPriority(item.priority)
    case Promoting(_, hand, _) => hand.Some? ==> ValidPriority(hand.value.priority)
    case _ => true
  }

  // Every token has a priority that is served.
  ghost predicate ServedInv(s: State) {
    Served(s.queue, s.retry, s.scheduled) && forall t :: t in s.threads ==> ServedThread(s.threads[t])
  }

  lemma ServedTurn(maxAttempts: int, s: State, a: Action)
    requires ServedInv(s) && !a.ExpireKey?
    ensures var turn := TurnOf(maxAttempts, s, a); var c := turn.command;
      ServedThread(turn.next) && (c.Push? || c.Add? ==> ValidPriority(c.item.priority))
  {
    hide Lists, KeyTaken, ValidPriority;
    if a.t in s.threads {
      assert ServedThread(s.threads[a.t]);
    }
  }

  lemma NextServed(maxAttempts: int, s: State, a: Action)
    requires ServedInv(s)
    ensures ServedInv(Next(maxAttempts, s, a))
  {
    hide TurnOf, ValidPriority, ServedThread, Exec;
    if !a.ExpireKey? {
      var turn := TurnOf(maxAttempts, s, a);
      ServedTurn(maxAttempts, s, a);
      StoredAfter(s, turn.command);
      ThreadsUntouched(s, turn.command);
    }
  }

  lemma {:induction false} ReachableServed(maxAttempts: int, run: seq<Action>)
    ensures ServedInv(After(maxAttempts, run))
  {
    hide Next, Served, ServedThread;
    if run == [] {
      NoneServed();
    } else {
      ReachableServed(maxAttempts, run[..|run| - 1]);
      NextServed(maxAttempts, After(maxAttempts, run[..|run| - 1]), run[|run| - 1]);
    }
  }

  lemma NoneServed()
    ensures ServedInv(INIT)
  {
  }

  // ---- from a live token ----

  // What the runs below reach: the row is beyond cancelling, and thread u is where it was.
  ghost predicate Overtaken(s: State, u: ThreadId, pc: Thread, id: Id) {
    id in s.rows && Beyond(s.rows[id].status) && u in s.threads && s.threads[u] == pc
  }

  // The row can still be cancelled, and u is a canceller.
  ghost predicate Open(s: State, u: ThreadId, pc: Thread, id: Id) {
    && id in s.rows && s.rows[id].status.Cancellable()
    && u in s.threads && s.threads[u] == pc && pc.Cancelling?
  }

  // All members of a set, each once, and a time at which all are due.
  lemma {:induction false} AllDue(m: map<QueueItem, int>) returns (listing: seq<QueueItem>, now: int)
    ensures Distinct(listing) && (forall x :: x in m <==> x in listing)
    ensures forall x :: x in m ==> m[x] <= DS.Unix(now)
    decreases m
  {
    if m == map[] {
      listing, now := [], 0;
    } else {
      var x :| x in m;
      var rest, later := AllDue(m - {x});
      listing := [x] + rest;
      now := Max(later, m[x] * DS.SECOND);
      assert forall y :: y in m ==> y == x || (y in m - {x} && (m - {x})[y] == m[y]);
    }
  }

  // A promoter can move everything in a set to the queue.
  lemma PromoteEverything(m: int, s: State, src: Delayed, x: QueueItem)
    returns (t: ThreadId, actions: seq<Action>)
    requires x in Members(s, src)
    ensures t !in s.threads
    ensures var s' := Acts(m, s, actions);
      && x in s'.queue && s'.rows == s.rows && s'.log == s.log && s'.threads == s.threads[t := Stopped]
  {
    hide Acts, Next, PromotedState;
    var listing, now := AllDue(Members(s, src));
    t := FreshThread(s.threads);
    var begin := BeginPromote(t, src, Choice(true, "", now, listing));
    PromoteBegins(m, s, t, src, now, listing);
    OneAct(m, s, begin);
    var s1 := Acts(m, s, [begin]);
    assert Members(s1, src) == Members(s, src);
    var rest := PromoteAlone(m, s1, t, src, listing);
    actions := [begin] + rest;
    ActsAppend(m, s, [begin], rest);
    SamePromoted(s, t, src, listing);
    PromotedParts(s, t, src, listing, x);
  }

  lemma PromotedParts(s: State, t: ThreadId, src: Delayed, items: seq<QueueItem>, x: QueueItem)
    requires x in items
    ensures var s' := PromotedState(s, t, src, items);
      x in s'.queue && s'.rows == s.rows && s'.log == s.log && s'.threads == s.threads[t := Stopped]
  {
    hide Minus;
  }

  lemma FetchRuns(m: int, s: State, t: ThreadId, x: QueueItem, u: ThreadId, pc: Thread) returns (actions: seq<Action>)
    requires Open(s, u, pc, x.id) && t in s.threads && s.threads[t] == Working(x, Fetch)
    ensures Overtaken(Acts(m, s, actions), u, pc, x.id)
  {
    hide Acts, Turns;
    var a := Advance(t, YES);
    var row := s.rows[x.id];
    assert Next(m, s, a) == s.(threads := s.threads[t := Working(x, Throttle(row))]);
    OneAct(m, s, a);
    hide Next;
    var s1 := Acts(m, s, [a]);
    TurnsToDelivered(m, row);
    var rest := WorkerWrites(m, s1, t, x, Throttle(row), Delivered);
    actions := [a] + rest;
    ActsAppend(m, s, [a], rest);
  }

  lemma TurnsToDelivered(m: int, row: Row)
    ensures Turns(m, Throttle(row), Delivered) > 0
  {
  }

  lemma QueueRuns(m: int, s: State, x: QueueItem, u: ThreadId, pc: Thread) returns (actions: seq<Action>)
    requires Open(s, u, pc, x.id) && x in s.queue && ValidPriority(x.priority)
    ensures Overtaken(Acts(m, s, actions), u, pc, x.id)
  {
    hide Acts, ValidPriority;
    var t := FreshThread(s.threads);
    var begin := BeginWork(t, x);
    assert Next(m, s, begin) == s.(queue := s.queue - multiset{x}, threads := s.threads[t := Working(x, Fetch)]);
    OneAct(m, s, begin);
    hide Next;
    var rest := FetchRuns(m, Acts(m, s, [begin]), t, x, u, pc);
    actions := [begin] + rest;
    ActsAppend(m, s, [begin], rest);
  }

  lemma SetRuns(m: int, s: State, src: Delayed, x: QueueItem, u: ThreadId, pc: Thread) returns (actions: seq<Action>)
    requires Open(s, u, pc, x.id) && x in Members(s, src) && ValidPriority(x.priority)
    ensures Overtaken(Acts(m, s, actions), u, pc, x.id)
  {
    hide Acts, ValidPriority;
    var t, promote := PromoteEverything(m, s, src, x);
    var rest := QueueRuns(m, Acts(m, s, promote), x, u, pc);
    actions := promote + rest;
    ActsAppend(m, s, promote, rest);
  }

  // A worker that is about to put its item back.
  lemma RetryRuns(m: int, s: State, t: ThreadId, x: QueueItem, at: WorkPoint, u: ThreadId, pc: Thread)
    returns (actions: seq<Action>)
    requires Open(s, u, pc, x.id) && t in s.threads && s.threads[t] == Working(x, at) && ValidPriority(x.priority)
    requires at.Requeue? || at.ScheduleRetry?
    ensures Overtaken(Acts(m, s, actions), u, pc, x.id)
  {
    hide Acts, ValidPriority;
    var a := Advance(t, YES);
    OneAct(m, s, a);
    var s1 := Next(m, s, a);
    assert x in Members(s1, RetrySet) && s1.rows == s.rows && s1.threads == s.threads[t := Stopped];
    hide Next;
    var rest := SetRuns(m, s1, RetrySet, x, u, pc);
    actions := [a] + rest;
    ActsAppend(m, s, [a], rest);
  }

  lemma WorkerRuns(m: int, s: State, t: ThreadId, x: QueueItem, at: WorkPoint, u: ThreadId, pc: Thread)
    returns (actions: seq<Action>)
    requires Open(s, u, pc, x.id) && t in s.threads && s.threads[t] == Working(x, at) && ValidPriority(x.priority)
    requires !at.PublishDelivered? && !at.PublishFailed?
    ensures Overtaken(Acts(m, s, actions), u, pc, x.id)
  {
    hide Acts, ValidPriority;
    if at.Fetch? {
      actions := FetchRuns(m, s, t, x, u, pc);
    } else if at.Requeue? || at.ScheduleRetry? {
      actions := RetryRuns(m, s, t, x, at, u, pc);
    } else if Turns(m, at, Delivered) > 0 {
      actions := WorkerWrites(m, s, t, x, at, Delivered);
    } else if Turns(m, at, Failed) > 0 {
      actions := WorkerWrites(m, s, t, x, at, Failed);
    } else {
      var write := WorkerWrites(m, s, t, x, at, Queued);
      var rest := RetryRuns(m, Acts(m, s, write), t, x, ScheduleRetry, u, pc);
      actions := write + rest;
      ActsAppend(m, s, write, rest);
    }
  }

  lemma PromoterRuns(m: int, s: State, t: ThreadId, u: ThreadId, pc: Thread) returns (actions: seq<Action>)
    requires t in s.threads && s.threads[t].Promoting? && s.threads[t].hand.Some?
    requires ValidPriority(s.threads[t].hand.value.priority) && Open(s, u, pc, s.threads[t].hand.value.id)
    ensures Overtaken(Acts(m, s, actions), u, pc, s.threads[t].hand.value.id)
  {
    hide Acts, ValidPriority;
    var x, a := s.threads[t].hand.value, Advance(t, YES);
    OneAct(m, s, a);
    var s1 := Next(m, s, a);
    assert x in s1.queue && s1.rows == s.rows && s1.threads == s.threads[t := s1.threads[t]];
    hide Next;
    var rest := QueueRuns(m, s1, x, u, pc);
    actions := [a] + rest;
    ActsAppend(m, s, [a], rest);
  }

  lemma CreatorRuns(m: int, s: State, t: ThreadId, req: Request, id: Id, now: int, u: ThreadId, pc: Thread)
    returns (actions: seq<Action>)
    requires t in s.threads && s.threads[t] == Creating(req, Handover(id, now)) && ValidPriority(req.priority)
    requires Open(s, u, pc, id)
    ensures Overtaken(Acts(m, s, actions), u, pc, id)
  {
    hide Acts, ValidPriority, Next;
    var x, a := QueueItem(id, req.priority), Advance(t, YES);
    OneAct(m, s, a);
    HandoverIs(m, s, t, req, id, now);
    var s1 := Acts(m, s, [a]);
    var rest;
    if Later(req, now) {
      rest := SetRuns(m, s1, ScheduledSet, x, u, pc);
    } else {
      rest := QueueRuns(m, s1, x, u, pc);
    }
    actions := [a] + rest;
    ActsAppend(m, s, [a], rest);
  }

  // A live token can take its notification beyond cancelling.
  lemma TokenRuns(m: int, s: State, id: Id, u: ThreadId, pc: Thread) returns (actions: seq<Action>)
    requires KeysInv(s) && ServedInv(s) && Open(s, u, pc, id) && !NoLiveToken(s, id)
    ensures Overtaken(Acts(m, s, actions), u, pc, id)
  {
    hide Acts, ValidPriority, Overtaken, Open;
    if x :| x in s.queue && x.id == id {
      actions := QueueRuns(m, s, x, u, pc);
    } else if x :| x in s.retry && x.id == id {
      actions := SetRuns(m, s, RetrySet, x, u, pc);
    } else if x :| x in s.scheduled && x.id == id {
      actions := SetRuns(m, s, ScheduledSet, x, u, pc);
    } else {
      var t :| t in s.threads && Held(s.threads[t]) == Some(id) && !Finished(s.threads[t]);
      assert ServedThread(s.threads[t]) && ThreadKeyed(s.rows, s.issued, t, s.threads[t]);
      OpenRow(s, u, pc, id);
      match s.threads[t] {
        case Creating(req, at) => actions := CreatorRuns(m, s, t, req, id, at.now, u, pc);
        case Working(x, at) => actions := WorkerRuns(m, s, t, x, at, u, pc);
        case Promoting(_, _, _) => actions := PromoterRuns(m, s, t, u, pc);
      }
    }
  }

  lemma OpenRow(s: State, u: ThreadId, pc: Thread, id: Id)
    requires Open(s, u, pc, id)
    ensures id in s.rows
  {
  }

  // ---- the cancel ----

  // A canceller comes to its write, whatever else happens to its removals.
  lemma ComesToWrite(m: int, s: State, u: ThreadId, id: Id, k: nat, lists: seq<Priority>) returns (actions: seq<Action>)
    requires u in s.threads && s.threads[u] == Cancelling(id, k, PurgeQueue(lists))
    ensures TurnsOf(actions, u)
    ensures var s' := Acts(m, s, actions);
      s'.rows == s.rows && s'.threads == s.threads[u := Cancelling(id, k, MarkCancelled)]
  {
    hide Acts, Purged;
    var purge := PurgeAlone(m, s, u, id, k, lists);
    var s1, a := Acts(m, s, purge), Advance(u, NO);
    OneAct(m, s1, a);
    actions := purge + [a];
    ActsAppend(m, s, purge, [a]);
  }

  // After a cancel has read a row that can be cancelled, some run has it write over
  // `sending`, `delivered` or `failed` if and only if the notification had a live
  // token when the row was read.
  lemma CancelsOnlyFromCancellable(maxAttempts: int, run: seq<Action>, u: ThreadId, id: Id)
    requires var s := After(maxAttempts, run);
      id in s.rows && s.rows[id].status.Cancellable() && u !in s.threads
    ensures (forall more :: LandsWell(After(maxAttempts, run + [BeginCancel(u, id)] + more), u, id)) <==>
            NoLiveToken(After(maxAttempts, run), id)
  {
    hide After, Acts, Next, NoLiveToken, LandsWell;
    var s, begun := After(maxAttempts, run), run + [BeginCancel(u, id)];
    var s0 := After(maxAttempts, begun);
    Step(maxAttempts, run, BeginCancel(u, id));
    CancelBegins(maxAttempts, s, u, id);
    ReachableKeys(maxAttempts, run);
    SameTokens(s, s0, u, id);
    if NoLiveToken(s, id) {
      forall more ensures LandsWell(After(maxAttempts, begun + more), u, id) {
        AfterActs(maxAttempts, begun, more);
        ActsUnworked(maxAttempts, s0, more, id);
        UnworkedLands(Acts(maxAttempts, s0, more), u, id);
      }
    } else {
      ReachableKeys(maxAttempts, begun);
      ReachableServed(maxAttempts, begun);
      var pc := s0.threads[u];
      var work := TokenRuns(maxAttempts, s0, id, u, pc);
      var s1 := Acts(maxAttempts, s0, work);
      var come := ComesToWrite(maxAttempts, s1, u, id, s.rows[id].attempts, [HIGH, NORMAL, LOW]);
      ActsAppend(maxAttempts, s0, work, come);
      AfterActs(maxAttempts, begun, work + come);
      LandsBadly(After(maxAttempts, begun + (work + come)), u, id);
    }
  }

  lemma SameTokens(s: State, s': State, u: ThreadId, id: Id)
    requires u !in s.threads && u in s'.threads && Held(s'.threads[u]) == None
    requires s' == s.(threads := s.threads[u := s'.threads[u]])
    ensures NoLiveToken(s', id) == NoLiveToken(s, id)
  {
    if NoLiveToken(s', id) {
      forall t | t in s.threads && Held(s.threads[t]) == Some(id) ensures Finished(s.threads[t]) {
        assert t in s'.threads && s'.threads[t] == s.threads[t];
      }
    }
  }

  lemma UnworkedLands(s: State, u: ThreadId, id: Id)
    requires Unworked(s, id)
    ensures LandsWell(s, u, id)
  {
  }

  lemma LandsBadly(s: State, u: ThreadId, id: Id)
    requires id in s.rows && Beyond(s.rows[id].status) && u in s.threads
    requires s.threads[u].Cancelling? && s.threads[u].id == id && s.threads[u].cancel.MarkCancelled?
    ensures !LandsWell(s, u, id)
  {
  }

  // In particular a worker that has fetched a row that can be cancelled takes it to
  // any of the three in the middle of a cancel, which then writes `cancelled` over
  // it and returns without an error.
  lemma CancelOverwrites(maxAttempts: int, run: seq<Action>, t: ThreadId, u: ThreadId, item: QueueItem, row: Row,
                         outcome: Status)
    returns (work: seq<Action>, write: seq<Action>)
    requires var s := After(maxAttempts, run);
      && t in s.threads && s.threads[t] == Working(item, Throttle(row)) && u !in s.threads
      && item.id in s.rows && s.rows[item.id].status.Cancellable()
    requires Beyond(outcome) && (outcome == Failed ==> row.attempts + 1 >= maxAttempts)
    ensures TurnsOf(work, t)
    ensures var begun := run + [BeginCancel(u, item.id)];
      var s, s' := After(maxAttempts, begun + work), After(maxAttempts, begun + work + write);
      && item.id in s.rows && s.rows[item.id].status == outcome
      && item.id in s'.rows && s'.rows[item.id].status == Cancelled
      && u in s'.threads && s'.threads[u].Cancelling? && s'.threads[u].cancel.CancelReturned?
  {
    hide After, Acts, Next;
    var s, begun := After(maxAttempts, run), run + [BeginCancel(u, item.id)];
    Step(maxAttempts, run, BeginCancel(u, item.id));
    CancelBegins(maxAttempts, s, u, item.id);
    var s0 := After(maxAttempts, begun);
    work := WorkerWrites(maxAttempts, s0, t, item, Throttle(row), outcome);
    AfterActs(maxAttempts, begun, work);
    write := CancelReturns(maxAttempts, begun + work, u, item.id, s.rows[item.id].attempts, PurgeQueue([HIGH,
        NORMAL, LOW]));
  }
}
