// Why an unsettled notification can be left without a token that leads anywhere when
// commands interleave: a cancel has taken it, a worker's last write or its putting the
// item back was dropped, or the creator wrote `queued` too late. Nothing else does it.

module ProtocolCauses {
  import opened Domain
  import opened Protocol
  import opened ProtocolTokens
  import opened ProtocolEnds
  import opened ProtocolKeys
  import opened ProtocolEvents
  import opened ProtocolBound
  import opened ProtocolCancel
  import opened ProtocolLoss

  // The steps after which an unsettled row may have no live token.
  ghost predicate Harms(maxAttempts: int, s: State, a: Action, id: Id) {
    a.Advance? && a.t in s.threads &&
    match s.threads[a.t]
    case Cancelling(_, _, _) => Purges(s, TurnOf(maxAttempts, s, a).command, s.threads[a.t], id)
    case Working(item, at) => item.id == id && !a.c.ok && (at.Requeue? || at.MarkDelivered? || at.MarkFailed?)
    case Creating(_, at) => at == MarkQueued(id) && NoLiveToken(s, id)
    case _ => false
  }

  // A token of id that can still be used.
  ghost predicate Live(s: State, id: Id) {
    !NoLiveToken(s, id)
  }

  ghost predicate Cared(s: State, id: Id) {
    id in s.rows && !s.rows[id].status.Settled() ==> Live(s, id)
  }

  // ---- turns that have nothing to do with id ----

  // Neither before nor after the turn does its thread hold id, and its command takes
  // no item of id out of a store or puts one into it.
  ghost predicate Elsewhere(s: State, t: ThreadId, turn: Turn, id: Id) {
    var c := turn.command;
    && HeldBy(s, t) != Some(id) && Held(turn.next) != Some(id)
    && (c.Push? || c.Add? || c.Pop? || c.Remove? || c.Purge? ==>
          c.item.id != id || (c.Purge? && c.item !in s.queue) || (c.Remove? && c.item !in Members(s, c.src)))
  }

  lemma StoredElsewhere(s: State, t: ThreadId, turn: Turn, id: Id)
    requires Elsewhere(s, t, turn, id)
    ensures Stored(Result(s, t, turn), id) == Stored(s, id)
  {
    hide Exec, Result, QueueAfter, MembersAfter;
    var c := turn.command;
    ResultStores(s, t, turn);
    if c.Purge? && c.item !in s.queue {
      PurgeNothing(s.queue, c);
      SameMembers(s, c);
    } else if c.Remove? && c.item !in Members(s, c.src) {
      RemoveNothing(s, c);
    } else if c.Push? || c.Add? || c.Pop? || c.Remove? || c.Purge? {
      OtherItem(s, t, turn, id);
    } else {
      StoredAlike(s, t, turn, id);
    }
  }

  lemma PurgeNothing(queue: multiset<QueueItem>, c: Command)
    requires c.Purge? && c.item !in queue
    ensures QueueAfter(queue, c) == queue
  {
  }

  lemma SameMembers(s: State, c: Command)
    requires c.Purge?
    ensures MembersAfter(s.retry, RetrySet, c) == s.retry && MembersAfter(s.scheduled, ScheduledSet, c) == s.scheduled
  {
  }

  lemma RemoveNothing(s: State, c: Command)
    requires c.Remove? && c.item !in Members(s, c.src)
    ensures QueueAfter(s.queue, c) == s.queue
    ensures MembersAfter(s.retry, RetrySet, c) == s.retry && MembersAfter(s.scheduled, ScheduledSet, c) == s.scheduled
  {
  }

  // Other threads hold on to what they have.
  lemma OthersHold(s: State, t: ThreadId, turn: Turn, u: ThreadId)
    requires u != t && u in s.threads
    ensures u in Result(s, t, turn).threads && Result(s, t, turn).threads[u] == s.threads[u]
  {
    ThreadsUntouched(s, turn.command);
  }

  lemma LiveElsewhere(s: State, t: ThreadId, turn: Turn, id: Id)
    requires Elsewhere(s, t, turn, id) && Live(s, id)
    ensures Live(Result(s, t, turn), id)
  {
    hide Exec, Result, NotStored;
    StoredElsewhere(s, t, turn, id);
    if NotStored(s, id) {
      var u :| u in s.threads && Held(s.threads[u]) == Some(id) && !Finished(s.threads[u]);
      OthersHold(s, t, turn, u);
    }
  }

  lemma LiveInHand(s: State, t: ThreadId, turn: Turn, id: Id)
    requires Held(turn.next) == Some(id) && !Finished(turn.next)
    ensures Live(Result(s, t, turn), id)
  {
    assert Result(s, t, turn).threads[t] == turn.next;
  }

  lemma LiveStored(s: State, t: ThreadId, turn: Turn, id: Id)
    requires (turn.command.Push? || turn.command.Add?) && turn.command.item.id == id
    ensures Live(Result(s, t, turn), id)
  {
    var s', c := Result(s, t, turn), turn.command;
    assert if c.Push? then c.item in s'.queue else c.item in Members(s', c.dst);
  }

  // The row of id after a turn.
  lemma RowAfterTurn(s: State, t: ThreadId, turn: Turn, id: Id)
    ensures Result(s, t, turn).rows == RowsAfter(s.rows, turn.command)
  {
    hide RowsAfter, QueueAfter, MembersAfter, LogAfter;
  }

  // ---- each kind of thread ----

  // What a worker's turn on its own id comes to.
  lemma WorkerCares(maxAttempts: int, s: State, item: QueueItem, at: WorkPoint, c: Choice)
    requires at.Fetch? || at.Requeue? || item.id in s.rows
    requires at.Requeue? || at.MarkDelivered? || at.MarkFailed? ==> c.ok
    ensures var turn := WorkerTurn(maxAttempts, s, item, at, c); var rows := RowsAfter(s.rows, turn.command);
      || (Held(turn.next) == Some(item.id) && !Finished(turn.next))
      || ((turn.command.Push? || turn.command.Add?) && turn.command.item.id == item.id)
      || (item.id in rows ==> rows[item.id].status.Settled())
      || (Finished(Working(item, at)) && rows == s.rows)
  {
  }

  lemma WorkerTurnCares(maxAttempts: int, s: State, a: Action, id: Id, loc: map<Id, Place>)
    requires Owns(s, loc) && KeysInv(s) && Cared(s, id) && !Harms(maxAttempts, s, a, id)
    requires a.Advance? && a.t in s.threads && s.threads[a.t].Working? && s.threads[a.t].item.id == id
    ensures Cared(Result(s, a.t, TurnOf(maxAttempts, s, a)), id)
  {
    hide Account, KeysInv, WorkerTurn, RowsAfter, Result, NoLiveToken, Finished;
    var pc := s.threads[a.t];
    WorkerRow(s, a.t, pc.item, pc.work);
    WorkingTurn(maxAttempts, s, a);
    WorkerCares(maxAttempts, s, pc.item, pc.work, a.c);
    var turn := WorkerTurn(maxAttempts, s, pc.item, pc.work, a.c);
    RowAfterTurn(s, a.t, turn, id);
    if Held(turn.next) == Some(id) && !Finished(turn.next) {
      LiveInHand(s, a.t, turn, id);
    } else if (turn.command.Push? || turn.command.Add?) && turn.command.item.id == id {
      LiveStored(s, a.t, turn, id);
    } else if Finished(pc) {
      HolderIsAlone(s, a.t, id, loc);
      OnlyFinished(s, a.t, id);
    }
  }

  // A token whose only place is a worker that has made its last write is not live.
  lemma OnlyFinished(s: State, t: ThreadId, id: Id)
    requires NotStored(s, id) && t in s.threads && Finished(s.threads[t])
    requires forall u :: u in s.threads && Held(s.threads[u]) == Some(id) ==> u == t
    ensures NoLiveToken(s, id)
  {
  }

  // What a creator's turn on the id it holds comes to.
  lemma CreatorCares(s: State, t: ThreadId, req: Request, at: CreatePoint, c: Choice, id: Id)
    requires Held(Creating(req, at)) == Some(id) && (at.Claim? || at.Insert? ==> id !in s.rows)
    ensures var turn := CreatorTurn(s, t, req, at, c);
      || (Held(turn.next) == Some(id) && !Finished(turn.next))
      || (turn.command.Push? && turn.command.item.id == id)
      || (turn.command.Add? && turn.command.item.id == id)
      || id !in RowsAfter(s.rows, turn.command)
  {
    hide KeyTaken;
  }

  lemma CreatorTurnCares(maxAttempts: int, s: State, a: Action, id: Id)
    requires KeysInv(s) && a.Advance? && a.t in s.threads && s.threads[a.t].Creating?
    requires Held(s.threads[a.t]) == Some(id)
    ensures Cared(Result(s, a.t, TurnOf(maxAttempts, s, a)), id)
  {
    hide CreatorTurn, RowsAfter, Result, NoLiveToken, Finished;
    var pc := s.threads[a.t];
    assert ThreadKeyed(s.rows, s.issued, a.t, pc);
    CreatorCares(s, a.t, pc.req, pc.create, a.c, id);
    var turn := CreatorTurn(s, a.t, pc.req, pc.create, a.c);
    RowAfterTurn(s, a.t, turn, id);
    if Held(turn.next) == Some(id) && !Finished(turn.next) {
      LiveInHand(s, a.t, turn, id);
    } else if (turn.command.Push? || turn.command.Add?) && turn.command.item.id == id {
      LiveStored(s, a.t, turn, id);
    }
  }

  // Every other turn takes the id's token up, puts it down, or leaves it alone.
  ghost predicate OtherTurn(s: State, t: ThreadId, turn: Turn, id: Id) {
    || (Held(turn.next) == Some(id) && !Finished(turn.next))
    || ((turn.command.Push? || turn.command.Add?) && turn.command.item.id == id)
    || (Elsewhere(s, t, turn, id) && WritesLittle(s, turn.command, id))
  }

  // The row is left alone, or settled, or written by a creator that does no harm.
  ghost predicate WritesLittle(s: State, c: Command, id: Id) {
    && (c.InsertRow? ==> c.id != id)
    && (c.UpdateRow? && c.id == id ==> c.status.Settled() || Live(s, id))
  }

  lemma CreatorElsewhere(s: State, t: ThreadId, req: Request, at: CreatePoint, c: Choice, id: Id)
    requires t in s.threads && s.threads[t] == Creating(req, at) && id in s.issued && id in s.rows
    requires Held(Creating(req, at)) != Some(id) && (at == MarkQueued(id) ==> Live(s, id))
    ensures OtherTurn(s, t, CreatorTurn(s, t, req, at, c), id)
  {
    hide KeyTaken, NoLiveToken;
  }

  lemma WorkerElsewhere(maxAttempts: int, s: State, t: ThreadId, item: QueueItem, at: WorkPoint, c: Choice, id: Id)
    requires t in s.threads && s.threads[t] == Working(item, at) && item.id != id
    ensures OtherTurn(s, t, WorkerTurn(maxAttempts, s, item, at, c), id)
  {
    hide NoLiveToken;
  }

  lemma OthersElsewhere(maxAttempts: int, s: State, a: Action, id: Id)
    requires !a.ExpireKey? && id in s.issued && id in s.rows && !Harms(maxAttempts, s, a, id)
    requires !a.Advance? && a.t in s.threads ==> HeldBy(s, a.t) != Some(id)
    requires a.Advance? && a.t in s.threads ==> !s.threads[a.t].Working? && !s.threads[a.t].Creating?
    ensures OtherTurn(s, a.t, TurnOf(maxAttempts, s, a), id)
  {
    hide Lists, KeyTaken, NoLiveToken, WorkerTurn, CreatorTurn;
  }

  // ---- one step ----

  lemma OtherTurnCares(s: State, t: ThreadId, turn: Turn, id: Id)
    requires Cared(s, id) && id in s.rows && OtherTurn(s, t, turn, id)
    ensures Cared(Result(s, t, turn), id)
  {
    hide Result, NoLiveToken, Elsewhere;
    RowAfterTurn(s, t, turn, id);
    if Held(turn.next) == Some(id) && !Finished(turn.next) {
      LiveInHand(s, t, turn, id);
    } else if (turn.command.Push? || turn.command.Add?) && turn.command.item.id == id {
      LiveStored(s, t, turn, id);
    } else if Live(s, id) {
      LiveElsewhere(s, t, turn, id);
    }
  }

  // A row that is new has its creator.
  lemma NewRowCared(maxAttempts: int, s: State, a: Action, id: Id)
    requires !a.ExpireKey? && id !in s.rows
    ensures Cared(Result(s, a.t, TurnOf(maxAttempts, s, a)), id)
  {
    var turn := TurnOf(maxAttempts, s, a);
    RowAfterTurn(s, a.t, turn, id);
    InsertersHold(maxAttempts, s, a);
    hide TurnOf, Result, NoLiveToken, Finished;
    if turn.command.InsertRow? && turn.command.id == id {
      LiveInHand(s, a.t, turn, id);
    }
  }

  lemma InsertersHold(maxAttempts: int, s: State, a: Action)
    requires !a.ExpireKey?
    ensures var turn := TurnOf(maxAttempts, s, a);
      turn.command.InsertRow? ==> Held(turn.next) == Some(turn.command.id) && !Finished(turn.next)
  {
    hide Lists, KeyTaken;
  }

  lemma IdleCares(s: State, t: ThreadId, id: Id)
    requires t in s.threads && Cared(s, id)
    ensures Cared(Result(s, t, Turn(Idle, s.threads[t])), id)
  {
    assert s.threads[t := s.threads[t]] == s.threads;
  }

  lemma NextCared(maxAttempts: int, s: State, a: Action, id: Id, loc: map<Id, Place>)
    requires Owns(s, loc) && KeysInv(s) && Cared(s, id) && !Harms(maxAttempts, s, a, id)
    ensures Cared(Next(maxAttempts, s, a), id)
  {
    hide Account, WorkerTurn, CreatorTurn, PromoterTurn, CancellerTurn, FirstTurn, Exec, NoLiveToken, OtherTurn;
    if a.ExpireKey? {
      SameStored(s, Next(maxAttempts, s, a), id);
      KeysCareNot(s, Next(maxAttempts, s, a), id);
    } else if id !in s.rows {
      NewRowCared(maxAttempts, s, a, id);
    } else if !a.Advance? && a.t in s.threads {
      IdleCares(s, a.t, id);
    } else if a.Advance? && a.t in s.threads && s.threads[a.t].Working? {
      WorkingTurn(maxAttempts, s, a);
      if s.threads[a.t].item.id == id {
        WorkerTurnCares(maxAttempts, s, a, id, loc);
      } else {
        WorkerElsewhere(maxAttempts, s, a.t, s.threads[a.t].item, s.threads[a.t].work, a.c, id);
        OtherTurnCares(s, a.t, TurnOf(maxAttempts, s, a), id);
      }
    } else if a.Advance? && a.t in s.threads && s.threads[a.t].Creating? {
      if Held(s.threads[a.t]) == Some(id) {
        CreatorTurnCares(maxAttempts, s, a, id);
      } else {
        CreatorElsewhere(s, a.t, s.threads[a.t].req, s.threads[a.t].create, a.c, id);
        OtherTurnCares(s, a.t, TurnOf(maxAttempts, s, a), id);
      }
    } else {
      OthersElsewhere(maxAttempts, s, a, id);
      OtherTurnCares(s, a.t, TurnOf(maxAttempts, s, a), id);
    }
  }

  lemma KeysCareNot(s: State, s': State, id: Id)
    requires s' == s.(keys := s'.keys) && Cared(s, id)
    ensures Cared(s', id)
  {
  }

  // ---- and each of them does leave it without ----

  lemma LastTurn(maxAttempts: int, s: State, a: Action, id: Id)
    requires a.Advance? && a.t in s.threads && s.threads[a.t].Working? && Harms(maxAttempts, s, a, id)
    ensures var turn := TurnOf(maxAttempts, s, a);
      && (Quiet(turn.command) || turn.command.Generate?) && (Held(turn.next) == Some(id) ==> Finished(turn.next))
  {
  }

  lemma NothingLive(s: State, t: ThreadId, turn: Turn, id: Id)
    requires NotStored(s, id) && (Quiet(turn.command) || turn.command.Generate?)
    requires Held(turn.next) == Some(id) ==> Finished(turn.next)
    requires forall u :: u in s.threads && u != t && Held(s.threads[u]) == Some(id) ==> Finished(s.threads[u])
    ensures NoLiveToken(Result(s, t, turn), id)
  {
    StoredAlike(s, t, turn, id);
    ThreadsUntouched(s, turn.command);
    hide Exec, NotStored, Finished;
  }

  lemma LateTurn(maxAttempts: int, s: State, a: Action, id: Id)
    requires a.Advance? && a.t in s.threads && s.threads[a.t].Creating? && s.threads[a.t].create == MarkQueued(id)
    ensures var turn := TurnOf(maxAttempts, s, a); Quiet(turn.command) && Held(turn.next) == None
  {
    hide Lists, KeyTaken;
  }

  // After any of these steps the notification has no live token.
  lemma HarmLeavesNone(maxAttempts: int, s: State, a: Action, id: Id, loc: map<Id, Place>)
    requires Owns(s, loc) && id in s.issued && Harms(maxAttempts, s, a, id)
    ensures NoLiveToken(Next(maxAttempts, s, a), id)
  {
    var turn := TurnOf(maxAttempts, s, a);
    match s.threads[a.t] {
      case Cancelling(_, _, _) =>
        hide Account, TurnOf, Purges, LetsGo, Exec, NotStored, Finished;
        assert Loses(maxAttempts, s, a, id);
        NextKeepsToken(maxAttempts, s, a, id, loc);
      case Working(_, _) =>
        LastTurn(maxAttempts, s, a, id);
        HolderIsAlone(s, a.t, id, loc);
        hide Account, TurnOf, Exec, NotStored, Finished, Harms;
        NothingLive(s, a.t, turn, id);
      case Creating(_, _) =>
        LateTurn(maxAttempts, s, a, id);
        hide Account, TurnOf, Exec, NotStored, Finished;
        NothingLive(s, a.t, turn, id);
    }
  }

  // ---- every run ----

  // No step of the run was one of the harmful ones.
  ghost predicate NeverHarmed(maxAttempts: int, run: seq<Action>, id: Id)
    decreases |run|
  {
    run != [] ==>
      && NeverHarmed(maxAttempts, run[..|run| - 1], id)
      && !Harms(maxAttempts, After(maxAttempts, run[..|run| - 1]), run[|run| - 1], id)
  }

  // In a run without a cancel that takes a token of the notification, without a
  // dropped put-back or last write of its workers, and without a creator's `queued`
  // that comes when no token is left to use, the notification has a live token for as
  // long as it is unsettled. So one that has none was struck by one of these.
  lemma {:induction false} UnsettledHasToken(maxAttempts: int, run: seq<Action>, id: Id)
    requires NeverHarmed(maxAttempts, run, id)
    requires id in After(maxAttempts, run).rows && !After(maxAttempts, run).rows[id].status.Settled()
    ensures Live(After(maxAttempts, run), id) && exists p :: TokenAt(After(maxAttempts, run), id, p)
  {
    hide After, Next, Harms, Account, NoLiveToken;
    NeverHarmedCares(maxAttempts, run, id);
    LiveIsToken(After(maxAttempts, run), id);
    PlacesOfTokens(After(maxAttempts, run), id);
  }

  lemma {:induction false} NeverHarmedCares(maxAttempts: int, run: seq<Action>, id: Id)
    requires NeverHarmed(maxAttempts, run, id)
    ensures Cared(After(maxAttempts, run), id)
  {
    hide Next, Harms, Account, Live;
    if run != [] {
      var before := run[..|run| - 1];
      NeverHarmedCares(maxAttempts, before, id);
      var loc := ReachableOwns(maxAttempts, before);
      ReachableKeys(maxAttempts, before);
      NextCared(maxAttempts, After(maxAttempts, before), run[|run| - 1], id, loc);
    }
  }

  lemma LiveIsToken(s: State, id: Id)
    requires Live(s, id)
    ensures HasToken(s, id)
  {
    hide NotStored;
    if NotStored(s, id) {
      var t :| t in s.threads && Held(s.threads[t]) == Some(id) && !Finished(s.threads[t]);
      assert InHands(s, id);
    }
  }
}
