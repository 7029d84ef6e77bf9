// Which steps lose a token when commands interleave: a notification has one exactly
// as long as none of them has happened to it.

module ProtocolLoss {
  import opened Domain
  import opened Protocol
  import opened ProtocolTokens
  import opened ProtocolEnds
  import opened ProtocolBound
  import opened ProtocolRuns
  import opened ProtocolCalm
  import opened ProtocolCancel

  // A token is stored or in the hands of a thread; PlacesOfTokens says where.
  ghost predicate HasToken(s: State, id: Id) {
    Stored(s, id) || InHands(s, id)
  }

  ghost predicate Stored(s: State, id: Id) {
    !NotStored(s, id)
  }

  ghost predicate InHands(s: State, id: Id) {
    exists t :: t in s.threads && Held(s.threads[t]) == Some(id)
  }

  // A canceller removes the token from the queue or from the scheduled set.
  ghost predicate Purges(s: State, c: Command, pc: Thread, id: Id) {
    match c
    case Purge(x) => x.id == id && x in s.queue
    case Remove(src, x) => x.id == id && pc.Cancelling? && src.ScheduledSet? && x in s.scheduled
    case _ => false
  }

  // A thread lets go of the id it holds without storing it: a worker discards it
  // because the row is missing, cancelled or delivered, fails to put it back, or ends
  // with its last event; a creator finds its key claimed or its row refused.
  ghost predicate LetsGo(s: State, pc: Thread, c: Choice, id: Id) {
    match pc
    case Working(item, at) =>
      item.id == id &&
      (|| (at.Fetch? && (id in s.rows ==> s.rows[id].status.Cancelled? || s.rows[id].status.Delivered?))
       || (at.Requeue? && !c.ok)
       || at.PublishDelivered? || at.PublishFailed?)
    case Creating(req, at) =>
      || (at.Claim? && at.id == id && (req.key.Some? ==> req.key.value in s.keys))
      || (at.Insert? && at.id == id && (id in s.rows || KeyTaken(s.rows, req.key)))
    case _ => false
  }

  ghost predicate Loses(maxAttempts: int, s: State, a: Action, id: Id) {
    a.Advance? && a.t in s.threads &&
    (|| Purges(s, TurnOf(maxAttempts, s, a).command, s.threads[a.t], id)
     || LetsGo(s, s.threads[a.t], a.c, id))
  }

  // ---- one step ----

  // These are the ways to hold an id before a turn, and neither to hold it nor to have
  // stored it after.
  ghost predicate Releases(s: State, t: ThreadId, turn: Turn, id: Id) {
    HeldBy(s, t) == Some(id) && Held(turn.next) == None && !turn.command.Push? && !turn.command.Add?
  }

  lemma WorkerReleases(maxAttempts: int, s: State, item: QueueItem, at: WorkPoint, c: Choice, id: Id)
    ensures var turn := WorkerTurn(maxAttempts, s, item, at, c);
      item.id == id && Held(turn.next) == None && !turn.command.Push? && !turn.command.Add? <==>
      LetsGo(s, Working(item, at), c, id)
  {
  }

  lemma CreatorReleases(s: State, t: ThreadId, req: Request, at: CreatePoint, c: Choice, id: Id)
    ensures var turn := CreatorTurn(s, t, req, at, c);
      Held(Creating(req, at)) == Some(id) && Held(turn.next) == None && !turn.command.Push? && !turn.command.Add? <==>
      LetsGo(s, Creating(req, at), c, id)
  {
    hide KeyTaken;
  }

  lemma OnlyTheseRelease(maxAttempts: int, s: State, a: Action, id: Id)
    requires !a.ExpireKey?
    ensures Releases(s, a.t, TurnOf(maxAttempts, s, a), id) <==>
            a.Advance? && a.t in s.threads && LetsGo(s, s.threads[a.t], a.c, id)
  {
    hide WorkerTurn, CreatorTurn, Lists, KeyTaken, LetsGo;
    if a.Advance? && a.t in s.threads && s.threads[a.t].Working? {
      WorkerReleases(maxAttempts, s, s.threads[a.t].item, s.threads[a.t].work, a.c, id);
    } else if a.Advance? && a.t in s.threads && s.threads[a.t].Creating? {
      CreatorReleases(s, a.t, s.threads[a.t].req, s.threads[a.t].create, a.c, id);
    } else {
      OthersKeepHold(maxAttempts, s, a, id);
    }
  }

  lemma OthersKeepHold(maxAttempts: int, s: State, a: Action, id: Id)
    requires !a.ExpireKey?
    requires a.Advance? && a.t in s.threads ==> !s.threads[a.t].Working? && !s.threads[a.t].Creating?
    ensures !Releases(s, a.t, TurnOf(maxAttempts, s, a), id)
    ensures a.Advance? && a.t in s.threads ==> !LetsGo(s, s.threads[a.t], a.c, id)
  {
    hide WorkerTurn, CreatorTurn, Lists;
  }

  lemma PlacesOfTokens(s: State, id: Id)
    ensures HasToken(s, id) <==> exists p :: TokenAt(s, id, p)
  {
    if x :| x in s.queue && x.id == id {
      assert TokenAt(s, id, InQueue(x.priority, 0)) by {
        assert x == QueueItem(id, x.priority);
      }
    }
    if x :| x in s.retry && x.id == id {
      assert TokenAt(s, id, InRetry(x.priority)) by {
        assert x == QueueItem(id, x.priority);
      }
    }
    if x :| x in s.scheduled && x.id == id {
      assert TokenAt(s, id, InScheduled(x.priority)) by {
        assert x == QueueItem(id, x.priority);
      }
    }
    if t :| t in s.threads && Held(s.threads[t]) == Some(id) {
      assert TokenAt(s, id, InHand(t));
    }
    if p :| TokenAt(s, id, p) {
      if p.InQueue? {
        assert QueueItem(id, p.priority) in s.queue;
      }
    }
  }

  // Other threads hold on to what they have.
  lemma HandsAfter(s: State, t: ThreadId, turn: Turn, id: Id)
    ensures InHands(Result(s, t, turn), id) <==>
            Held(turn.next) == Some(id) || exists u :: u != t && u in s.threads && Held(s.threads[u]) == Some(id)
  {
    var s' := Result(s, t, turn);
    ProtocolEvents.ThreadsUntouched(s, turn.command);
    hide Exec;
    if u :| u in s'.threads && Held(s'.threads[u]) == Some(id) {
      assert u != t ==> u in s.threads && s.threads[u] == s'.threads[u];
    }
    if u :| u != t && u in s.threads && Held(s.threads[u]) == Some(id) {
      assert u in s'.threads && s'.threads[u] == s.threads[u];
    }
    if Held(turn.next) == Some(id) {
      assert t in s'.threads && s'.threads[t] == turn.next;
    }
  }

  // A turn that stores nothing and takes nothing out keeps the token unless it lets it go.
  lemma QuietTurnKeeps(s: State, t: ThreadId, turn: Turn, id: Id, loc: map<Id, Place>)
    requires Owns(s, loc) && Fits(s, t, turn) && id in s.issued && (Quiet(turn.command) || turn.command.Generate?)
    ensures HasToken(Result(s, t, turn), id) <==> HasToken(s, id) && !Releases(s, t, turn, id)
  {
    hide Account, Exec, Fits;
    HandsAfter(s, t, turn, id);
    StoredAlike(s, t, turn, id);
    FitsQuietly(s, t, turn, id);
    if HeldBy(s, t) == Some(id) {
      HolderIsAlone(s, t, id, loc);
    }
  }

  lemma FitsQuietly(s: State, t: ThreadId, turn: Turn, id: Id)
    requires Fits(s, t, turn) && id in s.issued && (Quiet(turn.command) || turn.command.Generate?)
    ensures Held(turn.next) == Some(id) ==> HeldBy(s, t) == Some(id)
    ensures HeldBy(s, t) == Some(id) ==> Held(turn.next) == Some(id) || Held(turn.next) == None
  {
  }

  lemma StoredAlike(s: State, t: ThreadId, turn: Turn, id: Id)
    requires Quiet(turn.command) || turn.command.Generate?
    ensures Stored(Result(s, t, turn), id) == Stored(s, id)
  {
    hide RowsAfter, LogAfter;
  }

  // A token that is put down is stored, and one that is taken out is held.
  lemma MoveKeeps(s: State, t: ThreadId, turn: Turn, id: Id, loc: map<Id, Place>)
    requires Owns(s, loc) && Fits(s, t, turn) && id in s.issued
    requires turn.command.Push? || turn.command.Add? || turn.command.Pop? ||
             (turn.command.Remove? && Held(turn.next).Some?)
    ensures HasToken(Result(s, t, turn), id) <==> HasToken(s, id)
  {
    hide RowsAfter, LogAfter;
    HandsAfter(s, t, turn, id);
    var c, s' := turn.command, Result(s, t, turn);
    if id == c.item.id {
      assert HasToken(s, id);
      if c.Push? {
        assert c.item in s'.queue;
      } else if c.Add? {
        assert c.item in Members(s', c.dst);
      }
    } else {
      OtherItem(s, t, turn, id);
    }
  }

  lemma QueueElsewhere(queue: multiset<QueueItem>, c: Command, x: QueueItem)
    requires (c.Push? || c.Pop? || c.Purge?) ==> x != c.item
    ensures x in QueueAfter(queue, c) <==> x in queue
  {
  }

  lemma MembersElsewhere(m: map<QueueItem, int>, which: Delayed, c: Command, x: QueueItem)
    requires (c.Add? || c.Remove?) ==> x != c.item
    ensures x in MembersAfter(m, which, c) <==> x in m
  {
  }

  lemma ResultStores(s: State, t: ThreadId, turn: Turn)
    ensures var s' := Result(s, t, turn); var c := turn.command;
      && s'.queue == QueueAfter(s.queue, c) && s'.retry == MembersAfter(s.retry, RetrySet, c)
      && s'.scheduled == MembersAfter(s.scheduled, ScheduledSet, c)
  {
    hide RowsAfter, LogAfter, QueueAfter, MembersAfter;
  }

  lemma OtherItem(s: State, t: ThreadId, turn: Turn, id: Id)
    requires var c := turn.command; (c.Push? || c.Add? || c.Pop? || c.Remove? || c.Purge?) && c.item.id != id
    ensures Stored(Result(s, t, turn), id) == Stored(s, id)
  {
    hide Exec, Result, QueueAfter, MembersAfter;
    ResultStores(s, t, turn);
    forall x: QueueItem | x.id == id
      ensures x in QueueAfter(s.queue, turn.command) <==> x in s.queue
      ensures x in MembersAfter(s.retry, RetrySet, turn.command) <==> x in s.retry
      ensures x in MembersAfter(s.scheduled, ScheduledSet, turn.command) <==> x in s.scheduled
    {
      QueueElsewhere(s.queue, turn.command, x);
      MembersElsewhere(s.retry, RetrySet, turn.command, x);
      MembersElsewhere(s.scheduled, ScheduledSet, turn.command, x);
    }
  }

  // Only one place can hold the token of an id.
  lemma StoredOnce(s: State, x: QueueItem, loc: map<Id, Place>)
    requires Owns(s, loc) && (x in s.queue || x in s.scheduled)
    ensures !InHands(s, x.id)
    ensures forall y: QueueItem :: y.id == x.id && (y in s.queue || y in s.retry || y in s.scheduled) ==> y == x
    ensures x in s.queue ==> x !in s.retry && x !in s.scheduled
    ensures x in s.scheduled ==> x !in s.retry && x !in s.queue
  {
  }

  // A token that a canceller removes is gone.
  lemma PurgeLoses(s: State, t: ThreadId, turn: Turn, id: Id, loc: map<Id, Place>)
    requires Owns(s, loc) && Fits(s, t, turn) && id in s.issued && t in s.threads && s.threads[t].Cancelling?
    requires Takes(turn)
    ensures HasToken(Result(s, t, turn), id) <==> HasToken(s, id) && !Purges(s, turn.command, s.threads[t], id)
  {
    hide Exec, Result, Account;
    HandsAfter(s, t, turn, id);
    ResultStores(s, t, turn);
    var x := turn.command.item;
    if x.id != id {
      OtherItem(s, t, turn, id);
    } else if Purges(s, turn.command, s.threads[t], id) {
      StoredOnce(s, x, loc);
    }
  }

  lemma CancellersRemove(maxAttempts: int, s: State, a: Action)
    requires !a.ExpireKey?
    ensures var turn := TurnOf(maxAttempts, s, a);
      && (turn.command.Purge? ==> a.t in s.threads && s.threads[a.t].Cancelling?)
      && (turn.command.Remove? && Held(turn.next) == None ==> a.t in s.threads && s.threads[a.t].Cancelling?)
      && (turn.command.Remove? && Held(turn.next) != None ==> a.t in s.threads && s.threads[a.t].Promoting?)
  {
    hide Lists, KeyTaken;
  }

  lemma NextKeepsToken(maxAttempts: int, s: State, a: Action, id: Id, loc: map<Id, Place>)
    requires Owns(s, loc) && id in s.issued
    ensures HasToken(Next(maxAttempts, s, a), id) <==> HasToken(s, id) && !Loses(maxAttempts, s, a, id)
  {
    hide Account, Fits, TurnOf, Exec, HasToken, Purges, LetsGo, Releases;
    if a.ExpireKey? {
      ExpiryKeeps(s, Next(maxAttempts, s, a), id);
    } else {
      var turn := TurnOf(maxAttempts, s, a);
      TurnFits(maxAttempts, s, a);
      CancellersRemove(maxAttempts, s, a);
      OnlyOneWay(s, a.t, turn, id);
      OnlyTheseRelease(maxAttempts, s, a, id);
      if !a.Advance? && a.t in s.threads {
        OnlyAdvancePurges(maxAttempts, s, a, id);
      }
      if Quiet(turn.command) || turn.command.Generate? {
        QuietTurnKeeps(s, a.t, turn, id, loc);
      } else if Takes(turn) {
        PurgeLoses(s, a.t, turn, id, loc);
      } else {
        MoveKeeps(s, a.t, turn, id, loc);
      }
    }
  }

  lemma OnlyAdvancePurges(maxAttempts: int, s: State, a: Action, id: Id)
    requires !a.ExpireKey? && !a.Advance? && a.t in s.threads
    ensures !Purges(s, TurnOf(maxAttempts, s, a).command, s.threads[a.t], id)
  {
  }

  // A removal after which the thread holds nothing.
  predicate Takes(turn: Turn) {
    turn.command.Purge? || (turn.command.Remove? && Held(turn.next) == None)
  }

  // The two ways to lose a token belong to different commands.
  lemma OnlyOneWay(s: State, t: ThreadId, turn: Turn, id: Id)
    requires Fits(s, t, turn)
    requires turn.command.Remove? && Held(turn.next) != None ==> t in s.threads && !s.threads[t].Cancelling?
    ensures t in s.threads && !Takes(turn) ==> !Purges(s, turn.command, s.threads[t], id)
    ensures !Quiet(turn.command) ==> !Releases(s, t, turn, id)
    ensures t !in s.threads ==> !Releases(s, t, turn, id)
  {
  }

  lemma ExpiryKeeps(s: State, s': State, id: Id)
    requires s' == s.(keys := s'.keys)
    ensures HasToken(s', id) == HasToken(s, id)
  {
  }

  // ---- every run ----

  // No step of the run has lost the token of id.
  ghost predicate NeverLost(maxAttempts: int, run: seq<Action>, id: Id)
    decreases |run|
  {
    run != [] ==>
      var before := run[..|run| - 1];
      && NeverLost(maxAttempts, before, id)
      && (id in After(maxAttempts, before).issued ==>
          !Loses(maxAttempts, After(maxAttempts, before), run[|run| - 1], id))
  }

  lemma IssuedHeld(maxAttempts: int, s: State, a: Action, id: Id)
    requires id !in s.issued && id in Next(maxAttempts, s, a).issued
    ensures InHands(Next(maxAttempts, s, a), id)
  {
    hide Lists, KeyTaken;
    TurnFits(maxAttempts, s, a);
    HandsAfter(s, a.t, TurnOf(maxAttempts, s, a), id);
  }

  lemma IssuedStays(maxAttempts: int, s: State, a: Action, id: Id)
    requires id in s.issued
    ensures id in Next(maxAttempts, s, a).issued
  {
    hide TurnOf;
  }

  lemma {:induction false} NotYetLost(maxAttempts: int, run: seq<Action>, id: Id)
    requires id !in After(maxAttempts, run).issued
    ensures NeverLost(maxAttempts, run, id)
  {
    hide Next, Loses;
    if run != [] {
      var before := run[..|run| - 1];
      if id in After(maxAttempts, before).issued {
        IssuedStays(maxAttempts, After(maxAttempts, before), run[|run| - 1], id);
      }
      NotYetLost(maxAttempts, before, id);
    }
  }

  lemma {:induction false} TokenUnlessLost(maxAttempts: int, run: seq<Action>, id: Id)
    requires id in After(maxAttempts, run).issued
    ensures HasToken(After(maxAttempts, run), id) <==> NeverLost(maxAttempts, run, id)
  {
    hide Next, Loses, HasToken, Account;
    if run != [] {
      var before, a := run[..|run| - 1], run[|run| - 1];
      var s := After(maxAttempts, before);
      if id in s.issued {
        TokenUnlessLost(maxAttempts, before, id);
        var loc := ReachableOwns(maxAttempts, before);
        NextKeepsToken(maxAttempts, s, a, id, loc);
      } else {
        IssuedHeld(maxAttempts, s, a, id);
        HeldIsToken(After(maxAttempts, run), id);
        NotYetLost(maxAttempts, before, id);
      }
    }
  }

  lemma HeldIsToken(s: State, id: Id)
    requires InHands(s, id)
    ensures HasToken(s, id)
  {
  }

  // A row has a token exactly if no step has lost it.
  lemma RowHasTokenUnlessLost(maxAttempts: int, run: seq<Action>, id: Id)
    requires id in After(maxAttempts, run).rows
    ensures (exists p :: TokenAt(After(maxAttempts, run), id, p)) <==> NeverLost(maxAttempts, run, id)
    ensures !InHands(After(maxAttempts, run), id) ==>
              (Stored(After(maxAttempts, run), id) <==> NeverLost(maxAttempts, run, id))
  {
    hide After, NeverLost;
    ProtocolKeys.ReachableKeys(maxAttempts, run);
    TokenUnlessLost(maxAttempts, run, id);
    PlacesOfTokens(After(maxAttempts, run), id);
  }

  // ---- a queued row without a token ----

  lemma ItemPurged()
    ensures forall x :: x !in Purged(S4.queue, ITEM.id, [HIGH, NORMAL, LOW])
  {
    hide Purged;
    forall x ensures x !in Purged(S4.queue, ITEM.id, [HIGH, NORMAL, LOW]) {
      PurgedAt(S4.queue, ITEM.id, x);
    }
  }

  // The state after the whole cancel and the creator's write.
  lemma QueuedAfterCancel(maxAttempts: int) returns (actions: seq<Action>)
    ensures Acts(maxAttempts, S4, actions) ==
            S4.(rows := map[ITEM.id := ROW.(status := Queued)], queue := Purged(S4.queue, ITEM.id, [HIGH, NORMAL, LOW]),
                log := [Wrote(ITEM.id, Cancelled, ByCanceller), Wrote(ITEM.id, Queued, ByCreator)],
                threads := map[0 := Creating(REQ, Returned(ITEM.id)), 1 := Cancelling(ITEM.id, 0, CancelReturned)])
  {
    hide Acts, Next, Purged;
    var cancel := CancelAlone(maxAttempts, S4, 1, ITEM.id, []);
    var s1 := Acts(maxAttempts, S4, cancel);
    var a := Advance(0, YES);
    QueuedIs(maxAttempts, s1, 0, REQ, ITEM.id);
    OneAct(maxAttempts, s1, a);
    actions := cancel + [a];
    ActsAppend(maxAttempts, S4, cancel, [a]);
    assert Minus(S4.scheduled, []) == S4.scheduled;
  }

  // No error and no stopped thread is needed: when a cancel comes between enqueuing
  // the item and the creator's write of `queued`, the row ends queued and has no token.
  lemma QueuedForNothing(maxAttempts: int)
    returns (run: seq<Action>)
    ensures var s := After(maxAttempts, run);
      && ITEM.id in s.rows && s.rows[ITEM.id].status == Queued && !HasToken(s, ITEM.id)
      && s.threads == map[0 := Creating(REQ, Returned(ITEM.id)), 1 := Cancelling(ITEM.id, 0, CancelReturned)]
  {
    hide After, Acts, Next, Purged;
    Start(maxAttempts);
    var actions := QueuedAfterCancel(maxAttempts);
    run := START[..4] + actions;
    AfterActs(maxAttempts, START[..4], actions);
    ItemPurged();
  }
}
