// When a promoter moves an item that is not due. It takes what it listed, by name, so
// an item that another promoter moved and a worker put back for later in the meantime
// goes to the queue at once. That can happen to a retried item as long as a worker
// would do anything for its notification, and never to a scheduled one.

module ProtocolDue {
  import opened Domain
  import opened Protocol
  import opened ProtocolTokens
  import opened ProtocolEnds
  import opened ProtocolBound
  import opened ProtocolRuns
  import opened ProtocolCalm
  import opened ProtocolCancel
  import DS = DelayedSet

  // The score with which x was last added to a set by these actions, if it was.
  ghost function LastAdd(m: int, s: State, actions: seq<Action>, src: Delayed, x: QueueItem): Option<int>
    decreases |actions|
  {
    if actions == [] then None
    else
      var before, a := actions[..|actions| - 1], actions[|actions| - 1];
      if a.ExpireKey? then LastAdd(m, s, before, src, x)
      else
        var c := TurnOf(m, Acts(m, s, before), a).command;
        if c.Add? && c.dst == src && c.item == x then Some(c.at) else LastAdd(m, s, before, src, x)
  }

  lemma MembersStep(s: State, c: Command, src: Delayed, x: QueueItem)
    requires x in Members(Exec(s, c), src)
    ensures if c.Add? && c.dst == src && c.item == x then Members(Exec(s, c), src)[x] == c.at
            else x in Members(s, src) && Members(Exec(s, c), src)[x] == Members(s, src)[x]
  {
    hide RowsAfter, QueueAfter, LogAfter;
  }

  // A member's score is that of its last addition.
  lemma {:induction false} ScoreIsLastAdd(m: int, s: State, actions: seq<Action>, src: Delayed, x: QueueItem)
    requires x in Members(Acts(m, s, actions), src)
    ensures match LastAdd(m, s, actions, src, x)
      case Some(at) => Members(Acts(m, s, actions), src)[x] == at
      case None => x in Members(s, src) && Members(Acts(m, s, actions), src)[x] == Members(s, src)[x]
    decreases |actions|
  {
    hide TurnOf, Exec;
    if actions != [] {
      var before, a := actions[..|actions| - 1], actions[|actions| - 1];
      var s1 := Acts(m, s, before);
      if !a.ExpireKey? {
        MembersStep(s1, TurnOf(m, s1, a).command, src, x);
      }
      if x in Members(s1, src) {
        ScoreIsLastAdd(m, s, before, src, x);
      }
    }
  }

  // A promoter works through its listing and nothing else.
  predicate Listing(pc: Thread, src: Delayed, listing: seq<QueueItem>) {
    pc == Stopped || (pc.Promoting? && pc.src == src && forall x :: x in pc.todo ==> x in listing)
  }

  lemma {:induction false} KeepsListing(m: int, s: State, actions: seq<Action>, t: ThreadId, src: Delayed,
      listing: seq<QueueItem>)
    requires t in s.threads && Listing(s.threads[t], src, listing)
    ensures var s' := Acts(m, s, actions); t in s'.threads && Listing(s'.threads[t], src, listing)
    decreases |actions|
  {
    hide Exec;
    if actions != [] {
      var before, a := actions[..|actions| - 1], actions[|actions| - 1];
      KeepsListing(m, s, before, t, src, listing);
      ListingTurn(m, Acts(m, s, before), a, t, src, listing);
    }
  }

  lemma ListingTurn(m: int, s: State, a: Action, t: ThreadId, src: Delayed, listing: seq<QueueItem>)
    requires t in s.threads && Listing(s.threads[t], src, listing)
    ensures var s' := Next(m, s, a); t in s'.threads && Listing(s'.threads[t], src, listing)
  {
    hide Exec, CreatorTurn, WorkerTurn, CancellerTurn, Lists;
    if !a.ExpireKey? {
      ProtocolEvents.ThreadsUntouched(s, TurnOf(m, s, a).command);
    }
  }

  // A promoter begins with a listing of what is due, or not at all.
  lemma ListsDue(m: int, s: State, t: ThreadId, src: Delayed, c: Choice)
    requires t !in s.threads
    ensures var s0 := Next(m, s, BeginPromote(t, src, c));
      && t in s0.threads && Members(s0, src) == Members(s, src)
      && (s0.threads[t] == Stopped
          || (s0.threads[t] == Promoting(src, None, c.listing)
              && forall y :: y in c.listing ==> y in Members(s, src) && Members(s, src)[y] <= DS.Unix(c.now)))
  {
  }

  // Once a promoter has listed a set at `now`, the item it removes next is due at
  // `now` unless it was added again in between, for a later second; then it is not.
  lemma EarlyIffReadded(m: int, s: State, t: ThreadId, src: Delayed, c: Choice, more: seq<Action>, x: QueueItem)
    requires t !in s.threads
    requires var s' := Acts(m, s, [BeginPromote(t, src, c)] + more);
      t in s'.threads && s'.threads[t].Promoting? && s'.threads[t].hand.None?
      && s'.threads[t].todo != [] && s'.threads[t].todo[0] == x && x in Members(s', src)
    ensures var s0 := Next(m, s, BeginPromote(t, src, c));
      var s' := Acts(m, s, [BeginPromote(t, src, c)] + more); var readded := LastAdd(m, s0, more, src, x);
      && TurnOf(m, s', Advance(t, YES)).command == Remove(src, x)
      && (Members(s', src)[x] > DS.Unix(c.now) <==> readded.Some? && readded.value > DS.Unix(c.now))
  {
    var begin := BeginPromote(t, src, c);
    var s0 := Next(m, s, begin);
    OneAct(m, s, begin);
    ActsAppend(m, s, [begin], more);
    ScoreIsLastAdd(m, s0, more, src, x);
    ListsDue(m, s, t, src, c);
    RemovesNext(m, Acts(m, s0, more), t, src, x);
    hide Acts, LastAdd, Next, TurnOf;
    KeepsListing(m, s0, more, t, src, c.listing);
    if s0.threads[t] == Stopped {
      StaysStopped(m, s0, more, t);
    }
  }

  lemma RemovesNext(m: int, s: State, t: ThreadId, src: Delayed, x: QueueItem)
    requires t in s.threads && s.threads[t].Promoting? && s.threads[t].hand.None? && x in Members(s, src)
    requires s.threads[t].todo != [] && s.threads[t].todo[0] == x
    ensures s.threads[t].src == src ==> TurnOf(m, s, Advance(t, YES)).command == Remove(src, x)
  {
  }

  lemma {:induction false} StaysStopped(m: int, s: State, actions: seq<Action>, t: ThreadId)
    requires t in s.threads && s.threads[t] == Stopped
    ensures var s' := Acts(m, s, actions); t in s'.threads && s'.threads[t] == Stopped
    decreases |actions|
  {
    hide Exec, CreatorTurn, WorkerTurn, CancellerTurn, PromoterTurn, FirstTurn;
    if actions != [] {
      var before, a := actions[..|actions| - 1], actions[|actions| - 1];
      StaysStopped(m, s, before, t);
      if !a.ExpireKey? {
        ProtocolEvents.ThreadsUntouched(Acts(m, s, before), TurnOf(m, Acts(m, s, before), a).command);
      }
    }
  }

  // ---- what is never added again ----

  // Nothing can add an item of id to the set any more: no creator holds the id, and
  // for the retry set no worker gets past its fetch.
  ghost predicate NoMoreAdds(s: State, src: Delayed, id: Id) {
    && id in s.issued
    && (src.RetrySet? && id in s.rows ==> s.rows[id].status.Cancelled? || s.rows[id].status.Delivered?)
    && forall t :: t in s.threads ==> AddsNot(s.threads[t], src, id)
  }

  predicate AddsNot(pc: Thread, src: Delayed, id: Id) {
    match pc
    case Creating(_, _) => if src.ScheduledSet? then Held(pc) != Some(id) else Making(pc) != Some(id)
    case Working(item, at) => src.RetrySet? && item.id == id ==> at.Fetch?
    case _ => true
  }

  predicate AddlessTurn(turn: Turn, src: Delayed, id: Id) {
    var c := turn.command;
    && AddsNot(turn.next, src, id)
    && !(c.Add? && c.dst == src && c.item.id == id)
    && (src.RetrySet? ==>
          && (c.InsertRow? ==> c.id != id)
          && (c.UpdateRow? && c.id == id ==> c.status.Cancelled? || c.status.Delivered?))
  }

  lemma AddlessWorker(m: int, s: State, item: QueueItem, at: WorkPoint, c: Choice, src: Delayed, id: Id)
    requires AddsNot(Working(item, at), src, id)
    requires src.RetrySet? && id in s.rows ==> s.rows[id].status.Cancelled? || s.rows[id].status.Delivered?
    ensures AddlessTurn(WorkerTurn(m, s, item, at, c), src, id)
  {
  }

  lemma AddlessCreator(s: State, t: ThreadId, req: Request, at: CreatePoint, c: Choice, src: Delayed, id: Id)
    requires AddsNot(Creating(req, at), src, id) && id in s.issued
    ensures AddlessTurn(CreatorTurn(s, t, req, at, c), src, id)
  {
    hide KeyTaken;
  }

  lemma AddlessOther(m: int, s: State, a: Action, src: Delayed, id: Id)
    requires NoMoreAdds(s, src, id) && !a.ExpireKey?
    requires a.t in s.threads && a.Advance? ==> !s.threads[a.t].Creating? && !s.threads[a.t].Working?
    ensures AddlessTurn(TurnOf(m, s, a), src, id)
  {
    hide Lists, KeyTaken, WorkerTurn, CreatorTurn;
    if a.t in s.threads {
      assert AddsNot(s.threads[a.t], src, id);
    }
  }

  lemma Addless(m: int, s: State, a: Action, src: Delayed, id: Id)
    requires NoMoreAdds(s, src, id) && !a.ExpireKey?
    ensures AddlessTurn(TurnOf(m, s, a), src, id)
  {
    hide WorkerTurn, CreatorTurn, PromoterTurn, CancellerTurn, FirstTurn, AddlessTurn, AddsNot;
    if a.Advance? && a.t in s.threads && s.threads[a.t].Working? {
      AddlessWorker(m, s, s.threads[a.t].item, s.threads[a.t].work, a.c, src, id);
    } else if a.Advance? && a.t in s.threads && s.threads[a.t].Creating? {
      AddlessCreator(s, a.t, s.threads[a.t].req, s.threads[a.t].create, a.c, src, id);
    } else {
      AddlessOther(m, s, a, src, id);
    }
  }

  lemma RowStaysSettled(s: State, c: Command, id: Id)
    requires id in s.rows ==> s.rows[id].status.Cancelled? || s.rows[id].status.Delivered?
    requires (c.InsertRow? ==> c.id != id)
    requires (c.UpdateRow? && c.id == id ==> c.status.Cancelled? || c.status.Delivered?)
    ensures id in Exec(s, c).rows ==> Exec(s, c).rows[id].status.Cancelled? || Exec(s, c).rows[id].status.Delivered?
  {
    hide QueueAfter, MembersAfter, LogAfter;
  }

  lemma NextNoMoreAdds(m: int, s: State, a: Action, src: Delayed, id: Id)
    requires NoMoreAdds(s, src, id)
    ensures NoMoreAdds(Next(m, s, a), src, id)
  {
    hide TurnOf, AddsNot, Exec;
    if !a.ExpireKey? {
      var turn := TurnOf(m, s, a);
      Addless(m, s, a, src, id);
      ProtocolEvents.ThreadsUntouched(s, turn.command);
      StoredAfter(s, turn.command);
      if src.RetrySet? {
        RowStaysSettled(s, turn.command, id);
      }
    }
  }

  lemma {:induction false} NeverAdded(m: int, s: State, actions: seq<Action>, src: Delayed, x: QueueItem)
    requires NoMoreAdds(s, src, x.id)
    ensures NoMoreAdds(Acts(m, s, actions), src, x.id) && LastAdd(m, s, actions, src, x) == None
    decreases |actions|
  {
    hide Next, TurnOf, NoMoreAdds;
    if actions != [] {
      var before, a := actions[..|actions| - 1], actions[|actions| - 1];
      NeverAdded(m, s, before, src, x);
      NextNoMoreAdds(m, Acts(m, s, before), a, src, x.id);
      if !a.ExpireKey? {
        Addless(m, Acts(m, s, before), a, src, x.id);
      }
    }
  }

  // ---- it does happen ----

  // What is due at `now`, each once.
  lemma {:induction false} DueOf(m: map<QueueItem, int>, now: int) returns (listing: seq<QueueItem>)
    ensures Distinct(listing) && forall y :: y in m && m[y] <= DS.Unix(now) <==> y in listing
    decreases m
  {
    if m == map[] {
      listing := [];
    } else {
      var x :| x in m;
      var rest := DueOf(m - {x}, now);
      listing := if m[x] <= DS.Unix(now) then [x] + rest else rest;
      assert forall y :: y in m ==> y == x || (y in m - {x} && (m - {x})[y] == m[y]);
    }
  }

  // A new worker takes x, gets no rate token and puts it back for a second later.
  lemma PutBack(m: int, s: State, x: QueueItem, later: int) returns (t: ThreadId, actions: seq<Action>)
    requires x in s.queue && ValidPriority(x.priority) && x.id in s.rows
    requires !s.rows[x.id].status.Cancelled? && !s.rows[x.id].status.Delivered?
    ensures t !in s.threads
    ensures Acts(m, s, actions) ==
            s.(queue := s.queue - multiset{x}, retry := s.retry[x := DS.Unix(later + DS.SECOND)],
               threads := s.threads[t := Stopped])
  {
    hide Acts, ValidPriority;
    t := FreshThread(s.threads);
    var begin := BeginWork(t, x);
    var s1 := s.(queue := s.queue - multiset{x}, threads := s.threads[t := Working(x, Fetch)]);
    assert Next(m, s, begin) == s1;
    hide Next;
    OneAct(m, s, begin);
    var rest := RunsBack(m, s1, t, x, later);
    actions := [begin] + rest;
    ActsAppend(m, s, [begin], rest);
  }

  lemma RunsBack(m: int, s: State, t: ThreadId, x: QueueItem, later: int) returns (actions: seq<Action>)
    requires t in s.threads && s.threads[t] == Working(x, Fetch) && x.id in s.rows
    requires !s.rows[x.id].status.Cancelled? && !s.rows[x.id].status.Delivered?
    ensures Acts(m, s, actions) ==
            s.(retry := s.retry[x := DS.Unix(later + DS.SECOND)], threads := s.threads[t := Stopped])
  {
    hide Acts, Next;
    var a, no, back := Advance(t, YES), Advance(t, NO), Advance(t, Choice(true, "", later, []));
    var s2 := s.(threads := s.threads[t := Working(x, Throttle(s.rows[x.id]))]);
    var s3 := s.(threads := s.threads[t := Working(x, Requeue)]);
    TurnsBack(m, s, t, x, later);
    OneAct(m, s, a);
    OneAct(m, s2, no);
    OneAct(m, s3, back);
    actions := [a] + [no] + [back];
    ActsAppend(m, s, [a] + [no], [back]);
    ActsAppend(m, s, [a], [no]);
  }

  lemma TurnsBack(m: int, s: State, t: ThreadId, x: QueueItem, later: int)
    requires t in s.threads && s.threads[t] == Working(x, Fetch) && x.id in s.rows
    requires !s.rows[x.id].status.Cancelled? && !s.rows[x.id].status.Delivered?
    ensures var s2 := s.(threads := s.threads[t := Working(x, Throttle(s.rows[x.id]))]);
      var s3 := s.(threads := s.threads[t := Working(x, Requeue)]);
      && Next(m, s, Advance(t, YES)) == s2
      && Next(m, s2, Advance(t, NO)) == s3
      && Next(m, s3, Advance(t, Choice(true, "", later, []))) ==
         s.(retry := s.retry[x := DS.Unix(later + DS.SECOND)], threads := s.threads[t := Stopped])
  {
    var s2 := s.(threads := s.threads[t := Working(x, Throttle(s.rows[x.id]))]);
    var s3 := s.(threads := s.threads[t := Working(x, Requeue)]);
    assert Next(m, s, Advance(t, YES)) == s2;
    NoToken(m, s2, t, x, s.rows[x.id]);
    BackToSet(m, s3, t, x, later);
    hide Next;
    assert s2.threads[t := Working(x, Requeue)] == s3.threads;
    assert s3.threads[t := Stopped] == s.threads[t := Stopped];
  }

  lemma NoToken(m: int, s: State, t: ThreadId, x: QueueItem, row: Row)
    requires t in s.threads && s.threads[t] == Working(x, Throttle(row))
    ensures Next(m, s, Advance(t, NO)) == s.(threads := s.threads[t := Working(x, Requeue)])
  {
  }

  lemma BackToSet(m: int, s: State, t: ThreadId, x: QueueItem, later: int)
    requires t in s.threads && s.threads[t] == Working(x, Requeue)
    ensures Next(m, s, Advance(t, Choice(true, "", later, []))) ==
            s.(retry := s.retry[x := DS.Unix(later + DS.SECOND)], threads := s.threads[t := Stopped])
  {
  }

  lemma DistinctTail(y: QueueItem, todo: seq<QueueItem>)
    requires Distinct([y] + todo)
    ensures y !in todo && Distinct(todo)
  {
    var all := [y] + todo;
    forall i | 0 <= i < |todo| ensures todo[i] != y {
      assert all[0] != all[i + 1];
    }
    forall i, j | 0 <= i < j < |todo| ensures todo[i] != todo[j] {
      assert all[i + 1] != all[j + 1];
    }
  }

  // A promoter works its way to an item of its listing.
  lemma {:induction false} WalkTo(m: int, s: State, t: ThreadId, src: Delayed, before: seq<QueueItem>, x: QueueItem,
                                  after: seq<QueueItem>)
    returns (actions: seq<Action>)
    requires t in s.threads && s.threads[t] == Promoting(src, None, before + [x] + after)
    requires Distinct(before + [x] + after)
    requires forall y :: y in before + [x] + after ==> y in Members(s, src)
    ensures TurnsOf(actions, t)
    ensures var s' := Acts(m, s, actions);
      && s'.rows == s.rows && s'.threads == s.threads[t := Promoting(src, None, [x] + after)]
      && x in Members(s', src) && Members(s', src)[x] == Members(s, src)[x]
    decreases |before|
  {
    hide Acts;
    if before == [] {
      assert before + [x] + after == [x] + after;
      actions := [];
      NoActs(m, s);
    } else {
      var y, rest := before[0], before[1..];
      var todo := rest + [x] + after;
      assert before + [x] + after == [y] + todo;
      DistinctTail(y, todo);
      assert x in todo;
      PromoteOne(m, s, t, src, y, todo);
      var a := Advance(t, YES);
      var s1 := Acts(m, s, [a, a]);
      var more := WalkTo(m, s1, t, src, rest, x, after);
      actions := [a, a] + more;
      ActsAppend(m, s, [a, a], more);
    }
  }

  // A second promoter moves an item that is due to the queue, and a worker puts it back.
  lemma MovedAndPutBack(m: int, s: State, x: QueueItem, now: int, later: int) returns (actions: seq<Action>)
    requires x in s.retry && s.retry[x] <= DS.Unix(now) && ValidPriority(x.priority)
    requires x.id in s.rows && !s.rows[x.id].status.Cancelled? && !s.rows[x.id].status.Delivered?
    ensures var s' := Acts(m, s, actions);
      && x in s'.retry && s'.retry[x] == DS.Unix(later + DS.SECOND)
      && forall t :: t in s.threads ==> t in s'.threads && s'.threads[t] == s.threads[t]
  {
    hide Acts, Next, ValidPriority, PromotedState;
    var listing := DueOf(s.retry, now);
    var u := FreshThread(s.threads);
    var begin := BeginPromote(u, RetrySet, Choice(true, "", now, listing));
    PromoteBegins(m, s, u, RetrySet, now, listing);
    OneAct(m, s, begin);
    var s1 := Acts(m, s, [begin]);
    var pass := PromoteAlone(m, s1, u, RetrySet, listing);
    var s2 := Acts(m, s1, pass);
    PromotedParts(s1, u, RetrySet, listing, x);
    var w, back := PutBack(m, s2, x, later);
    actions := [begin] + pass + back;
    ActsAppend(m, s, [begin] + pass, back);
    ActsAppend(m, s, [begin], pass);
  }

  // Promoter t is about to remove x, which is not due at `now`.
  ghost predicate AboutEarly(s: State, t: ThreadId, src: Delayed, x: QueueItem, now: int) {
    && t in s.threads && s.threads[t].Promoting? && s.threads[t].src == src && s.threads[t].hand.None?
    && s.threads[t].todo != [] && s.threads[t].todo[0] == x
    && x in Members(s, src) && Members(s, src)[x] > DS.Unix(now)
  }

  // A promoter of the retry set comes to enqueue any item it has listed for which a
  // worker would still do anything, after the item was put back for a second later.
  lemma PromotedEarly(m: int, s: State, t: ThreadId, listing: seq<QueueItem>, x: QueueItem, now: int, later: int)
    returns (more: seq<Action>)
    requires t in s.threads && s.threads[t] == Promoting(RetrySet, None, listing) && x in listing && Distinct(listing)
    requires forall y :: y in listing ==> y in s.retry && s.retry[y] <= DS.Unix(now)
    requires now <= later && ValidPriority(x.priority)
    requires x.id in s.rows && !s.rows[x.id].status.Cancelled? && !s.rows[x.id].status.Delivered?
    ensures var s' := Acts(m, s, more);
      && AboutEarly(s', t, RetrySet, x, now) && s'.retry[x] == DS.Unix(later + DS.SECOND)
      && x in Acts(m, s', [Advance(t, YES), Advance(t, YES)]).queue
  {
    hide Acts, ValidPriority;
    var k :| 0 <= k < |listing| && listing[k] == x;
    var after := listing[k + 1..];
    assert listing == listing[..k] + [x] + after;
    var walk := WalkTo(m, s, t, RetrySet, listing[..k], x, after);
    var s1 := Acts(m, s, walk);
    var back := MovedAndPutBack(m, s1, x, now, later);
    var s2 := Acts(m, s1, back);
    more := walk + back;
    ActsAppend(m, s, walk, back);
    assert s2.threads[t] == Promoting(RetrySet, None, [x] + after);
    PromoteOne(m, s2, t, RetrySet, x, after);
  }

  // A state in which an item is listed for another attempt and not asleep is reached.
  lemma StartPutBack(maxAttempts: int)
    ensures var s := After(maxAttempts, START + [Advance(1, NO), Advance(1, YES)]);
      ITEM in s.retry && s.retry[ITEM] <= DS.Unix(DS.SECOND) && ITEM.id in s.rows && s.rows[ITEM.id].status == Pending
  {
    hide After;
    Start(maxAttempts);
    var s := After(maxAttempts, START);
    Step(maxAttempts, START, Advance(1, NO));
    Step(maxAttempts, START + [Advance(1, NO)], Advance(1, YES));
    assert START + [Advance(1, NO), Advance(1, YES)] == START + [Advance(1, NO)] + [Advance(1, YES)];
  }

  // ---- exactly when ----

  // A creator that has enqueued the item of id and is about to write `queued`.
  ghost predicate Waking(s: State, v: ThreadId, id: Id) {
    v in s.threads && s.threads[v].Creating? && s.threads[v].create == MarkQueued(id)
  }

  // No worker would still do anything for id, and no creator is about to change that.
  ghost predicate Asleep(s: State, id: Id) {
    && (id in s.rows ==> s.rows[id].status.Cancelled? || s.rows[id].status.Delivered?)
    && forall v :: !Waking(s, v, id)
  }

  // A token in a set is in no one's hands.
  lemma ListedUnheld(s: State, src: Delayed, x: QueueItem, loc: map<Id, Place>)
    requires Owns(s, loc) && x in Members(s, src)
    ensures x.id in s.issued && forall t :: t in s.threads ==> Held(s.threads[t]) != Some(x.id)
  {
  }

  lemma ListedNoMoreAdds(s: State, src: Delayed, x: QueueItem, loc: map<Id, Place>)
    requires Owns(s, loc) && x in Members(s, src) && (src.ScheduledSet? || Asleep(s, x.id))
    ensures NoMoreAdds(s, src, x.id)
  {
    hide Account;
    ListedUnheld(s, src, x, loc);
    forall t | t in s.threads ensures AddsNot(s.threads[t], src, x.id) {
      assert !Waking(s, t, x.id) || src.ScheduledSet?;
    }
  }

  lemma BeginKeepsNoMoreAdds(m: int, s: State, t: ThreadId, src: Delayed, c: Choice, x: QueueItem, more: seq<Action>)
    requires t !in s.threads && NoMoreAdds(s, src, x.id)
    ensures !AboutEarly(Acts(m, s, [BeginPromote(t, src, c)] + more), t, src, x, c.now)
  {
    hide Acts, Next, NoMoreAdds, LastAdd;
    var begin := BeginPromote(t, src, c);
    NextNoMoreAdds(m, s, begin, src, x.id);
    NeverAdded(m, Next(m, s, begin), more, src, x);
    if AboutEarly(Acts(m, s, [begin] + more), t, src, x, c.now) {
      EarlyIffReadded(m, s, t, src, c, more, x);
    }
  }

  // Whatever interleaves, no promoter removes a scheduled item that was not due when
  // it listed the set.
  lemma ScheduledNeverEarly(maxAttempts: int, run: seq<Action>, t: ThreadId, c: Choice, x: QueueItem, more: seq<Action>)
    requires t !in After(maxAttempts, run).threads
    ensures !AboutEarly(After(maxAttempts, run + [BeginPromote(t, ScheduledSet, c)] + more), t, ScheduledSet, x, c.now)
  {
    hide After, Acts, Next, NoMoreAdds;
    var s, begin := After(maxAttempts, run), BeginPromote(t, ScheduledSet, c);
    assert run + [begin] + more == run + ([begin] + more);
    AfterActs(maxAttempts, run, [begin] + more);
    if x in s.scheduled {
      var loc := ReachableOwns(maxAttempts, run);
      ListedNoMoreAdds(s, ScheduledSet, x, loc);
      BeginKeepsNoMoreAdds(maxAttempts, s, t, ScheduledSet, c, x, more);
    } else {
      Unlisted(maxAttempts, s, t, ScheduledSet, c, x, more);
    }
  }

  // What was not in the set is not in the listing.
  lemma Unlisted(m: int, s: State, t: ThreadId, src: Delayed, c: Choice, x: QueueItem, more: seq<Action>)
    requires t !in s.threads && x !in Members(s, src)
    ensures !AboutEarly(Acts(m, s, [BeginPromote(t, src, c)] + more), t, src, x, c.now)
  {
    hide Acts, Next;
    var begin := BeginPromote(t, src, c);
    var s0 := Next(m, s, begin);
    OneAct(m, s, begin);
    ActsAppend(m, s, [begin], more);
    ListsDue(m, s, t, src, c);
    KeepsListing(m, s0, more, t, src, c.listing);
    if s0.threads[t] == Stopped {
      StaysStopped(m, s0, more, t);
    }
  }

  // The row of an item that is not asleep, awake after a turn of its creator if need be.
  lemma Wake(m: int, s: State, id: Id) returns (actions: seq<Action>)
    requires ProtocolKeys.KeysInv(s) && !Asleep(s, id)
    ensures var s' := Acts(m, s, actions);
      && id in s'.rows && !s'.rows[id].status.Cancelled? && !s'.rows[id].status.Delivered?
      && s'.retry == s.retry
      && forall t :: t in s.threads && !Waking(s, t, id) ==> t in s'.threads && s'.threads[t] == s.threads[t]
  {
    hide Acts, Next;
    if v :| Waking(s, v, id) {
      var a := Advance(v, YES);
      assert ProtocolKeys.ThreadKeyed(s.rows, s.issued, v, s.threads[v]);
      QueuedIs(m, s, v, s.threads[v].req, id);
      OneAct(m, s, a);
      actions := [a];
    } else {
      actions := [];
      NoActs(m, s);
    }
  }

  // A promoter that has listed x in the retry set comes to remove it before it is due
  // in some continuation, unless x is asleep.
  lemma EarlyUnlessAsleep(maxAttempts: int, run: seq<Action>, t: ThreadId, c: Choice, x: QueueItem)
    returns (more: seq<Action>)
    requires var s := After(maxAttempts, run);
      && t !in s.threads && x in c.listing && !Asleep(s, x.id)
      && Next(maxAttempts, s, BeginPromote(t, RetrySet, c)).threads[t] == Promoting(RetrySet, None, c.listing)
    ensures AboutEarly(Acts(maxAttempts, After(maxAttempts, run), [BeginPromote(t, RetrySet, c)] + more),
                       t, RetrySet, x, c.now)
  {
    hide After, Acts, ValidPriority, Asleep;
    var s, begin := After(maxAttempts, run), BeginPromote(t, RetrySet, c);
    AcceptedListing(maxAttempts, s, t, c);
    var s0 := Next(maxAttempts, s, begin);
    OneAct(maxAttempts, s, begin);
    Step(maxAttempts, run, begin);
    ProtocolKeys.ReachableKeys(maxAttempts, run + [begin]);
    ReachableServed(maxAttempts, run);
    StillAwake(maxAttempts, s, t, c, x.id);
    hide Next;
    var wake := Wake(maxAttempts, s0, x.id);
    var s1 := Acts(maxAttempts, s0, wake);
    var early := PromotedEarly(maxAttempts, s1, t, c.listing, x, c.now, c.now);
    more := wake + early;
    ActsAppend(maxAttempts, s0, wake, early);
    ActsAppend(maxAttempts, s, [begin], more);
  }

  lemma AcceptedListing(m: int, s: State, t: ThreadId, c: Choice)
    requires t !in s.threads
    requires Next(m, s, BeginPromote(t, RetrySet, c)).threads[t] == Promoting(RetrySet, None, c.listing)
    ensures Next(m, s, BeginPromote(t, RetrySet, c)) ==
            s.(threads := s.threads[t := Promoting(RetrySet, None, c.listing)])
    ensures Distinct(c.listing) && forall y :: y in c.listing ==> y in s.retry && s.retry[y] <= DS.Unix(c.now)
  {
  }

  lemma StillAwake(m: int, s: State, t: ThreadId, c: Choice, id: Id)
    requires t !in s.threads && !Asleep(s, id)
    requires Next(m, s, BeginPromote(t, RetrySet, c)) ==
             s.(threads := s.threads[t := Promoting(RetrySet, None, c.listing)])
    ensures !Asleep(Next(m, s, BeginPromote(t, RetrySet, c)), id)
  {
    hide Next;
    var s0 := Next(m, s, BeginPromote(t, RetrySet, c));
    if v :| Waking(s, v, id) {
      assert Waking(s0, v, id);
    }
  }

  // Exactly then is it safe to promote an item that a promoter has listed: in every
  // continuation it removes the item only if it was due when it listed the set, if and
  // only if the set is the scheduled one, or the item's notification is cancelled,
  // delivered or missing and no creator is about to write `queued` for it.
  lemma OnTimeIff(maxAttempts: int, run: seq<Action>, t: ThreadId, src: Delayed, c: Choice, x: QueueItem)
    requires var s := After(maxAttempts, run);
      && t !in s.threads && x in c.listing
      && Next(maxAttempts, s, BeginPromote(t, src, c)).threads[t] == Promoting(src, None, c.listing)
    ensures var s := After(maxAttempts, run);
      (forall more :: !AboutEarly(Acts(maxAttempts, s, [BeginPromote(t, src, c)] + more), t, src, x, c.now)) <==>
      src.ScheduledSet? || Asleep(s, x.id)
  {
    var s := After(maxAttempts, run);
    ListsDue(maxAttempts, s, t, src, c);
    hide After, Acts, Next, Asleep, AboutEarly;
    if src.ScheduledSet? || Asleep(s, x.id) {
      var loc := ReachableOwns(maxAttempts, run);
      ListedNoMoreAdds(s, src, x, loc);
      forall more ensures !AboutEarly(Acts(maxAttempts, s, [BeginPromote(t, src, c)] + more), t, src, x, c.now) {
        BeginKeepsNoMoreAdds(maxAttempts, s, t, src, c, x, more);
      }
    } else {
      var more := EarlyUnlessAsleep(maxAttempts, run, t, c, x);
    }
  }
}
