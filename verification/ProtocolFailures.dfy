// Threads that meet failing commands, or find their work done by others, go on as
// the original does where it drops the error.

module ProtocolFailures {
  import opened Domain
  import opened Protocol
  import opened ProtocolRuns
  import DS = DelayedSet
  import Tokens

  // ---- workers ----

  // A worker that fetches no row, or a cancelled or delivered one, drops its item.
  lemma FetchSkips(m: int, s: State, t: ThreadId, item: QueueItem, c: Choice)
    requires t in s.threads && s.threads[t] == Working(item, Fetch)
    requires item.id !in s.rows || s.rows[item.id].status in {Cancelled, Delivered}
    ensures Next(m, s, Advance(t, c)) == s.(threads := s.threads[t := Stopped])
  {
  }

  // Without a rate token a worker puts its item back for the next second and ends; if
  // that fails, it ends all the same.
  lemma ThrottledEnds(m: int, s: State, t: ThreadId, item: QueueItem, c: Choice)
    requires t in s.threads && s.threads[t] == Working(item, Requeue)
    ensures Next(m, s, Advance(t, c)) ==
            s.(retry := if c.ok then s.retry[item := DS.Unix(c.now) + 1] else s.retry,
               threads := s.threads[t := Stopped])
  {
    assert DS.Unix(c.now + DS.SECOND) == DS.Unix(c.now) + 1;
  }

  // From the provider's answer on no failing command stops a worker. After an
  // accepted send it always ends by publishing `delivered`, and puts nothing back.
  lemma AcceptedAnnounced(m: int, l: Local, item: QueueItem, row: Row, cs: seq<Choice>)
    requires l.pc == Working(item, RecordAccepted(row)) && |cs| == 3
    ensures var l' := Path(m, l, cs);
      && l'.pc == Stopped && l'.retry == l.retry
      && l'.more != [] && l'.more[|l'.more| - 1] == Published(item.id, Delivered)
      && l'.rows == if cs[1].ok then Overwritten(l.rows, item.id, Delivered, row.attempts + 1) else l.rows
  {
    hide Path;
    var l1 := LocalStep(m, l, cs[0]);
    var l2 := LocalStep(m, l1, cs[1]);
    assert l2 == Local(Working(item, PublishDelivered), l2.rows, l.retry, l2.more);
    ThreeSteps(m, l, cs);
  }

  // After a rejected send with attempts left it always puts the item back for the
  // time it reads from the clock.
  lemma RejectedPutBack(m: int, l: Local, item: QueueItem, row: Row, cs: seq<Choice>)
    requires l.pc == Working(item, RecordRejected(row)) && row.attempts + 1 < m && |cs| == 3
    ensures var l' := Path(m, l, cs);
      && l'.pc == Stopped && l'.retry == l.retry[item := DS.Unix(cs[2].now)]
      && l'.rows == if cs[1].ok then Overwritten(l.rows, item.id, Queued, row.attempts + 1) else l.rows
  {
    hide Path;
    var l1 := LocalStep(m, l, cs[0]);
    var l2 := LocalStep(m, l1, cs[1]);
    assert l2 == Local(Working(item, ScheduleRetry), l2.rows, l.retry, l2.more);
    ThreeSteps(m, l, cs);
  }

  // After the last rejected send it always ends by publishing `failed`.
  lemma LastRejectedAnnounced(m: int, l: Local, item: QueueItem, row: Row, cs: seq<Choice>)
    requires l.pc == Working(item, RecordRejected(row)) && row.attempts + 1 >= m && |cs| == 4
    ensures var l' := Path(m, l, cs);
      && l'.pc == Stopped && l'.retry == l.retry
      && l'.more != [] && l'.more[|l'.more| - 1] == Published(item.id, Failed)
      && (Dead(item.id) in l'.more <==> cs[1].ok || Dead(item.id) in l.more)
      && l'.rows == if cs[2].ok then Overwritten(l.rows, item.id, Failed, row.attempts + 1) else l.rows
  {
    hide Path, LocalStep;
    var l1 := LocalStep(m, l, cs[0]);
    DeadPushed(m, l, item, row, cs[0], cs[1]);
    FailedMarked(m, LocalStep(m, l1, cs[1]), item, row, cs[2], cs[3]);
    OneStep(m, l, cs);
    ThreeSteps(m, l1, cs[1..]);
  }

  lemma DeadPushed(m: int, l: Local, item: QueueItem, row: Row, c: Choice, c': Choice)
    requires l.pc == Working(item, RecordRejected(row)) && row.attempts + 1 >= m
    ensures var l' := LocalStep(m, LocalStep(m, l, c), c');
      && l' == Local(Working(item, MarkFailed(row)), l.rows, l.retry, l'.more)
      && (Dead(item.id) in l'.more <==> c'.ok || Dead(item.id) in l.more)
  {
    var l1 := LocalStep(m, l, c);
    assert l1 == Local(Working(item, PushDead(row)), l.rows, l.retry, l1.more);
    assert Dead(item.id) in l1.more <==> Dead(item.id) in l.more;
  }

  lemma FailedMarked(m: int, l: Local, item: QueueItem, row: Row, c: Choice, c': Choice)
    requires l.pc == Working(item, MarkFailed(row))
    ensures var l' := LocalStep(m, LocalStep(m, l, c), c');
      && l'.pc == Stopped && l'.retry == l.retry
      && l'.more != [] && l'.more[|l'.more| - 1] == Published(item.id, Failed)
      && (Dead(item.id) in l'.more <==> Dead(item.id) in l.more)
      && l'.rows == if c.ok then Overwritten(l.rows, item.id, Failed, row.attempts + 1) else l.rows
  {
    var l1 := LocalStep(m, l, c);
    assert l1 == Local(Working(item, PublishFailed), l1.rows, l.retry, l1.more);
    assert Dead(item.id) in l1.more <==> Dead(item.id) in l.more;
  }

  // Whether or not the write of `sending` is applied, the provider is called next.
  lemma CalledAnyway(m: int, l: Local, item: QueueItem, row: Row, cs: seq<Choice>)
    requires l.pc == Working(item, MarkSending(row)) && |cs| == 3
    ensures var l' := Path(m, l, cs);
      && l'.pc == Working(item, if cs[2].ok then RecordAccepted(row) else RecordRejected(row))
      && l'.retry == l.retry && l'.more != [] && l'.more[|l'.more| - 1] == Sent(item.id, cs[2].ok)
      && l'.rows == if cs[0].ok then Overwritten(l.rows, item.id, Sending, row.attempts) else l.rows
  {
    hide Path;
    var l1 := LocalStep(m, l, cs[0]);
    assert l1 == Local(Working(item, PublishSending(row)), l1.rows, l.retry, l1.more);
    ThreeSteps(m, l, cs);
  }

  // The row, if there is one, with a new status and count.
  function Overwritten(rows: map<Id, Row>, id: Id, status: Status, attempts: nat): map<Id, Row> {
    if id in rows then rows[id := Row(rows[id].key, rows[id].priority, status, attempts)] else rows
  }

  lemma ThreeSteps(m: int, l: Local, cs: seq<Choice>)
    requires |cs| == 3
    ensures Path(m, l, cs) == LocalStep(m, LocalStep(m, LocalStep(m, l, cs[0]), cs[1]), cs[2])
  {
    hide LocalStep;
    OneStep(m, l, cs);
    OneStep(m, LocalStep(m, l, cs[0]), cs[1..]);
    OneStep(m, LocalStep(m, LocalStep(m, l, cs[0]), cs[1]), cs[1..][1..]);
    assert cs[1..][1..][1..] == [];
    NoSteps(m, LocalStep(m, LocalStep(m, LocalStep(m, l, cs[0]), cs[1]), cs[2]));
  }

  // The turns left from the provider's answer to the end.
  function TurnsLeft(m: int, at: WorkPoint): nat
    requires at.RecordAccepted? || at.RecordRejected?
  {
    if at.RecordRejected? && at.row.attempts + 1 >= m then 4 else 3
  }

  // Once the provider has answered, a worker ends in so many turns of its own
  // whichever of its commands are applied: an accepted send is announced, a last
  // rejected one too, and any other puts the item back in the retry set.
  lemma AnsweredFinishes(m: int, s: State, t: ThreadId, item: QueueItem, at: WorkPoint, cs: seq<Choice>)
    requires t in s.threads && s.threads[t] == Working(item, at) && (at.RecordAccepted? || at.RecordRejected?)
    requires |cs| == TurnsLeft(m, at)
    ensures var s' := Alone(m, s, t, cs);
      && s'.threads == s.threads[t := Stopped] && s.log <= s'.log
      && s' == s.(rows := s'.rows, retry := s'.retry, log := s'.log, threads := s'.threads)
      && (if at.RecordRejected? && at.row.attempts + 1 < m
          then s'.retry == s.retry[item := DS.Unix(cs[2].now)]
          else s'.retry == s.retry && |s'.log| > |s.log|
               && s'.log[|s'.log| - 1] == Published(item.id, if at.RecordAccepted? then Delivered else Failed))
  {
    hide Path, Alone, LocalStep;
    var l := Local(Working(item, at), s.rows, s.retry, []);
    assert WithLocal(s, t, l) == s;
    PathEmbeds(m, s, t, l, cs);
    if at.RecordAccepted? {
      AcceptedAnnounced(m, l, item, at.row, cs);
    } else if at.row.attempts + 1 < m {
      RejectedPutBack(m, l, item, at.row, cs);
    } else {
      LastRejectedAnnounced(m, l, item, at.row, cs);
    }
  }

  // ---- cancellers ----

  // A canceller whose removals all fail still writes `cancelled` and returns; queue
  // and scheduled set keep their items.
  lemma CancelDespiteErrors(m: int, s: State, t: ThreadId, id: Id) returns (actions: seq<Action>)
    requires t !in s.threads && id in s.rows && s.rows[id].status.Cancellable()
    ensures RunOf(actions, BeginCancel(t, id)) && forall a :: a in actions[1..] ==> !a.c.ok
    ensures Acts(m, s, actions) ==
            s.(rows := s.rows[id := s.rows[id].(status := Cancelled)],
               log := s.log + [Wrote(id, Cancelled, ByCanceller)],
               threads := s.threads[t := Cancelling(id, s.rows[id].attempts, CancelReturned)])
  {
    hide Acts;
    var k, a := s.rows[id].attempts, Advance(t, NO);
    CancelBegins(m, s, t, id);
    OneAct(m, s, BeginCancel(t, id));
    var s1 := Acts(m, s, [BeginCancel(t, id)]);
    BothRemovalsFail(m, s1, t, id, k, [HIGH, NORMAL, LOW]);
    var s3 := Acts(m, s1, [a, a]);
    FailedMark(m, s3, t, id, k);
    OneAct(m, s3, a);
    actions := [BeginCancel(t, id)] + [a, a] + [a];
    ActsAppend(m, s, [BeginCancel(t, id)] + [a, a], [a]);
    ActsAppend(m, s, [BeginCancel(t, id)], [a, a]);
    assert s.rows[id].(status := Cancelled, attempts := k) == s.rows[id].(status := Cancelled);
  }

  // Wherever a removal fails, the canceller goes on with what comes after it.
  lemma RemovalFails(m: int, s: State, t: ThreadId, id: Id, k: nat, at: CancelPoint)
    requires t in s.threads && s.threads[t] == Cancelling(id, k, at)
    requires at.PurgeQueue? || at.ScanScheduled? || at.Unschedule?
    ensures Next(m, s, Advance(t, NO)) ==
            s.(threads := s.threads[t := Cancelling(id, k, if at.PurgeQueue? then ScanScheduled else MarkCancelled)])
  {
  }

  lemma BothRemovalsFail(m: int, s: State, t: ThreadId, id: Id, k: nat, lists: seq<Priority>)
    requires t in s.threads && s.threads[t] == Cancelling(id, k, PurgeQueue(lists))
    ensures Acts(m, s, [Advance(t, NO), Advance(t, NO)]) ==
            s.(threads := s.threads[t := Cancelling(id, k, MarkCancelled)])
  {
    hide Next;
    var a := Advance(t, NO);
    RemovalFails(m, s, t, id, k, PurgeQueue(lists));
    OneAct(m, s, a);
    var s1 := Acts(m, s, [a]);
    RemovalFails(m, s1, t, id, k, ScanScheduled);
    OneAct(m, s1, a);
    ActsAppend(m, s, [a], [a]);
    assert [a] + [a] == [a, a];
  }

  lemma FailedMark(m: int, s: State, t: ThreadId, id: Id, k: nat)
    requires t in s.threads && s.threads[t] == Cancelling(id, k, MarkCancelled) && id in s.rows
    ensures Next(m, s, Advance(t, NO)) ==
            s.(rows := s.rows[id := s.rows[id].(status := Cancelled, attempts := k)],
               log := s.log + [Wrote(id, Cancelled, ByCanceller)],
               threads := s.threads[t := Cancelling(id, k, CancelReturned)])
  {
  }

  // ---- promoters ----

  // Those of the items that are still members.
  function Present(items: seq<QueueItem>, members: map<QueueItem, int>): (present: seq<QueueItem>)
    ensures forall x :: x in present <==> x in items && x in members
  {
    if items == [] then []
    else (if items[0] in members then [items[0]] else []) + Present(items[1..], members)
  }

  lemma {:induction false} PresentWithout(items: seq<QueueItem>, members: map<QueueItem, int>, x: QueueItem)
    requires x !in items
    ensures Present(items, Without(members, x)) == Present(items, members)
  {
    if items != [] {
      PresentWithout(items[1..], members, x);
    }
  }

  // The state when a promoter has worked through its list.
  function WorkedThrough(s: State, t: ThreadId, src: Delayed, items: seq<QueueItem>): State {
    WithMembers(s, src, Minus(Members(s, src), items)).(
      queue := s.queue + multiset(Present(items, Members(s, src))), threads := s.threads[t := Stopped])
  }

  lemma SkipIs(m: int, s: State, t: ThreadId, src: Delayed, x: QueueItem, todo: seq<QueueItem>)
    requires t in s.threads && s.threads[t] == Promoting(src, None, [x] + todo) && x !in Members(s, src)
    ensures Acts(m, s, [Advance(t, YES)]) == s.(threads := s.threads[t := Promoting(src, None, todo)])
  {
    OneAct(m, s, Advance(t, YES));
  }

  lemma WorkedNothing(m: int, s: State, t: ThreadId, src: Delayed)
    requires t in s.threads && s.threads[t] == Promoting(src, None, [])
    ensures Acts(m, s, [Advance(t, YES)]) == WorkedThrough(s, t, src, [])
  {
    PromoteNone(m, s, t, src);
  }

  lemma WorkedSkip(s: State, t: ThreadId, src: Delayed, x: QueueItem, todo: seq<QueueItem>)
    requires x !in Members(s, src)
    ensures WorkedThrough(s.(threads := s.threads[t := Promoting(src, None, todo)]), t, src, todo) ==
            WorkedThrough(s, t, src, [x] + todo)
  {
    assert Minus(Members(s, src), [x] + todo) == Minus(Members(s, src), todo);
    hide Minus;
    assert ([x] + todo)[1..] == todo;
    assert Present([x] + todo, Members(s, src)) == Present(todo, Members(s, src));
    assert s.threads[t := Promoting(src, None, todo)][t := Stopped] == s.threads[t := Stopped];
  }

  lemma WorkedMove(s: State, t: ThreadId, src: Delayed, x: QueueItem, todo: seq<QueueItem>)
    requires x in Members(s, src) && x !in todo
    ensures var s1 := WithMembers(s, src, Without(Members(s, src), x)).(
                        queue := s.queue + multiset{x}, threads := s.threads[t := Promoting(src, None, todo)]);
      WorkedThrough(s1, t, src, todo) == WorkedThrough(s, t, src, [x] + todo)
  {
    hide Minus, Without;
    var members := Members(s, src);
    MinusCons(members, x, todo);
    PresentWithout(todo, members, x);
    assert ([x] + todo)[1..] == todo;
    assert Present([x] + todo, members) == [x] + Present(todo, members);
    Tokens.MultisetCons(x, Present(todo, members));
    assert s.queue + multiset{x} + multiset(Present(todo, members))
        == s.queue + multiset([x] + Present(todo, members));
    assert s.threads[t := Promoting(src, None, todo)][t := Stopped] == s.threads[t := Stopped];
  }

  // A promoter skips what others have claimed from its list and moves all the rest:
  // run alone from any state, it enqueues exactly the listed items that are still
  // members, once each, and removes them.
  lemma {:induction false} PromoteSkips(m: int, s: State, t: ThreadId, src: Delayed, items: seq<QueueItem>)
    returns (actions: seq<Action>)
    requires t in s.threads && s.threads[t] == Promoting(src, None, items) && Distinct(items)
    ensures Acts(m, s, actions) == WorkedThrough(s, t, src, items) && TurnsOf(actions, t)
    decreases |items|
  {
    hide Next, Acts, WorkedThrough, Present, Minus;
    var a := Advance(t, YES);
    if items == [] {
      actions := [a];
      WorkedNothing(m, s, t, src);
    } else {
      var x, todo := items[0], items[1..];
      assert items == [x] + todo;
      var first := if x in Members(s, src) then [a, a] else [a];
      if x in Members(s, src) {
        PromoteOne(m, s, t, src, x, todo);
        WorkedMove(s, t, src, x, todo);
      } else {
        SkipIs(m, s, t, src, x, todo);
        WorkedSkip(s, t, src, x, todo);
      }
      var rest := PromoteSkips(m, Acts(m, s, first), t, src, todo);
      actions := first + rest;
      ActsAppend(m, s, first, rest);
    }
  }
}
