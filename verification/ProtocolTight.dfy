// The bound on sends is attained: without losing a single write a notification can
// be sent twice the cap less one.

module ProtocolTight {
  import opened Domain
  import opened Protocol
  import opened ProtocolTokens
  import opened ProtocolEvents
  import opened ProtocolBound
  import opened ProtocolRuns
  import opened ProtocolCalm
  import opened ProtocolCancel
  import opened Grains
  import U = UseCases

  // Where a notification stands between two attempts: its item is in the queue,
  // its creator has yet to write `queued`, and it has used k attempts.
  ghost predicate Waits(s: State, k: nat, creator: Thread) {
    && ITEM in s.queue && ITEM.id in s.rows && s.rows[ITEM.id].attempts == k && s.rows[ITEM.id].status.Cancellable()
    && 0 in s.threads && s.threads[0] == creator
  }

  // What a rejected attempt adds to the log.
  lemma {:induction false} NothingLost(log: seq<Event>, more: seq<Event>, id: Id)
    requires forall i :: 0 <= i < |more| ==> !more[i].RetryLost?
    ensures LostOf(log + more, id) == LostOf(log, id)
    decreases |more|
  {
    if more == [] {
      assert log + more == log;
    } else {
      assert (log + more)[..|log + more| - 1] == log + more[..|more| - 1];
      NothingLost(log, more[..|more| - 1], id);
    }
  }

  lemma OneSendMore(log: seq<Event>, v: U.Verdict, attempts: nat)
    requires U.Sends(v)
    ensures var log' := log + EventsOf(v, ITEM.id, attempts);
      SendsLogged(log', ITEM.id) == SendsLogged(log, ITEM.id) + 1 && LostOf(log', ITEM.id) == LostOf(log, ITEM.id)
  {
    hide StoryIn, LostOf, SendsLogged;
    EndTold(log, v, ITEM.id, attempts, ITEM.id);
    StoryCounts(log, ITEM.id);
    StoryCounts(log + EventsOf(v, ITEM.id, attempts), ITEM.id);
    NothingLost(log, EventsOf(v, ITEM.id, attempts), ITEM.id);
  }

  // One attempt by a new worker.
  lemma Attempt(m: int, s: State, k: nat, creator: Thread, v: U.Verdict) returns (actions: seq<Action>)
    requires Waits(s, k, creator) && U.Sends(v)
    requires (v.GiveUp? ==> k + 1 >= m) && (v.TryLater? ==> k + 1 < m)
    ensures var s' := Acts(m, s, actions);
      && SendsLogged(s'.log, ITEM.id) == SendsLogged(s.log, ITEM.id) + 1
      && LostOf(s'.log, ITEM.id) == LostOf(s.log, ITEM.id)
      && (v.TryLater? ==>
            && ITEM in s'.retry && ITEM.id in s'.rows && s'.rows[ITEM.id].attempts == k + 1
            && s'.rows[ITEM.id].status == Queued && 0 in s'.threads && s'.threads[0] == creator)
  {
    hide Acts, Next, Alone, Script, EventsOf, SendsLogged, LostOf;
    var t := FreshThread(s.threads);
    var begin := BeginWork(t, ITEM);
    Begins(m, s, t);
    OneAct(m, s, begin);
    var s1 := Acts(m, s, [begin]);
    WorkerAlone(m, s1, t, ITEM, v, 0);
    var rest := AloneActs(m, s1, t, Script(v, 0));
    actions := [begin] + rest;
    ActsAppend(m, s, [begin], rest);
    var more := EventsOf(v, ITEM.id, k);
    assert [] + more == more;
    OneSendMore(s.log, v, k);
  }

  lemma Begins(m: int, s: State, t: ThreadId)
    requires ITEM in s.queue && t !in s.threads
    ensures Next(m, s, BeginWork(t, ITEM)) ==
            s.(queue := s.queue - multiset{ITEM}, threads := s.threads[t := Working(ITEM, Fetch)])
  {
  }

  // A rejected attempt and the promotion of its item.
  lemma Rejection(m: int, s: State, k: nat, creator: Thread) returns (actions: seq<Action>)
    requires Waits(s, k, creator) && k + 1 < m
    ensures var s' := Acts(m, s, actions);
      && Waits(s', k + 1, creator)
      && SendsLogged(s'.log, ITEM.id) == SendsLogged(s.log, ITEM.id) + 1
      && LostOf(s'.log, ITEM.id) == LostOf(s.log, ITEM.id)
  {
    hide Acts, SendsLogged, LostOf;
    var attempt := Attempt(m, s, k, creator, U.TryLater);
    var s1 := Acts(m, s, attempt);
    var t, promote := PromoteEverything(m, s1, RetrySet, ITEM);
    actions := attempt + promote;
    ActsAppend(m, s, attempt, promote);
  }

  // n rejections in a row.
  lemma {:induction false} Rejections(m: int, s: State, k: nat, n: nat, creator: Thread) returns (actions: seq<Action>)
    requires Waits(s, k, creator) && k + n < Cap(m)
    ensures var s' := Acts(m, s, actions);
      && Waits(s', k + n, creator)
      && SendsLogged(s'.log, ITEM.id) == SendsLogged(s.log, ITEM.id) + n
      && LostOf(s'.log, ITEM.id) == LostOf(s.log, ITEM.id)
    decreases n
  {
    hide Acts, SendsLogged, LostOf, Waits;
    if n == 0 {
      actions := [];
      NoActs(m, s);
    } else {
      var first := Rejection(m, s, k, creator);
      var s1 := Acts(m, s, first);
      var rest := Rejections(m, s1, k + 1, n - 1, creator);
      actions := first + rest;
      ActsAppend(m, s, first, rest);
    }
  }

  // The creator's late write starts the count again.
  lemma LateWrite(m: int, s: State, k: nat)
    requires Waits(s, k, Creating(REQ, MarkQueued(ITEM.id)))
    ensures var s' := Next(m, s, Advance(0, YES));
      && Waits(s', 0, Creating(REQ, Returned(ITEM.id)))
      && SendsLogged(s'.log, ITEM.id) == SendsLogged(s.log, ITEM.id)
      && LostOf(s'.log, ITEM.id) == LostOf(s.log, ITEM.id)
  {
    QueuedIs(m, s, 0, REQ, ITEM.id);
    hide Next, SendsLogged, LostOf;
    OneEvent(s.log, Wrote(ITEM.id, Queued, ByCreator));
  }

  lemma OneEvent(log: seq<Event>, e: Event)
    requires e.Wrote?
    ensures SendsLogged(log + [e], ITEM.id) == SendsLogged(log, ITEM.id)
    ensures LostOf(log + [e], ITEM.id) == LostOf(log, ITEM.id)
  {
    assert (log + [e])[..|log|] == log;
  }

  // For every MaxAttempts some run in which no write is lost sends a notification
  // 2 * max(1, MaxAttempts) - 1 times.
  lemma BoundAttained(maxAttempts: int) returns (run: seq<Action>, id: Id)
    ensures SendsLogged(After(maxAttempts, run).log, id) == 2 * Cap(maxAttempts) - 1
    ensures LostOf(After(maxAttempts, run).log, id) == 0
  {
    hide After, Acts, Next, Waits;
    id := ITEM.id;
    var n := Cap(maxAttempts) - 1;
    var creator, returned := Creating(REQ, MarkQueued(ITEM.id)), Creating(REQ, Returned(ITEM.id));
    Start(maxAttempts);
    StartWaits();
    var first := Rejections(maxAttempts, S4, 0, n, creator);
    var s1 := Acts(maxAttempts, S4, first);
    LateWrite(maxAttempts, s1, n);
    OneAct(maxAttempts, s1, Advance(0, YES));
    var s2 := Acts(maxAttempts, s1, [Advance(0, YES)]);
    var second := Rejections(maxAttempts, s2, 0, n, returned);
    var s3 := Acts(maxAttempts, s2, second);
    var last := Attempt(maxAttempts, s3, n, returned, U.Deliver);
    var more := first + [Advance(0, YES)] + second + last;
    ActsAppend(maxAttempts, S4, first + [Advance(0, YES)] + second, last);
    ActsAppend(maxAttempts, S4, first + [Advance(0, YES)], second);
    ActsAppend(maxAttempts, S4, first, [Advance(0, YES)]);
    run := START[..4] + more;
    AfterActs(maxAttempts, START[..4], more);
  }

  lemma StartWaits()
    ensures Waits(S4, 0, Creating(REQ, MarkQueued(ITEM.id)))
    ensures SendsLogged(S4.log, ITEM.id) == 0 && LostOf(S4.log, ITEM.id) == 0
  {
  }
}
