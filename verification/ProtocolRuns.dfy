// Runs of one thread on its own: what its commands do to the stores when it issues
// them one after the other.

module ProtocolRuns {
  import opened Domain
  import opened Protocol
  import DS = DelayedSet
  import Tokens

  const YES: Choice := Choice(true, "", 0, [])
  const NO: Choice := Choice(false, "", 0, [])

  // Actions one after the other, from any state.
  ghost function Acts(m: int, s: State, actions: seq<Action>): State
    decreases |actions|
  {
    if actions == [] then s else Next(m, Acts(m, s, actions[..|actions| - 1]), actions[|actions| - 1])
  }

  lemma {:induction false} ActsAppend(m: int, s: State, a: seq<Action>, b: seq<Action>)
    ensures Acts(m, s, a + b) == Acts(m, Acts(m, s, a), b)
    decreases |b|
  {
    hide Next;
    if b == [] {
      assert a + b == a;
    } else {
      assert (a + b)[..|a + b| - 1] == a + b[..|b| - 1];
      ActsAppend(m, s, a, b[..|b| - 1]);
    }
  }

  lemma {:induction false} AfterActs(m: int, run: seq<Action>, more: seq<Action>)
    ensures After(m, run + more) == Acts(m, After(m, run), more)
    decreases |more|
  {
    hide Next;
    if more == [] {
      assert run + more == run;
    } else {
      assert (run + more)[..|run + more| - 1] == run + more[..|more| - 1];
      AfterActs(m, run, more[..|more| - 1]);
    }
  }

  lemma OneAct(m: int, s: State, a: Action)
    ensures Acts(m, s, [a]) == Next(m, s, a)
  {
    hide Next;
    assert [a][..0] == [];
  }

  lemma NoActs(m: int, s: State)
    ensures Acts(m, s, []) == s
  {
  }

  // Turns of thread t and of no other.
  predicate TurnsOf(actions: seq<Action>, t: ThreadId) {
    forall a :: a in actions ==> a.Advance? && a.t == t
  }

  // A run of one thread from its beginning on, without interruption.
  predicate RunOf(actions: seq<Action>, begin: Action) {
    && (begin.BeginCreate? || begin.BeginWork? || begin.BeginPromote? || begin.BeginCancel?)
    && actions != [] && actions[0] == begin && TurnsOf(actions[1..], begin.t)
  }

  lemma RunGrows(actions: seq<Action>, begin: Action, more: seq<Action>)
    requires RunOf(actions, begin) && TurnsOf(more, begin.t)
    ensures RunOf(actions + more, begin)
  {
    assert (actions + more)[1..] == actions[1..] + more;
  }

  // A thread id that is not in use.
  lemma {:induction false} FreshThread(threads: map<ThreadId, Thread>) returns (t: ThreadId)
    ensures t !in threads && forall u :: u in threads ==> u < t
    decreases threads
  {
    if threads == map[] {
      t := 0;
    } else {
      var u :| u in threads;
      var v := FreshThread(threads - {u});
      t := if u < v then v else u + 1;
      assert forall x :: x in threads ==> x == u || x in threads - {u};
    }
  }

  // ---- a worker thread on its own ----

  ghost function Alone(m: int, s: State, t: ThreadId, cs: seq<Choice>): State
    decreases |cs|
  {
    if cs == [] then s else Alone(m, Next(m, s, Advance(t, cs[0])), t, cs[1..])
  }

  // What such a run can change.
  datatype Local = Local(pc: Thread, rows: map<Id, Row>, retry: map<QueueItem, int>, more: seq<Event>)

  ghost function WithLocal(s: State, t: ThreadId, l: Local): State {
    s.(rows := l.rows, retry := l.retry, log := s.log + l.more, threads := s.threads[t := l.pc])
  }

  function LogOf(c: Command): seq<Event> {
    match c
    case UpdateRow(id, status, _, writer) => [Wrote(id, status, writer)]
    case Say(event) => [event]
    case _ => []
  }

  ghost function LocalStep(m: int, l: Local, c: Choice): Local {
    if !l.pc.Working? then l
    else
      var turn := WorkerTurn(m, INIT.(rows := l.rows), l.pc.item, l.pc.work, c);
      Local(turn.next, RowsAfter(l.rows, turn.command), MembersAfter(l.retry, RetrySet, turn.command),
            l.more + LogOf(turn.command))
  }

  ghost function Path(m: int, l: Local, cs: seq<Choice>): Local
    decreases |cs|
  {
    if cs == [] then l else Path(m, LocalStep(m, l, cs[0]), cs[1..])
  }

  // A worker reads rows only, and writes rows, the retry set and the log only.
  lemma WorkerReads(m: int, s: State, t: ThreadId, l: Local, c: Choice)
    requires l.pc.Working? && s.rows == l.rows && t in s.threads && s.threads[t] == l.pc
    ensures var turn := WorkerTurn(m, INIT.(rows := l.rows), l.pc.item, l.pc.work, c);
      && TurnOf(m, s, Advance(t, c)) == turn
      && (turn.command.Idle? || turn.command.UpdateRow? || turn.command.Say?
          || (turn.command.Add? && turn.command.dst.RetrySet?))
      && (turn.next.Working? || turn.next.Stopped?)
  {
  }

  lemma ExecEmbeds(s: State, t: ThreadId, l: Local, turn: Turn)
    requires turn.command.Idle? || turn.command.UpdateRow? || turn.command.Say?
             || (turn.command.Add? && turn.command.dst.RetrySet?)
    ensures Exec(WithLocal(s, t, l), turn.command).(threads := WithLocal(s, t, l).threads[t := turn.next]) ==
            WithLocal(s, t, Local(turn.next, RowsAfter(l.rows, turn.command),
                               MembersAfter(l.retry, RetrySet, turn.command), l.more + LogOf(turn.command)))
  {
    hide RowsAfter;
    assert LogAfter(s.log + l.more, turn.command) == s.log + (l.more + LogOf(turn.command));
    assert s.threads[t := l.pc][t := turn.next] == s.threads[t := turn.next];
  }

  lemma StepEmbeds(m: int, s: State, t: ThreadId, l: Local, c: Choice)
    requires l.pc.Working? || l.pc.Stopped?
    ensures Next(m, WithLocal(s, t, l), Advance(t, c)) == WithLocal(s, t, LocalStep(m, l, c))
    ensures LocalStep(m, l, c).pc.Working? || LocalStep(m, l, c).pc.Stopped?
  {
    if l.pc.Working? {
      hide WorkerTurn, TurnOf, Exec;
      WorkerReads(m, WithLocal(s, t, l), t, l, c);
      ExecEmbeds(s, t, l, WorkerTurn(m, INIT.(rows := l.rows), l.pc.item, l.pc.work, c));
    } else {
      ExecEmbeds(s, t, l, Turn(Idle, Stopped));
      assert l.more + [] == l.more;
    }
  }

  lemma {:induction false} PathEmbeds(m: int, s: State, t: ThreadId, l: Local, cs: seq<Choice>)
    requires l.pc.Working? || l.pc.Stopped?
    ensures Alone(m, WithLocal(s, t, l), t, cs) == WithLocal(s, t, Path(m, l, cs))
    decreases |cs|
  {
    hide Next, LocalStep, WithLocal;
    if cs != [] {
      StepEmbeds(m, s, t, l, cs[0]);
      PathEmbeds(m, s, t, LocalStep(m, l, cs[0]), cs[1..]);
    }
  }

  lemma {:induction false} AloneActs(m: int, s: State, t: ThreadId, cs: seq<Choice>) returns (actions: seq<Action>)
    ensures Acts(m, s, actions) == Alone(m, s, t, cs) && TurnsOf(actions, t)
    decreases |cs|
  {
    hide Next;
    if cs == [] {
      actions := [];
    } else {
      var a := Advance(t, cs[0]);
      var rest := AloneActs(m, Next(m, s, a), t, cs[1..]);
      actions := [a] + rest;
      OneAct(m, s, a);
      ActsAppend(m, s, [a], rest);
    }
  }

  lemma OneStep(m: int, l: Local, cs: seq<Choice>)
    requires cs != []
    ensures Path(m, l, cs) == Path(m, LocalStep(m, l, cs[0]), cs[1..])
  {
  }

  lemma NoSteps(m: int, l: Local)
    ensures Path(m, l, []) == l
  {
  }

  // ---- the promoters ----

  function WithMembers(s: State, src: Delayed, members: map<QueueItem, int>): State {
    if src.RetrySet? then s.(retry := members) else s.(scheduled := members)
  }

  function Minus(m: map<QueueItem, int>, items: seq<QueueItem>): map<QueueItem, int> {
    map x | x in m && x !in items :: m[x]
  }

  predicate Distinct(items: seq<QueueItem>) {
    forall i, j :: 0 <= i < j < |items| ==> items[i] != items[j]
  }

  lemma PushIs(m: int, s: State, t: ThreadId, src: Delayed, x: QueueItem, todo: seq<QueueItem>)
    requires t in s.threads && s.threads[t] == Promoting(src, Some(x), todo)
    ensures Next(m, s, Advance(t, YES)) ==
            s.(queue := s.queue + multiset{x}, threads := s.threads[t := Promoting(src, None, todo)])
  {
  }

  // Removing one member and enqueuing it.
  lemma PromoteOne(m: int, s: State, t: ThreadId, src: Delayed, x: QueueItem, todo: seq<QueueItem>)
    requires t in s.threads && s.threads[t] == Promoting(src, None, [x] + todo) && x in Members(s, src)
    ensures Acts(m, s, [Advance(t, YES), Advance(t, YES)]) ==
            WithMembers(s, src, Without(Members(s, src), x)).(
              queue := s.queue + multiset{x}, threads := s.threads[t := Promoting(src, None, todo)])
  {
    var a := Advance(t, YES);
    var s1 := WithMembers(s, src, Without(Members(s, src), x)).(
                threads := s.threads[t := Promoting(src, Some(x), todo)]);
    assert ([x] + todo)[1..] == todo;
    assert Next(m, s, a) == s1;
    hide Without;
    PushIs(m, s1, t, src, x, todo);
    hide Next;
    assert s1.threads[t := Promoting(src, None, todo)] == s.threads[t := Promoting(src, None, todo)];
    OneAct(m, s, a);
    OneAct(m, s1, a);
    ActsAppend(m, s, [a], [a]);
    assert [a] + [a] == [a, a];
  }

  // The state when a promoter has moved all its items.
  function PromotedState(s: State, t: ThreadId, src: Delayed, items: seq<QueueItem>): State {
    WithMembers(s, src, Minus(Members(s, src), items)).(
      queue := s.queue + multiset(items), threads := s.threads[t := Stopped])
  }

  lemma PromoteNone(m: int, s: State, t: ThreadId, src: Delayed)
    requires t in s.threads && s.threads[t] == Promoting(src, None, [])
    ensures Acts(m, s, [Advance(t, YES)]) == PromotedState(s, t, src, [])
  {
    OneAct(m, s, Advance(t, YES));
    assert Minus(Members(s, src), []) == Members(s, src);
  }

  lemma PromoteRest(s: State, t: ThreadId, src: Delayed, x: QueueItem, todo: seq<QueueItem>)
    ensures var s1 := WithMembers(s, src, Without(Members(s, src), x)).(
                        queue := s.queue + multiset{x}, threads := s.threads[t := Promoting(src, None, todo)]);
      PromotedState(s1, t, src, todo) == PromotedState(s, t, src, [x] + todo)
  {
    hide Minus, Without;
    MinusCons(Members(s, src), x, todo);
    Tokens.MultisetCons(x, todo);
    assert s.queue + multiset{x} + multiset(todo) == s.queue + multiset([x] + todo);
    assert s.threads[t := Promoting(src, None, todo)][t := Stopped] == s.threads[t := Stopped];
  }

  lemma MinusCons(m: map<QueueItem, int>, x: QueueItem, todo: seq<QueueItem>)
    ensures Minus(Without(m, x), todo) == Minus(m, [x] + todo)
  {
  }

  lemma {:induction false} PromoteAlone(m: int, s: State, t: ThreadId, src: Delayed, items: seq<QueueItem>)
    returns (actions: seq<Action>)
    requires t in s.threads && s.threads[t] == Promoting(src, None, items) && Distinct(items)
    requires forall x :: x in items ==> x in Members(s, src)
    ensures Acts(m, s, actions) == PromotedState(s, t, src, items) && TurnsOf(actions, t)
    decreases |items|
  {
    hide Next, Acts, PromotedState;
    var a := Advance(t, YES);
    if items == [] {
      actions := [a];
      PromoteNone(m, s, t, src);
    } else {
      var x, todo := items[0], items[1..];
      assert items == [x] + todo;
      PromoteOne(m, s, t, src, x, todo);
      var rest := PromoteAlone(m, Acts(m, s, [a, a]), t, src, todo);
      actions := [a, a] + rest;
      ActsAppend(m, s, [a, a], rest);
      PromoteRest(s, t, src, x, todo);
    }
  }

  lemma PromoteBegins(m: int, s: State, t: ThreadId, src: Delayed, now: int, due: seq<QueueItem>)
    requires t !in s.threads
    requires forall i :: 0 <= i < |due| ==> due[i] in Members(s, src) && Members(s, src)[due[i]] <= DS.Unix(now)
    requires forall x :: x in Members(s, src) && Members(s, src)[x] <= DS.Unix(now) ==> x in due
    requires Distinct(due)
    ensures Next(m, s, BeginPromote(t, src, Choice(true, "", now, due))) ==
            s.(threads := s.threads[t := Promoting(src, None, due)])
  {
  }

  lemma SamePromoted(s: State, t: ThreadId, src: Delayed, due: seq<QueueItem>)
    ensures PromotedState(s.(threads := s.threads[t := Promoting(src, None, due)]), t, src, due) ==
        PromotedState(s, t, src, due)
  {
    hide Minus;
  }

  // ---- the canceller ----

  function Purged(queue: multiset<QueueItem>, id: Id, lists: seq<Priority>): multiset<QueueItem>
    decreases |lists|
  {
    if lists == [] then queue else Purged(queue[QueueItem(id, lists[0]) := 0], id, lists[1..])
  }

  lemma {:induction false} PurgeAlone(m: int, s: State, t: ThreadId, id: Id, k: nat, lists: seq<Priority>)
    returns (actions: seq<Action>)
    requires t in s.threads && s.threads[t] == Cancelling(id, k, PurgeQueue(lists))
    ensures Acts(m, s, actions) ==
            s.(queue := Purged(s.queue, id, lists), threads := s.threads[t := Cancelling(id, k, ScanScheduled)])
    ensures TurnsOf(actions, t)
    decreases |lists|
  {
    hide Acts;
    var a := Advance(t, YES);
    OneAct(m, s, a);
    if lists == [] {
      actions := [a];
    } else {
      var s1 := s.(queue := s.queue[QueueItem(id, lists[0]) := 0],
                   threads := s.threads[t := Cancelling(id, k, PurgeQueue(lists[1..]))]);
      assert Next(m, s, a) == s1;
      hide Next;
      var rest := PurgeAlone(m, s1, t, id, k, lists[1..]);
      actions := [a] + rest;
      ActsAppend(m, s, [a], rest);
    }
  }

  lemma {:induction false} UnscheduleAlone(m: int, s: State, t: ThreadId, id: Id, k: nat, todo: seq<QueueItem>)
    returns (actions: seq<Action>)
    requires t in s.threads && s.threads[t] == Cancelling(id, k, Unschedule(todo))
    ensures Acts(m, s, actions) ==
            s.(scheduled := Minus(s.scheduled, todo), threads := s.threads[t := Cancelling(id, k, MarkCancelled)])
    ensures TurnsOf(actions, t)
    decreases |todo|
  {
    hide Acts;
    var a := Advance(t, YES);
    OneAct(m, s, a);
    if todo == [] {
      actions := [a];
      assert Minus(s.scheduled, todo) == s.scheduled;
    } else {
      var s1 := s.(scheduled := Without(s.scheduled, todo[0]),
                   threads := s.threads[t := Cancelling(id, k, Unschedule(todo[1..]))]);
      assert Next(m, s, a) == s1;
      hide Next;
      var rest := UnscheduleAlone(m, s1, t, id, k, todo[1..]);
      actions := [a] + rest;
      ActsAppend(m, s, [a], rest);
      assert Minus(Without(s.scheduled, todo[0]), todo[1..]) == Minus(s.scheduled, todo);
    }
  }

  // The state when a canceller has returned.
  function CancelledState(s: State, t: ThreadId, id: Id, listing: seq<QueueItem>): State
    requires id in s.rows
  {
    s.(rows := s.rows[id := s.rows[id].(status := Cancelled)],
       queue := Purged(s.queue, id, [HIGH, NORMAL, LOW]),
       scheduled := Minus(s.scheduled, listing),
       log := s.log + [Wrote(id, Cancelled, ByCanceller)],
       threads := s.threads[t := Cancelling(id, s.rows[id].attempts, CancelReturned)])
  }

  // listing is what the canceller must remove from the scheduled set.
  ghost predicate Names(listing: seq<QueueItem>, scheduled: map<QueueItem, int>, id: Id) {
    && Distinct(listing)
    && (forall i :: 0 <= i < |listing| ==> listing[i] in scheduled && listing[i].id == id)
    && (forall x :: x in scheduled && x.id == id ==> x in listing)
  }

  lemma ScanIs(m: int, s: State, t: ThreadId, id: Id, k: nat, listing: seq<QueueItem>)
    requires t in s.threads && s.threads[t] == Cancelling(id, k, ScanScheduled) && Names(listing, s.scheduled, id)
    ensures Next(m, s, Advance(t, Choice(true, "", 0, listing))) ==
            s.(threads := s.threads[t := Cancelling(id, k, Unschedule(listing))])
  {
  }

  lemma MarkIs(m: int, s: State, t: ThreadId, id: Id, k: nat)
    requires t in s.threads && s.threads[t] == Cancelling(id, k, MarkCancelled) && id in s.rows
    ensures Next(m, s, Advance(t, YES)) ==
            s.(rows := s.rows[id := s.rows[id].(status := Cancelled, attempts := k)],
               log := s.log + [Wrote(id, Cancelled, ByCanceller)],
               threads := s.threads[t := Cancelling(id, k, CancelReturned)])
  {
  }

  lemma CancelBegins(m: int, s: State, t: ThreadId, id: Id)
    requires t !in s.threads && id in s.rows && s.rows[id].status.Cancellable()
    ensures Next(m, s, BeginCancel(t, id)) ==
            s.(threads := s.threads[t := Cancelling(id, s.rows[id].attempts, PurgeQueue([HIGH, NORMAL, LOW]))])
  {
  }

  lemma CancelAlone(m: int, s: State, t: ThreadId, id: Id, listing: seq<QueueItem>) returns (actions: seq<Action>)
    requires t !in s.threads && id in s.rows && s.rows[id].status.Cancellable() && Names(listing, s.scheduled, id)
    ensures Acts(m, s, actions) == CancelledState(s, t, id, listing) && RunOf(actions, BeginCancel(t, id))
  {
    hide Next, Acts, Purged, Minus, Names;
    var k := s.rows[id].attempts;
    var begin, scan := BeginCancel(t, id), Advance(t, Choice(true, "", 0, listing));
    var mark := Advance(t, YES);
    CancelBegins(m, s, t, id);
    OneAct(m, s, begin);
    var s1 := Acts(m, s, [begin]);
    var purge := PurgeAlone(m, s1, t, id, k, [HIGH, NORMAL, LOW]);
    var s2 := Acts(m, s1, purge);
    ScanIs(m, s2, t, id, k, listing);
    OneAct(m, s2, scan);
    var s3 := Acts(m, s2, [scan]);
    var unschedule := UnscheduleAlone(m, s3, t, id, k, listing);
    var s4 := Acts(m, s3, unschedule);
    MarkIs(m, s4, t, id, k);
    OneAct(m, s4, mark);
    actions := [begin] + purge + [scan] + unschedule + [mark];
    ActsAppend(m, s, [begin] + purge + [scan] + unschedule, [mark]);
    ActsAppend(m, s, [begin] + purge + [scan], unschedule);
    ActsAppend(m, s, [begin] + purge, [scan]);
    ActsAppend(m, s, [begin], purge);
    assert s.rows[id].(status := Cancelled, attempts := k) == s.rows[id].(status := Cancelled);
  }

  lemma PurgedAt(queue: multiset<QueueItem>, id: Id, x: QueueItem)
    ensures Purged(queue, id, [HIGH, NORMAL, LOW])[x] == if x.id == id && ValidPriority(x.priority) then 0 else queue[x]
  {
    var q1 := queue[QueueItem(id, HIGH) := 0];
    var q2 := q1[QueueItem(id, NORMAL) := 0];
    var q3 := q2[QueueItem(id, LOW) := 0];
    assert [HIGH, NORMAL, LOW][1..] == [NORMAL, LOW] && [NORMAL, LOW][1..] == [LOW] && [LOW][1..] == [];
    assert Purged(q2, id, [LOW]) == q3;
    assert Purged(q1, id, [NORMAL, LOW]) == q3;
    assert Purged(queue, id, [HIGH, NORMAL, LOW]) == q3;
  }

  // ---- the creator ----

  lemma ToPrepare(m: int, s: State, t: ThreadId, req: Request) returns (actions: seq<Action>)
    requires t !in s.threads && !KeyTaken(s.rows, req.key)
    ensures Acts(m, s, actions) == s.(threads := s.threads[t := Creating(req, Prepare)])
    ensures RunOf(actions, BeginCreate(t, req))
  {
    hide Acts;
    var begin := BeginCreate(t, req);
    OneAct(m, s, begin);
    if req.key.None? {
      actions := [begin];
    } else {
      var s1 := s.(threads := s.threads[t := Creating(req, CheckKey)]);
      assert Next(m, s, begin) == s1;
      assert Next(m, s1, Advance(t, YES)) == s.(threads := s.threads[t := Creating(req, Prepare)]);
      OneAct(m, s1, Advance(t, YES));
      actions := [begin] + [Advance(t, YES)];
      ActsAppend(m, s, [begin], [Advance(t, YES)]);
    }
  }

  function Claimed(keys: map<Key, Id>, key: Option<Key>, id: Id): map<Key, Id> {
    if key.Some? then keys[key.value := id] else keys
  }

  lemma PrepareIs(m: int, s: State, t: ThreadId, req: Request, id: Id, now: int)
    requires t in s.threads && s.threads[t] == Creating(req, Prepare) && id !in s.issued && ValidPriority(req.priority)
    ensures Next(m, s, Advance(t, Choice(true, id, now, []))) ==
            s.(issued := s.issued[id := Origin(req.key, t)],
               threads := s.threads[t := Creating(req, if req.key.Some? then Claim(id, now) else Insert(id, now))])
  {
  }

  lemma ClaimIs(m: int, s: State, t: ThreadId, req: Request, id: Id, now: int)
    requires t in s.threads && s.threads[t] == Creating(req, Claim(id, now)) && req.key.Some?
        && req.key.value !in s.keys
    ensures Next(m, s, Advance(t, YES)) ==
            s.(keys := Claimed(s.keys, req.key, id), threads := s.threads[t := Creating(req, Insert(id, now))])
  {
  }

  lemma ToInsert(m: int, s: State, t: ThreadId, req: Request, id: Id, now: int) returns (actions: seq<Action>)
    requires t in s.threads && s.threads[t] == Creating(req, Prepare) && id !in s.issued && ValidPriority(req.priority)
    requires req.key.Some? ==> req.key.value !in s.keys
    ensures Acts(m, s, actions) ==
            s.(issued := s.issued[id := Origin(req.key, t)], keys := Claimed(s.keys, req.key, id),
               threads := s.threads[t := Creating(req, Insert(id, now))])
    ensures TurnsOf(actions, t)
  {
    hide Acts, Next, ValidPriority;
    var prepare := Advance(t, Choice(true, id, now, []));
    PrepareIs(m, s, t, req, id, now);
    OneAct(m, s, prepare);
    if req.key.None? {
      actions := [prepare];
    } else {
      var s1 := Acts(m, s, [prepare]);
      ClaimIs(m, s1, t, req, id, now);
      OneAct(m, s1, Advance(t, YES));
      actions := [prepare] + [Advance(t, YES)];
      ActsAppend(m, s, [prepare], [Advance(t, YES)]);
    }
  }

  lemma InsertIs(m: int, s: State, t: ThreadId, req: Request, id: Id, now: int)
    requires t in s.threads && s.threads[t] == Creating(req, Insert(id, now))
    requires id !in s.rows && !KeyTaken(s.rows, req.key)
    ensures Next(m, s, Advance(t, YES)) ==
            s.(rows := s.rows[id := Row(req.key, req.priority, Pending, 0)],
               threads := s.threads[t := Creating(req, Handover(id, now))])
  {
  }

  predicate Later(req: Request, now: int) {
    req.dueAt.Some? && now < req.dueAt.value
  }

  lemma HandoverIs(m: int, s: State, t: ThreadId, req: Request, id: Id, now: int)
    requires t in s.threads && s.threads[t] == Creating(req, Handover(id, now))
    ensures var item := QueueItem(id, req.priority);
      Next(m, s, Advance(t, YES)) ==
      if Later(req, now) then
        s.(scheduled := s.scheduled[item := DS.Unix(req.dueAt.value)], threads := s.threads[t := Creating(req,
            Returned(id))])
      else s.(queue := s.queue + multiset{item}, threads := s.threads[t := Creating(req, MarkQueued(id))])
  {
  }

  lemma QueuedIs(m: int, s: State, t: ThreadId, req: Request, id: Id)
    requires t in s.threads && s.threads[t] == Creating(req, MarkQueued(id)) && id in s.rows
    ensures Next(m, s, Advance(t, YES)) ==
            s.(rows := s.rows[id := s.rows[id].(status := Queued, attempts := 0)],
               log := s.log + [Wrote(id, Queued, ByCreator)],
               threads := s.threads[t := Creating(req, Returned(id))])
  {
  }

  // The state when a creator has inserted its row and handed its item over.
  function HandedState(s: State, t: ThreadId, req: Request, id: Id, now: int): State {
    var item := QueueItem(id, req.priority);
    var later := Later(req, now);
    s.(rows := s.rows[id := Row(req.key, req.priority, Pending, 0)],
       scheduled := if later then s.scheduled[item := DS.Unix(req.dueAt.value)] else s.scheduled,
       queue := if later then s.queue else s.queue + multiset{item},
       threads := s.threads[t := Creating(req, if later then Returned(id) else MarkQueued(id))])
  }

  lemma ToHandedOver(m: int, s: State, t: ThreadId, req: Request, id: Id, now: int)
    requires t in s.threads && s.threads[t] == Creating(req, Insert(id, now))
    requires id !in s.rows && !KeyTaken(s.rows, req.key)
    ensures Acts(m, s, [Advance(t, YES)] + [Advance(t, YES)]) == HandedState(s, t, req, id, now)
  {
    hide Acts, Next, KeyTaken;
    var a := Advance(t, YES);
    InsertIs(m, s, t, req, id, now);
    OneAct(m, s, a);
    HandoverIs(m, Acts(m, s, [a]), t, req, id, now);
    OneAct(m, Acts(m, s, [a]), a);
    ActsAppend(m, s, [a], [a]);
  }

  // The state when a creator has returned from the insert of a new row.
  function ReturnedState(s: State, t: ThreadId, req: Request, id: Id, now: int): State {
    var item := QueueItem(id, req.priority);
    var later := Later(req, now);
    s.(rows := s.rows[id := Row(req.key, req.priority, if later then Pending else Queued, 0)],
       scheduled := if later then s.scheduled[item := DS.Unix(req.dueAt.value)] else s.scheduled,
       queue := if later then s.queue else s.queue + multiset{item},
       log := if later then s.log else s.log + [Wrote(id, Queued, ByCreator)],
       threads := s.threads[t := Creating(req, Returned(id))])
  }

  lemma MarkReturns(m: int, s: State, t: ThreadId, req: Request, id: Id, now: int)
    requires !Later(req, now)
    ensures Next(m, HandedState(s, t, req, id, now), Advance(t, YES)) == ReturnedState(s, t, req, id, now)
  {
    hide Next;
    QueuedIs(m, HandedState(s, t, req, id, now), t, req, id);
  }

  // From the insert to the return.
  lemma ToReturned(m: int, s: State, t: ThreadId, req: Request, id: Id, now: int) returns (actions: seq<Action>)
    requires t in s.threads && s.threads[t] == Creating(req, Insert(id, now))
    requires id !in s.rows && !KeyTaken(s.rows, req.key)
    ensures Acts(m, s, actions) == ReturnedState(s, t, req, id, now)
    ensures TurnsOf(actions, t)
  {
    hide Acts, Next, KeyTaken, HandedState, ReturnedState;
    var a := Advance(t, YES);
    ToHandedOver(m, s, t, req, id, now);
    actions := [a] + [a];
    if Later(req, now) {
      LaterReturns(s, t, req, id, now);
    } else {
      MarkReturns(m, s, t, req, id, now);
      OneAct(m, HandedState(s, t, req, id, now), a);
      ActsAppend(m, s, [a] + [a], [a]);
      actions := [a] + [a] + [a];
    }
  }

  lemma LaterReturns(s: State, t: ThreadId, req: Request, id: Id, now: int)
    requires Later(req, now)
    ensures HandedState(s, t, req, id, now) == ReturnedState(s, t, req, id, now)
  {
  }

  // The state when a creator has returned a new row.
  function CreatedState(s: State, t: ThreadId, req: Request, id: Id, now: int): State {
    ReturnedState(s, t, req, id, now).(
      keys := Claimed(s.keys, req.key, id), issued := s.issued[id := Origin(req.key, t)])
  }

  lemma CreatedIs(s: State, t: ThreadId, req: Request, id: Id, now: int, pc: Thread)
    ensures ReturnedState(s.(issued := s.issued[id := Origin(req.key, t)], keys := Claimed(s.keys, req.key, id),
                             threads := s.threads[t := pc]), t, req, id, now) ==
            CreatedState(s, t, req, id, now)
  {
  }

  lemma CreateAlone(m: int, s: State, t: ThreadId, req: Request, id: Id, now: int) returns (actions: seq<Action>)
    requires t !in s.threads && !KeyTaken(s.rows, req.key) && id !in s.issued && id !in s.rows
    requires ValidPriority(req.priority) && (req.key.Some? ==> req.key.value !in s.keys)
    ensures Acts(m, s, actions) == CreatedState(s, t, req, id, now) && RunOf(actions, BeginCreate(t, req))
  {
    hide Acts, Next, KeyTaken, ValidPriority, CreatedState, ReturnedState, Claimed;
    CreatedIs(s, t, req, id, now, Creating(req, Insert(id, now)));
    var prepare := ToPrepare(m, s, t, req);
    var s1 := Acts(m, s, prepare);
    var insert := ToInsert(m, s1, t, req, id, now);
    var s2 := Acts(m, s1, insert);
    assert s2 == s.(issued := s.issued[id := Origin(req.key, t)], keys := Claimed(s.keys, req.key, id),
                    threads := s.threads[t := Creating(req, Insert(id, now))]);
    var finish := ToReturned(m, s2, t, req, id, now);
    actions := prepare + insert + finish;
    ActsAppend(m, s, prepare + insert, finish);
    ActsAppend(m, s, prepare, insert);
  }

  // A cancel of a row that is missing or cannot be cancelled stops at once.
  lemma CancelRefused(m: int, s: State, t: ThreadId, id: Id)
    requires t !in s.threads && (id in s.rows ==> !s.rows[id].status.Cancellable())
    ensures Acts(m, s, [BeginCancel(t, id)]) == s.(threads := s.threads[t := Stopped])
  {
    OneAct(m, s, BeginCancel(t, id));
  }

  // A create with a key that one row has returns that row's id.
  lemma CreateFound(m: int, s: State, t: ThreadId, req: Request, i: Id)
    requires t !in s.threads && req.key.Some? && i in s.rows && s.rows[i].key == req.key
    requires forall j :: j in s.rows && s.rows[j].key == req.key ==> j == i
    ensures Acts(m, s, [BeginCreate(t, req), Advance(t, YES)]) ==
            s.(threads := s.threads[t := Creating(req, Returned(i))])
  {
    var begin, a := BeginCreate(t, req), Advance(t, YES);
    var s1 := s.(threads := s.threads[t := Creating(req, CheckKey)]);
    assert Next(m, s, begin) == s1;
    assert Next(m, s1, a) == s.(threads := s.threads[t := Creating(req, Returned(i))]);
    hide Next;
    OneAct(m, s, begin);
    OneAct(m, s1, a);
    ActsAppend(m, s, [begin], [a]);
    assert [begin] + [a] == [begin, a];
  }

  // A create whose template or validation fails stops before it generates anything.
  lemma CreateRefused(m: int, s: State, t: ThreadId, req: Request) returns (actions: seq<Action>)
    requires t !in s.threads && !KeyTaken(s.rows, req.key)
    ensures Acts(m, s, actions) == s.(threads := s.threads[t := Stopped]) && RunOf(actions, BeginCreate(t, req))
  {
    hide Acts, KeyTaken;
    var prepare := ToPrepare(m, s, t, req);
    var a := Advance(t, NO);
    OneAct(m, Acts(m, s, prepare), a);
    actions := prepare + [a];
    ActsAppend(m, s, prepare, [a]);
    RunGrows(prepare, BeginCreate(t, req), [a]);
  }
}
