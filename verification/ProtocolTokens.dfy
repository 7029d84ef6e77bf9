// Every notification has at most one token: one occurrence in the queue, one
// membership of a delayed set, or the hands of one thread.

module ProtocolTokens {
  import opened Domain
  import opened Protocol

  // A place where a token can be. A queue place names one occurrence of an item.
  datatype Place =
    | InQueue(priority: Priority, occurrence: nat)
    | InRetry(priority: Priority)
    | InScheduled(priority: Priority)
    | InHand(t: ThreadId)

  // The id whose token a thread carries: a creator until it has handed the id
  // over, a worker from dequeue to its last command, a promoter between removing
  // a member and enqueuing it.
  function Held(pc: Thread): Option<Id> {
    match pc
    case Creating(_, at) => (match at
      case Claim(id, _) => Some(id)
      case Insert(id, _) => Some(id)
      case Handover(id, _) => Some(id)
      case _ => None)
    case Working(item, _) => Some(item.id)
    case Promoting(_, hand, _) => if hand.Some? then Some(hand.value.id) else None
    case _ => None
  }

  // There is a token of id at place p in state s.
  ghost predicate TokenAt(s: State, id: Id, p: Place) {
    match p
    case InQueue(priority, occurrence) => occurrence < s.queue[QueueItem(id, priority)]
    case InRetry(priority) => QueueItem(id, priority) in s.retry
    case InScheduled(priority) => QueueItem(id, priority) in s.scheduled
    case InHand(t) => t in s.threads && Held(s.threads[t]) == Some(id)
  }

  // A map from ids to places that accounts for every token there is. An id that
  // was issued and is no longer in the map has lost its token for good.
  ghost predicate Account(queue: multiset<QueueItem>, retry: map<QueueItem, int>, scheduled: map<QueueItem, int>,
                          threads: map<ThreadId, Thread>, issued: map<Id, Origin>, loc: map<Id, Place>)
  {
    && (forall id :: id in loc ==> id in issued)
    && (forall x :: x in queue ==> queue[x] == 1 && x.id in loc && loc[x.id] == InQueue(x.priority, 0))
    && (forall x :: x in retry ==> x.id in loc && loc[x.id] == InRetry(x.priority))
    && (forall x :: x in scheduled ==> x.id in loc && loc[x.id] == InScheduled(x.priority))
    && (forall t :: t in threads && Held(threads[t]).Some? ==>
          Held(threads[t]).value in loc && loc[Held(threads[t]).value] == InHand(t))
  }

  ghost predicate Owns(s: State, loc: map<Id, Place>) {
    Account(s.queue, s.retry, s.scheduled, s.threads, s.issued, loc)
  }

  ghost function Drop(loc: map<Id, Place>, id: Id): map<Id, Place> {
    map x | x in loc && x != id :: loc[x]
  }

  // How a command of thread t may change the account: ids appear only by being
  // issued, and what other threads carry stays with them.
  ghost predicate Shift(s: State, t: ThreadId, loc: map<Id, Place>, loc': map<Id, Place>) {
    && (forall id :: id in loc' ==> id in loc || id !in s.issued)
    && (forall id :: id in loc && loc[id].InHand? && loc[id].t != t ==> id in loc' && loc'[id] == loc[id])
  }

  ghost predicate Carries(s: State, t: ThreadId, id: Option<Id>) {
    if t in s.threads then Held(s.threads[t]) == id else id == None
  }

  // The ways a command can treat tokens, one lemma each.

  lemma KeepHolding(s: State, t: ThreadId, pc': Thread, loc: map<Id, Place>)
    requires Owns(s, loc) && Carries(s, t, Held(pc'))
    ensures Account(s.queue, s.retry, s.scheduled, s.threads[t := pc'], s.issued, loc) && Shift(s, t, loc, loc)
  {
  }

  lemma LetGo(s: State, t: ThreadId, pc': Thread, id: Id, loc: map<Id, Place>)
    requires Owns(s, loc) && Carries(s, t, Some(id)) && Held(pc') == None
    ensures var loc' := Drop(loc, id);
      Account(s.queue, s.retry, s.scheduled, s.threads[t := pc'], s.issued, loc') && Shift(s, t, loc, loc')
  {
  }

  lemma PutInQueue(s: State, t: ThreadId, pc': Thread, item: QueueItem, loc: map<Id, Place>)
    requires Owns(s, loc) && Carries(s, t, Some(item.id)) && Held(pc') == None
    ensures var loc' := loc[item.id := InQueue(item.priority, 0)];
      && Account(s.queue + multiset{item}, s.retry, s.scheduled, s.threads[t := pc'], s.issued, loc')
      && Shift(s, t, loc, loc')
  {
    assert item !in s.queue;
  }

  lemma TakeFromQueue(s: State, t: ThreadId, pc': Thread, item: QueueItem, loc: map<Id, Place>)
    requires Owns(s, loc) && Carries(s, t, None) && Held(pc') == Some(item.id) && item in s.queue
    ensures var loc' := loc[item.id := InHand(t)];
      && Account(s.queue - multiset{item}, s.retry, s.scheduled, s.threads[t := pc'], s.issued, loc')
      && Shift(s, t, loc, loc')
  {
  }

  lemma Issue(s: State, t: ThreadId, pc': Thread, id: Id, origin: Origin, loc: map<Id, Place>)
    requires Owns(s, loc) && Carries(s, t, None) && Held(pc') == Some(id) && id !in s.issued
    ensures var loc' := loc[id := InHand(t)];
      && Account(s.queue, s.retry, s.scheduled, s.threads[t := pc'], s.issued[id := origin], loc')
      && Shift(s, t, loc, loc')
  {
  }

  lemma PurgedAccount(s: State, t: ThreadId, pc': Thread, item: QueueItem, loc: map<Id, Place>)
    returns (loc': map<Id, Place>)
    requires Owns(s, loc) && Carries(s, t, None) && Held(pc') == None
    ensures Account(s.queue[item := 0], s.retry, s.scheduled, s.threads[t := pc'], s.issued, loc')
    ensures Shift(s, t, loc, loc')
  {
    loc' := if item in s.queue then Drop(loc, item.id) else loc;
  }

  lemma PutInRetry(s: State, t: ThreadId, pc': Thread, item: QueueItem, at: int, loc: map<Id, Place>)
    requires Owns(s, loc) && Carries(s, t, Some(item.id)) && Held(pc') == None
    ensures var loc' := loc[item.id := InRetry(item.priority)];
      && Account(s.queue, s.retry[item := at], s.scheduled, s.threads[t := pc'], s.issued, loc')
      && Shift(s, t, loc, loc')
  {
  }

  lemma PutInScheduled(s: State, t: ThreadId, pc': Thread, item: QueueItem, at: int, loc: map<Id, Place>)
    requires Owns(s, loc) && Carries(s, t, Some(item.id)) && Held(pc') == None
    ensures var loc' := loc[item.id := InScheduled(item.priority)];
      && Account(s.queue, s.retry, s.scheduled[item := at], s.threads[t := pc'], s.issued, loc')
      && Shift(s, t, loc, loc')
  {
  }

  lemma TakeFromRetry(s: State, t: ThreadId, pc': Thread, item: QueueItem, loc: map<Id, Place>)
    requires Owns(s, loc) && Carries(s, t, None) && Held(pc') == Some(item.id) && item in s.retry
    ensures var loc' := loc[item.id := InHand(t)];
      && Account(s.queue, Without(s.retry, item), s.scheduled, s.threads[t := pc'], s.issued, loc')
      && Shift(s, t, loc, loc')
  {
  }

  lemma TakeFromScheduled(s: State, t: ThreadId, pc': Thread, item: QueueItem, loc: map<Id, Place>)
    requires Owns(s, loc) && Carries(s, t, None) && Held(pc') == Some(item.id) && item in s.scheduled
    ensures var loc' := loc[item.id := InHand(t)];
      && Account(s.queue, s.retry, Without(s.scheduled, item), s.threads[t := pc'], s.issued, loc')
      && Shift(s, t, loc, loc')
  {
  }

  lemma DropFromScheduled(s: State, t: ThreadId, pc': Thread, item: QueueItem, loc: map<Id, Place>)
    returns (loc': map<Id, Place>)
    requires Owns(s, loc) && Carries(s, t, None) && Held(pc') == None
    ensures Account(s.queue, s.retry, Without(s.scheduled, item), s.threads[t := pc'], s.issued, loc')
    ensures Shift(s, t, loc, loc')
  {
    loc' := if item in s.scheduled then Drop(loc, item.id) else loc;
  }

  // When a turn of thread t moves no token but the one it holds or takes.
  ghost predicate Fits(s: State, t: ThreadId, turn: Turn) {
    var held := Held(turn.next);
    match turn.command
    case Generate(id, _) => Carries(s, t, None) && held == Some(id) && id !in s.issued
    case Push(item) => Carries(s, t, Some(item.id)) && held == None
    case Add(_, item, _) => Carries(s, t, Some(item.id)) && held == None
    case Pop(item) => Carries(s, t, None) && held == Some(item.id) && item in s.queue
    case Purge(_) => Carries(s, t, None) && held == None
    case Remove(src, item) =>
      && Carries(s, t, None)
      && if held == None then src == ScheduledSet else held == Some(item.id) && item in Members(s, src)
    case _ => Carries(s, t, held) || (t in s.threads && Held(s.threads[t]).Some? && held == None)
  }

  // Commands that touch no store of tokens.
  predicate Quiet(c: Command) {
    c.Idle? || c.SetKey? || c.InsertRow? || c.UpdateRow? || c.Say?
  }

  lemma QuietOwns(s: State, t: ThreadId, turn: Turn, loc: map<Id, Place>) returns (loc': map<Id, Place>)
    requires Owns(s, loc) && Quiet(turn.command) && Fits(s, t, turn)
    ensures Owns(Exec(s, turn.command).(threads := s.threads[t := turn.next]), loc') && Shift(s, t, loc, loc')
  {
    hide Account, Shift;
    if Carries(s, t, Held(turn.next)) {
      KeepHolding(s, t, turn.next, loc);
      loc' := loc;
    } else {
      LetGo(s, t, turn.next, Held(s.threads[t]).value, loc);
      loc' := Drop(loc, Held(s.threads[t]).value);
    }
  }

  lemma SetOwns(s: State, t: ThreadId, turn: Turn, loc: map<Id, Place>) returns (loc': map<Id, Place>)
    requires Owns(s, loc) && (turn.command.Add? || turn.command.Remove?) && Fits(s, t, turn)
    ensures Owns(Exec(s, turn.command).(threads := s.threads[t := turn.next]), loc') && Shift(s, t, loc, loc')
  {
    hide Account, Shift, Without;
    match turn.command {
      case Add(dst, item, at) =>
        if dst.RetrySet? {
          PutInRetry(s, t, turn.next, item, at, loc);
          loc' := loc[item.id := InRetry(item.priority)];
        } else {
          PutInScheduled(s, t, turn.next, item, at, loc);
          loc' := loc[item.id := InScheduled(item.priority)];
        }
      case Remove(src, item) =>
        if Held(turn.next).None? {
          loc' := DropFromScheduled(s, t, turn.next, item, loc);
        } else {
          if src.RetrySet? {
            TakeFromRetry(s, t, turn.next, item, loc);
          } else {
            TakeFromScheduled(s, t, turn.next, item, loc);
          }
          loc' := loc[item.id := InHand(t)];
        }
    }
  }

  lemma TurnOwns(s: State, t: ThreadId, turn: Turn, loc: map<Id, Place>) returns (loc': map<Id, Place>)
    requires Owns(s, loc) && Fits(s, t, turn)
    ensures Owns(Exec(s, turn.command).(threads := s.threads[t := turn.next]), loc') && Shift(s, t, loc, loc')
  {
    hide Account, Shift, Without;
    match turn.command {
      case Generate(id, origin) => Issue(s, t, turn.next, id, origin, loc); loc' := loc[id := InHand(t)];
      case Push(item) => PutInQueue(s, t, turn.next, item, loc); loc' := loc[item.id := InQueue(item.priority, 0)];
      case Pop(item) => TakeFromQueue(s, t, turn.next, item, loc); loc' := loc[item.id := InHand(t)];
      case Purge(item) => loc' := PurgedAccount(s, t, turn.next, item, loc);
      case Add(_, _, _) => loc' := SetOwns(s, t, turn, loc);
      case Remove(_, _) => loc' := SetOwns(s, t, turn, loc);
      case _ => loc' := QuietOwns(s, t, turn, loc);
    }
  }

  lemma TurnFits(maxAttempts: int, s: State, a: Action)
    requires !a.ExpireKey?
    ensures Fits(s, a.t, TurnOf(maxAttempts, s, a))
  {
    hide Lists, KeyTaken;
  }

  lemma NextOwns(maxAttempts: int, s: State, a: Action, loc: map<Id, Place>) returns (loc': map<Id, Place>)
    requires Owns(s, loc)
    ensures Owns(Next(maxAttempts, s, a), loc')
    ensures if a.ExpireKey? then loc' == loc else Shift(s, a.t, loc, loc')
  {
    hide Account, Shift, Fits, TurnOf;
    loc' := loc;
    if !a.ExpireKey? {
      TurnFits(maxAttempts, s, a);
      loc' := TurnOwns(s, a.t, TurnOf(maxAttempts, s, a), loc);
    }
  }

  lemma InitOwns()
    ensures Owns(INIT, map[])
  {
  }

  lemma {:induction false} ReachableOwns(maxAttempts: int, run: seq<Action>) returns (loc: map<Id, Place>)
    ensures Owns(After(maxAttempts, run), loc)
  {
    hide Account, Shift;
    if run == [] {
      loc := map[];
      InitOwns();
    } else {
      var before := ReachableOwns(maxAttempts, run[..|run| - 1]);
      loc := NextOwns(maxAttempts, After(maxAttempts, run[..|run| - 1]), run[|run| - 1], before);
    }
  }

  // In every reachable state two places with a token of the same id are one place.
  lemma AtMostOneToken(maxAttempts: int, run: seq<Action>, id: Id, p: Place, q: Place)
    requires TokenAt(After(maxAttempts, run), id, p) && TokenAt(After(maxAttempts, run), id, q)
    ensures p == q
  {
    var loc := ReachableOwns(maxAttempts, run);
    assert forall r :: TokenAt(After(maxAttempts, run), id, r) ==> r == loc[id];
  }
}
