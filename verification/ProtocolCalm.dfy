// What a cancel or a delivery guarantees when commands interleave. Neither the
// cancelled nor the delivered status keeps a notification from being sent or
// overwritten by threads that are already under way, and nothing else does: both
// statuses stand for good exactly when no such thread is left.

module ProtocolCalm {
  import opened Domain
  import opened Protocol
  import opened ProtocolTokens
  import opened ProtocolKeys
  import opened ProtocolEvents
  import opened ProtocolBound
  import opened ProtocolRuns

  // A worker that is not between fetching the row and its last write.
  predicate Harmless(at: WorkPoint) {
    at.Fetch? || at.Requeue? || at.ScheduleRetry? || at.RecordAccepted? || at.MarkDelivered? || at.PublishDelivered?
    || at.PublishFailed?
  }

  // A thread that will neither send id nor write another status than cancelled or
  // delivered for it: a worker that is harmless, and a creator that does not hold
  // the id or is about to put it off.
  predicate QuietThread(pc: Thread, id: Id) {
    match pc
    case Creating(req, at) => Making(pc) != Some(id) || (at.Handover? && Later(req, at.now))
    case Working(item, at) => item.id == id ==> Harmless(at)
    case _ => true
  }

  ghost predicate Calm(s: State, id: Id) {
    && id in s.rows && (s.rows[id].status.Cancelled? || s.rows[id].status.Delivered?)
    && forall t :: t in s.threads ==> QuietThread(s.threads[t], id)
  }

  // A turn that neither sends id nor gives it another status.
  predicate Calming(turn: Turn, id: Id) {
    var c := turn.command;
    && QuietThread(turn.next, id)
    && !(c.Say? && c.event.Sent? && c.event.id == id)
    && (c.InsertRow? ==> c.id != id)
    && (c.UpdateRow? && c.id == id ==> c.status.Cancelled? || c.status.Delivered?)
  }

  lemma CalmWorker(maxAttempts: int, s: State, item: QueueItem, at: WorkPoint, c: Choice, id: Id)
    requires id in s.rows && (s.rows[id].status.Cancelled? || s.rows[id].status.Delivered?)
    requires QuietThread(Working(item, at), id)
    ensures Calming(WorkerTurn(maxAttempts, s, item, at, c), id)
  {
  }

  lemma CalmOther(maxAttempts: int, s: State, a: Action, id: Id)
    requires Calm(s, id) && id in s.issued && !a.ExpireKey?
    requires a.t in s.threads && a.Advance? ==> !s.threads[a.t].Working?
    ensures Calming(TurnOf(maxAttempts, s, a), id)
  {
    hide Lists, KeyTaken, WorkerTurn;
    if a.t in s.threads {
      assert QuietThread(s.threads[a.t], id);
    }
  }

  // A turn in a calm state.
  lemma CalmTurn(maxAttempts: int, s: State, a: Action, id: Id)
    requires Calm(s, id) && id in s.issued && !a.ExpireKey?
    ensures Calming(TurnOf(maxAttempts, s, a), id)
  {
    hide WorkerTurn, CreatorTurn, PromoterTurn, CancellerTurn, FirstTurn, Calming, QuietThread;
    if a.t in s.threads && a.Advance? && s.threads[a.t].Working? {
      CalmWorker(maxAttempts, s, s.threads[a.t].item, s.threads[a.t].work, a.c, id);
    } else {
      CalmOther(maxAttempts, s, a, id);
    }
  }

  lemma NextCalm(maxAttempts: int, s: State, a: Action, id: Id)
    requires Calm(s, id) && id in s.issued
    ensures var s' := Next(maxAttempts, s, a);
      Calm(s', id) && id in s'.issued && SendsLogged(s'.log, id) == SendsLogged(s.log, id)
  {
    hide TurnOf, QuietThread, SendsLogged;
    if !a.ExpireKey? {
      CalmTurn(maxAttempts, s, a, id);
      StoryAfter(s.log, TurnOf(maxAttempts, s, a).command, id);
    }
  }

  lemma {:induction false} CalmRun(maxAttempts: int, run: seq<Action>, more: seq<Action>, id: Id)
    requires Calm(After(maxAttempts, run), id) && id in After(maxAttempts, run).issued
    ensures var s := After(maxAttempts, run + more);
      Calm(s, id) && id in s.issued && SendsLogged(s.log, id) == SendsLogged(After(maxAttempts, run).log, id)
  {
    hide Next, Calm;
    if more == [] {
      assert run + more == run;
    } else {
      var most, last := more[..|more| - 1], more[|more| - 1];
      CalmRun(maxAttempts, run, most, id);
      assert (run + more)[..|run + more| - 1] == run + most;
      NextCalm(maxAttempts, After(maxAttempts, run + most), last, id);
    }
  }

  // After more the row is still cancelled or delivered, and nothing was sent.
  ghost predicate Stands(maxAttempts: int, run: seq<Action>, more: seq<Action>, id: Id) {
    var s := After(maxAttempts, run + more);
    && id in s.rows && (s.rows[id].status.Cancelled? || s.rows[id].status.Delivered?)
    && SendsLogged(s.log, id) == SendsLogged(After(maxAttempts, run).log, id)
  }

  lemma Step(maxAttempts: int, run: seq<Action>, a: Action)
    ensures After(maxAttempts, run + [a]) == Next(maxAttempts, After(maxAttempts, run), a)
  {
    assert (run + [a])[..|run|] == run;
  }

  // The points from which a worker goes on to send.
  function StepsToSend(at: WorkPoint): nat {
    match at
    case Throttle(_) => 4
    case MarkSending(_) => 3
    case PublishSending(_) => 2
    case CallProvider(_) => 1
    case _ => 0
  }

  // One turn of a worker on its way to send.
  lemma NextToSend(maxAttempts: int, s: State, t: ThreadId, item: QueueItem, at: WorkPoint)
    requires t in s.threads && s.threads[t] == Working(item, at) && StepsToSend(at) > 0
    ensures var s' := Next(maxAttempts, s, Advance(t, YES)); var sends := SendsLogged(s.log, item.id);
      && t in s'.threads && s'.threads[t].Working? && s'.threads[t].item == item
      && StepsToSend(s'.threads[t].work) == StepsToSend(at) - 1
      && SendsLogged(s'.log, item.id) == if StepsToSend(at) == 1 then sends + 1 else sends
  {
    hide SendsLogged, TurnOf, RowsAfter, QueueAfter, MembersAfter, LogAfter;
    WorkingTurn(maxAttempts, s, Advance(t, YES));
    StoryAfter(s.log, TurnOf(maxAttempts, s, Advance(t, YES)).command, item.id);
  }

  // A worker that has fetched the row sends it, whatever the row has become:
  // from every reachable state some run of that worker alone ends in a send.
  lemma {:induction false} FetchedIsSent(maxAttempts: int, run: seq<Action>, t: ThreadId, item: QueueItem,
      at: WorkPoint)
    returns (more: seq<Action>)
    requires t in After(maxAttempts, run).threads && After(maxAttempts, run).threads[t] == Working(item, at)
    requires StepsToSend(at) > 0
    ensures forall i :: 0 <= i < |more| ==> more[i] == Advance(t, YES)
    ensures SendsLogged(After(maxAttempts, run + more).log, item.id) ==
        SendsLogged(After(maxAttempts, run).log, item.id) + 1
    decreases StepsToSend(at)
  {
    hide After, SendsLogged, Next;
    var a := Advance(t, YES);
    Step(maxAttempts, run, a);
    NextToSend(maxAttempts, After(maxAttempts, run), t, item, at);
    if StepsToSend(at) == 1 {
      more := [a];
    } else {
      var rest := FetchedIsSent(maxAttempts, run + [a], t, item, After(maxAttempts, run + [a]).threads[t].work);
      more := [a] + rest;
      assert run + more == run + [a] + rest;
    }
  }

  // ---- a cancel that comes after the fetch ----

  function StepsToCancel(at: CancelPoint): nat {
    match at
    case PurgeQueue(lists) => |lists| + 4
    case ScanScheduled => 3
    case Unschedule(_) => 2
    case MarkCancelled => 1
    case CancelReturned => 0
  }

  // One turn of a canceller, with every removal succeeding.
  lemma NextToCancel(maxAttempts: int, s: State, t: ThreadId, id: Id, attempts: nat, at: CancelPoint)
    requires t in s.threads && s.threads[t] == Cancelling(id, attempts, at) && id in s.rows
    requires StepsToCancel(at) > 0 && (at.Unschedule? ==> at.todo == [])
    ensures var s' := Next(maxAttempts, s, Advance(t, YES));
      && id in s'.rows && t in s'.threads && s'.threads == s.threads[t := s'.threads[t]]
      && s'.threads[t].Cancelling? && s'.threads[t] == Cancelling(id, attempts, s'.threads[t].cancel)
      && StepsToCancel(s'.threads[t].cancel) < StepsToCancel(at)
      && (s'.threads[t].cancel.Unschedule? ==> s'.threads[t].cancel.todo == [])
      && (s'.threads[t].cancel.CancelReturned? ==> s'.rows[id].status == Cancelled)
  {
    hide Lists, KeyTaken;
  }

  lemma {:induction false} CancelReturns(maxAttempts: int, run: seq<Action>, t: ThreadId, id: Id, attempts: nat,
      at: CancelPoint)
    returns (more: seq<Action>)
    requires id in After(maxAttempts, run).rows && t in After(maxAttempts, run).threads
    requires After(maxAttempts, run).threads[t] == Cancelling(id, attempts, at)
    requires StepsToCancel(at) > 0 && (at.Unschedule? ==> at.todo == [])
    ensures var s, s' := After(maxAttempts, run), After(maxAttempts, run + more);
      && id in s'.rows && s'.rows[id].status == Cancelled
      && s'.threads == s.threads[t := Cancelling(id, attempts, CancelReturned)]
    decreases StepsToCancel(at)
  {
    hide After, Next;
    var a := Advance(t, YES);
    Step(maxAttempts, run, a);
    NextToCancel(maxAttempts, After(maxAttempts, run), t, id, attempts, at);
    var at' := After(maxAttempts, run + [a]).threads[t].cancel;
    if at'.CancelReturned? {
      more := [a];
    } else {
      var rest := CancelReturns(maxAttempts, run + [a], t, id, attempts, at');
      more := [a] + rest;
      assert run + more == run + [a] + rest;
    }
  }

  // Cancelling reads and then writes, so it does not stop a worker that has
  // fetched the row: in every reachable state in which the row can be cancelled, a
  // cancel can run to its successful end and the worker can still send afterwards.
  lemma CancelThenSend(maxAttempts: int, run: seq<Action>, t: ThreadId, u: ThreadId, item: QueueItem, at: WorkPoint)
    returns (cancel: seq<Action>, send: seq<Action>)
    requires t in After(maxAttempts, run).threads && After(maxAttempts, run).threads[t] == Working(item, at)
    requires StepsToSend(at) > 0 && u !in After(maxAttempts, run).threads
    requires item.id in After(maxAttempts, run).rows && After(maxAttempts, run).rows[item.id].status.Cancellable()
    ensures var s := After(maxAttempts, run + cancel);
      && item.id in s.rows && s.rows[item.id].status == Cancelled
      && u in s.threads && s.threads[u].Cancelling? && s.threads[u].cancel.CancelReturned?
    ensures SendsLogged(After(maxAttempts, run + cancel + send).log, item.id)
         == SendsLogged(After(maxAttempts, run + cancel).log, item.id) + 1
  {
    hide After, SendsLogged;
    var begin := BeginCancel(u, item.id);
    var s := After(maxAttempts, run);
    Step(maxAttempts, run, begin);
    var rest := CancelReturns(maxAttempts, run + [begin], u, item.id, s.rows[item.id].attempts, PurgeQueue([HIGH,
        NORMAL, LOW]));
    cancel := [begin] + rest;
    assert run + cancel == run + [begin] + rest;
    send := FetchedIsSent(maxAttempts, run + cancel, t, item, at);
  }

  // A creator that has enqueued the item still writes `queued` with no attempts,
  // whatever the row has become: delivered and cancelled can be left.
  lemma LateQueued(maxAttempts: int, run: seq<Action>, t: ThreadId, req: Request, id: Id)
    requires t in After(maxAttempts, run).threads && After(maxAttempts, run).threads[t] == Creating(req, MarkQueued(id))
    ensures var s := After(maxAttempts, run + [Advance(t, YES)]);
      id in s.rows && s.rows[id].status == Queued && s.rows[id].attempts == 0
  {
    hide After;
    Step(maxAttempts, run, Advance(t, YES));
    ReachableKeys(maxAttempts, run);
    assert ThreadKeyed(After(maxAttempts, run).rows, After(maxAttempts, run).issued, t, Creating(req, MarkQueued(id)));
  }

  // ---- such a state is reached ----

  const ITEM: QueueItem := QueueItem("n", HIGH)
  const START: seq<Action> := [
    BeginCreate(0, Request(None, HIGH, None)),
    Advance(0, Choice(true, "n", 0, [])),
    Advance(0, YES),
    Advance(0, YES),
    BeginWork(1, ITEM),
    Advance(1, YES)]

  const REQ: Request := Request(None, HIGH, None)
  const ROW: Row := Row(None, HIGH, Pending, 0)
  const S1: State := INIT.(threads := map[0 := Creating(REQ, Prepare)])
  const S2: State := S1.(issued := map["n" := Origin(None, 0)], threads := map[0 := Creating(REQ, Insert("n", 0))])
  const S3: State := S2.(rows := map["n" := ROW], threads := map[0 := Creating(REQ, Handover("n", 0))])
  const S4: State := S3.(queue := multiset{ITEM}, threads := map[0 := Creating(REQ, MarkQueued("n"))])
  const S5: State := S4.(queue := multiset{}, threads := S4.threads[1 := Working(ITEM, Fetch)])

  lemma StartPrepares(maxAttempts: int)
    ensures Next(maxAttempts, INIT, START[0]) == S1 && Next(maxAttempts, S1, START[1]) == S2
  {
    hide Lists;
  }

  lemma StartInserts(maxAttempts: int)
    ensures Next(maxAttempts, S2, START[2]) == S3
  {
    hide Lists;
  }

  lemma StartEnqueues(maxAttempts: int)
    ensures Next(maxAttempts, S3, START[3]) == S4
  {
    hide Lists;
  }

  lemma StartBegins(maxAttempts: int)
    ensures Next(maxAttempts, S4, START[4]) == S5
  {
    hide Lists;
  }

  lemma StartFetches(maxAttempts: int)
    ensures var s := Next(maxAttempts, S5, START[5]);
      s.rows == S5.rows && s.threads == S5.threads[1 := Working(ITEM, Throttle(ROW))]
  {
    hide Lists;
  }

  // A created notification that one worker has fetched, while its creator has yet
  // to write `queued`: CancelThenSend and LateQueued apply to it.
  lemma Start(maxAttempts: int)
    ensures After(maxAttempts, START[..4]) == S4
    ensures var s := After(maxAttempts, START);
      && s.rows == map["n" := ROW]
      && s.threads == map[0 := Creating(REQ, MarkQueued("n")), 1 := Working(ITEM, Throttle(ROW))]
  {
    hide After, Next;
    StartPrepares(maxAttempts);
    StartInserts(maxAttempts);
    StartEnqueues(maxAttempts);
    StartBegins(maxAttempts);
    StartFetches(maxAttempts);
    StartIs(maxAttempts, S1, S2, S3, S4, S5);
  }

  lemma StartIs(maxAttempts: int, s1: State, s2: State, s3: State, s4: State, s5: State)
    requires Next(maxAttempts, INIT, START[0]) == s1 && Next(maxAttempts, s1, START[1]) == s2
    requires Next(maxAttempts, s2, START[2]) == s3 && Next(maxAttempts, s3, START[3]) == s4
    requires Next(maxAttempts, s4, START[4]) == s5
    ensures After(maxAttempts, START[..4]) == s4 && After(maxAttempts, START) == Next(maxAttempts, s5, START[5])
  {
    hide Next;
    forall i | 0 <= i < 6 ensures START[..i + 1] == START[..i] + [START[i]] {
    }
    Step(maxAttempts, START[..0], START[0]);
    Step(maxAttempts, START[..1], START[1]);
    Step(maxAttempts, START[..2], START[2]);
    Step(maxAttempts, START[..3], START[3]);
    Step(maxAttempts, START[..4], START[4]);
    Step(maxAttempts, START[..5], START[5]);
    assert START[..6] == START;
  }

  // ---- threads that are not quiet ----

  // How many turns a worker needs to write `outcome`; zero if it does not get there.
  function Turns(m: int, at: WorkPoint, outcome: Status): nat {
    match at
    case Throttle(row) => Further(m, row, outcome, 2, 6, 7)
    case MarkSending(row) => Further(m, row, outcome, 1, 5, 6)
    case PublishSending(row) => Further(m, row, outcome, 0, 4, 5)
    case CallProvider(row) => Further(m, row, outcome, 0, 3, 4)
    case RecordRejected(row) =>
      if outcome == Failed && row.attempts + 1 >= m then 3
      else if outcome == Queued && row.attempts + 1 < m then 2
      else 0
    case PushDead(_) => if outcome == Failed then 2 else 0
    case MarkFailed(_) => if outcome == Failed then 1 else 0
    case MarkRetry(_) => if outcome == Queued then 1 else 0
    case RecordAccepted(_) => if outcome == Delivered then 2 else 0
    case MarkDelivered(_) => if outcome == Delivered then 1 else 0
    case _ => 0
  }

  function Further(m: int, row: Row, outcome: Status, sending: nat, delivered: nat, failed: nat): nat {
    if outcome == Sending then sending
    else if outcome == Delivered then delivered
    else if outcome == Failed && row.attempts + 1 >= m then failed
    else 0
  }

  // The outcome is in the row; a worker that wrote `queued` is about to put the item back.
  predicate Landed(l: Local, item: QueueItem, outcome: Status) {
    && item.id in l.rows && l.rows[item.id].status == outcome
    && l.pc.Working? && l.pc.item == item && (outcome == Queued ==> l.pc.work.ScheduleRetry?)
  }

  // One turn towards an outcome.
  lemma TurnTowards(m: int, l: Local, item: QueueItem, at: WorkPoint, outcome: Status)
    requires l.pc == Working(item, at) && item.id in l.rows && Turns(m, at, outcome) > 0
    ensures var l' := LocalStep(m, l, if at.CallProvider? && outcome == Failed then NO else YES);
      && l'.pc.Working? && l'.pc.item == item && item.id in l'.rows
      && Turns(m, l'.pc.work, outcome) == Turns(m, at, outcome) - 1
      && (Turns(m, at, outcome) == 1 ==> Landed(l', item, outcome))
  {
  }

  lemma {:induction false} WritesOutcome(m: int, l: Local, item: QueueItem, at: WorkPoint, outcome: Status)
    returns (cs: seq<Choice>)
    requires l.pc == Working(item, at) && item.id in l.rows && Turns(m, at, outcome) > 0
    ensures Landed(Path(m, l, cs), item, outcome)
    decreases Turns(m, at, outcome)
  {
    hide LocalStep;
    var c := if at.CallProvider? && outcome == Failed then NO else YES;
    TurnTowards(m, l, item, at, outcome);
    var l' := LocalStep(m, l, c);
    var rest := [];
    if Turns(m, at, outcome) == 1 {
      NoSteps(m, l');
    } else {
      rest := WritesOutcome(m, l', item, l'.pc.work, outcome);
    }
    cs := [c] + rest;
    OneStep(m, l, cs);
  }

  // From every state a worker that can write `outcome` does so in a run of its own.
  lemma WorkerWrites(m: int, s: State, t: ThreadId, item: QueueItem, at: WorkPoint, outcome: Status)
    returns (actions: seq<Action>)
    requires t in s.threads && s.threads[t] == Working(item, at) && item.id in s.rows && Turns(m, at, outcome) > 0
    ensures TurnsOf(actions, t)
    ensures var s' := Acts(m, s, actions);
      && item.id in s'.rows && s'.rows[item.id].status == outcome
      && t in s'.threads && s'.threads[t].Working? && s'.threads[t].item == item
      && (outcome == Queued ==> s'.threads[t].work.ScheduleRetry?)
      && s' == s.(rows := s'.rows, retry := s'.retry, log := s'.log, threads := s.threads[t := s'.threads[t]])
  {
    hide Acts, Path;
    var l := Local(Working(item, at), s.rows, s.retry, []);
    var cs := WritesOutcome(m, l, item, at, outcome);
    assert WithLocal(s, t, l) == s;
    PathEmbeds(m, s, t, l, cs);
    actions := AloneActs(m, s, t, cs);
  }

  // A creator that holds an id and does not put it off writes `queued`.
  lemma CreatorWrites(m: int, s: State, t: ThreadId, req: Request, at: CreatePoint, id: Id)
    returns (actions: seq<Action>)
    requires t in s.threads && s.threads[t] == Creating(req, at) && id in s.rows
    requires at == MarkQueued(id) || (at.Handover? && at.id == id && !Later(req, at.now))
    ensures TurnsOf(actions, t)
    ensures id in Acts(m, s, actions).rows && Acts(m, s, actions).rows[id].status == Queued
  {
    hide Acts, Next;
    var a := Advance(t, YES);
    OneAct(m, s, a);
    actions := [a];
    if at.Handover? {
      HandoverIs(m, s, t, req, id, at.now);
      var s1 := Acts(m, s, [a]);
      QueuedIs(m, s1, t, req, id);
      OneAct(m, s1, a);
      actions := [a] + [a];
      ActsAppend(m, s, [a], [a]);
    } else {
      QueuedIs(m, s, t, req, id);
    }
  }

  // A thread that is not quiet can undo the status or send, in turns of its own.
  lemma LoudThread(maxAttempts: int, run: seq<Action>, t: ThreadId, id: Id) returns (more: seq<Action>)
    requires id in After(maxAttempts, run).rows
    requires t in After(maxAttempts, run).threads && !QuietThread(After(maxAttempts, run).threads[t], id)
    ensures TurnsOf(more, t) && !Stands(maxAttempts, run, more, id)
  {
    hide After, SendsLogged, Acts;
    var s := After(maxAttempts, run);
    match s.threads[t] {
      case Creating(req, at) =>
        ReachableKeys(maxAttempts, run);
        assert ThreadKeyed(s.rows, s.issued, t, s.threads[t]);
        more := CreatorWrites(maxAttempts, s, t, req, at, id);
        AfterActs(maxAttempts, run, more);
      case Working(item, at) =>
        if StepsToSend(at) > 0 {
          more := FetchedIsSent(maxAttempts, run, t, item, at);
        } else {
          var outcome := if Turns(maxAttempts, at, Failed) > 0 then Failed else Queued;
          more := WorkerWrites(maxAttempts, s, t, item, at, outcome);
          AfterActs(maxAttempts, run, more);
        }
      case _ =>
    }
  }

  // Exactly then is a cancelled or delivered notification settled: whatever runs
  // later, it stays cancelled or delivered and is not sent, if and only if every
  // thread is quiet.
  lemma StandsIffQuiet(maxAttempts: int, run: seq<Action>, id: Id)
    requires var s := After(maxAttempts, run);
      id in s.rows && (s.rows[id].status.Cancelled? || s.rows[id].status.Delivered?)
    ensures (forall more :: Stands(maxAttempts, run, more, id)) <==>
            (forall t :: t in After(maxAttempts, run).threads ==> QuietThread(After(maxAttempts, run).threads[t], id))
  {
    hide After, QuietThread, Stands;
    var s := After(maxAttempts, run);
    if t :| t in s.threads && !QuietThread(s.threads[t], id) {
      var more := LoudThread(maxAttempts, run, t, id);
      assert !Stands(maxAttempts, run, more, id);
    } else {
      ReachableKeys(maxAttempts, run);
      forall more ensures Stands(maxAttempts, run, more, id) {
        CalmRun(maxAttempts, run, more, id);
        CalmStands(maxAttempts, run, more, id);
      }
    }
  }

  lemma CalmStands(maxAttempts: int, run: seq<Action>, more: seq<Action>, id: Id)
    requires Calm(After(maxAttempts, run + more), id)
    requires SendsLogged(After(maxAttempts, run + more).log, id) == SendsLogged(After(maxAttempts, run).log, id)
    ensures Stands(maxAttempts, run, more, id)
  {
    hide After, SendsLogged, QuietThread;
  }
}
