// The stores at both grains, and the worker: a worker thread that runs its
// commands without interruption does to the stores what dequeuing and processing
// do in one step each.

module Grains {
  import opened Domain
  import opened DelayedSet
  import opened Tokens
  import opened UseCases
  import L = Lifecycle
  import T = Timing
  import O = Observed
  import opened ProtocolRuns
  import P = Protocol
  import PE = ProtocolEvents
  import PQ = PriorityQueue
  import RateLimit

  // ---- the commands of each verdict ----

  // The answers to each command, for an item that is put off to `at`, if at all.
  function Script(v: Verdict, at: int): seq<P.Choice> {
    match v
    case Discard => [YES]
    case Throttle => [YES, NO, P.Choice(true, "", at - SECOND, [])]
    case Deliver => [YES, YES, YES, YES, YES, YES, YES, YES]
    case GiveUp => [YES, YES, YES, YES, NO, YES, YES, YES, YES]
    case TryLater => [YES, YES, YES, YES, NO, YES, YES, P.Choice(true, "", at, [])]
  }

  function StatusAfter(v: Verdict): Status {
    if v.Deliver? then Delivered else if v.GiveUp? then Failed else Queued
  }

  function EventsOf(v: Verdict, id: Id, attempts: nat): seq<P.Event> {
    if !Sends(v) then []
    else
      [P.Wrote(id, Sending, P.ByWorker), P.Published(id, Sending), P.Sent(id, v.Deliver?),
       P.Recorded(id, attempts + 1, v.Deliver?)]
      + (match v
         case Deliver => [P.Wrote(id, Delivered, P.ByWorker), P.Published(id, Delivered)]
         case GiveUp => [P.Dead(id), P.Wrote(id, Failed, P.ByWorker), P.Published(id, Failed)]
         case _ => [P.Wrote(id, Queued, P.ByWorker)])
  }

  function Ended(l: Local, item: QueueItem, v: Verdict, at: int): Local
    requires item.id in l.rows
  {
    var row := l.rows[item.id];
    Local(P.Stopped,
          if Sends(v) then l.rows[item.id := row.(status := StatusAfter(v), attempts := row.attempts + 1)] else l.rows,
          if v.Throttle? || v.TryLater? then l.retry[item := Unix(at)] else l.retry,
          l.more + EventsOf(v, item.id, row.attempts))
  }

  // The verdict the commands come to.
  predicate Leads(m: int, row: P.Row, v: Verdict) {
    && (v.Discard? <==> row.status.Cancelled? || row.status.Delivered?)
    && (v.GiveUp? ==> row.attempts + 1 >= m)
    && (v.TryLater? ==> row.attempts + 1 < m)
  }

  // Up to the provider call every attempt is the same.
  lemma CallReached(m: int, l: Local, item: QueueItem, cs: seq<P.Choice>)
    requires l.pc == P.Working(item, P.Fetch) && item.id in l.rows
    requires !l.rows[item.id].status.Cancelled? && !l.rows[item.id].status.Delivered?
    ensures var row := l.rows[item.id];
      Path(m, l, [YES, YES, YES, YES] + cs) ==
      Path(m, Local(P.Working(item, P.CallProvider(row)), l.rows[item.id := row.(status := Sending)], l.retry,
                    l.more + [P.Wrote(item.id, Sending, P.ByWorker), P.Published(item.id, Sending)]), cs)
  {
    hide Path;
    var row := l.rows[item.id];
    var l1 := l.(pc := P.Working(item, P.Throttle(row)));
    var l2 := l.(pc := P.Working(item, P.MarkSending(row)));
    var rows := l.rows[item.id := row.(status := Sending)];
    var l3 := Local(P.Working(item, P.PublishSending(row)), rows, l.retry,
                    l.more + [P.Wrote(item.id, Sending, P.ByWorker)]);
    assert LocalStep(m, l, YES) == l1;
    assert LocalStep(m, l1, YES) == l2;
    assert LocalStep(m, l2, YES) == l3;
    assert LocalStep(m, l3, YES) ==
           Local(P.Working(item, P.CallProvider(row)), rows, l.retry,
                 l.more + [P.Wrote(item.id, Sending, P.ByWorker), P.Published(item.id, Sending)]);
    assert ([YES, YES, YES, YES] + cs)[1..] == [YES, YES, YES] + cs;
    assert ([YES, YES, YES] + cs)[1..] == [YES, YES] + cs;
    assert ([YES, YES] + cs)[1..] == [YES] + cs;
    assert ([YES] + cs)[1..] == cs;
    OneStep(m, l, [YES, YES, YES, YES] + cs);
    OneStep(m, l1, [YES, YES, YES] + cs);
    OneStep(m, l2, [YES, YES] + cs);
    OneStep(m, l3, [YES] + cs);
  }

  // The script of a verdict runs the worker to its end.
  lemma DiscardRuns(m: int, l: Local, item: QueueItem, at: int)
    requires l.pc == P.Working(item, P.Fetch) && item.id in l.rows && Leads(m, l.rows[item.id], Discard)
    ensures Path(m, l, Script(Discard, at)) == Ended(l, item, Discard, at)
  {
    assert l.more + [] == l.more;
    assert Script(Discard, at)[1..] == [];
  }

  lemma ThrottleRuns(m: int, l: Local, item: QueueItem, at: int)
    requires l.pc == P.Working(item, P.Fetch) && item.id in l.rows && Leads(m, l.rows[item.id], Throttle)
    ensures Path(m, l, Script(Throttle, at)) == Ended(l, item, Throttle, at)
  {
    hide Path;
    var cs := Script(Throttle, at);
    var l1 := l.(pc := P.Working(item, P.Throttle(l.rows[item.id])));
    var l2 := l.(pc := P.Working(item, P.Requeue));
    assert l.more + [] == l.more;
    assert LocalStep(m, l, cs[0]) == l1 && LocalStep(m, l1, cs[1]) == l2;
    assert LocalStep(m, l2, cs[2]) == Ended(l, item, Throttle, at);
    assert cs[1..] == [cs[1], cs[2]] && cs[1..][1..] == [cs[2]] && [cs[2]][1..] == [];
    OneStep(m, l, cs);
    OneStep(m, l1, cs[1..]);
    OneStep(m, l2, [cs[2]]);
    NoSteps(m, Ended(l, item, Throttle, at));
  }

  // The row and the log as the provider is called.
  function Called(l: Local, item: QueueItem): Local
    requires item.id in l.rows
  {
    var row := l.rows[item.id];
    Local(P.Working(item, P.CallProvider(row)), l.rows[item.id := row.(status := Sending)], l.retry,
          l.more + [P.Wrote(item.id, Sending, P.ByWorker), P.Published(item.id, Sending)])
  }

  // What remains after the provider's acceptance.
  lemma AcceptedEnds(m: int, l: Local, item: QueueItem, row: P.Row)
    requires item.id in l.rows && l.pc == P.Working(item, P.RecordAccepted(row))
    ensures Path(m, l, [YES, YES, YES]) ==
            Local(P.Stopped,
                  l.rows[item.id := l.rows[item.id].(status := Delivered, attempts := row.attempts + 1)], l.retry,
                  l.more + [P.Recorded(item.id, row.attempts + 1, true), P.Wrote(item.id, Delivered, P.ByWorker),
                            P.Published(item.id, Delivered)])
  {
    hide Path;
    var id := item.id;
    var l3 := l.(pc := P.Working(item, P.MarkDelivered(row)),
                 more := l.more + [P.Recorded(id, row.attempts + 1, true)]);
    var l4 := l3.(pc := P.Working(item, P.PublishDelivered), more := l3.more + [P.Wrote(id, Delivered, P.ByWorker)],
                  rows := l.rows[id := l.rows[id].(status := Delivered, attempts := row.attempts + 1)]);
    var l5 := l4.(pc := P.Stopped, more := l4.more + [P.Published(id, Delivered)]);
    assert LocalStep(m, l, YES) == l3 && LocalStep(m, l3, YES) == l4 && LocalStep(m, l4, YES) == l5;
    ThreeSteps(m, l, l3, l4, l5);
    assert l5.more == l.more + [P.Recorded(id, row.attempts + 1, true), P.Wrote(id, Delivered, P.ByWorker),
                                P.Published(id, Delivered)];
  }

  lemma ThreeSteps(m: int, l: Local, l3: Local, l4: Local, l5: Local)
    requires LocalStep(m, l, YES) == l3 && LocalStep(m, l3, YES) == l4 && LocalStep(m, l4, YES) == l5
    ensures Path(m, l, [YES, YES, YES]) == l5
  {
    hide LocalStep, Path;
    assert [YES, YES, YES][1..] == [YES, YES] && [YES, YES][1..] == [YES] && [YES][1..] == [];
    OneStep(m, l, [YES, YES, YES]);
    OneStep(m, l3, [YES, YES]);
    OneStep(m, l4, [YES]);
    NoSteps(m, l5);
  }

  lemma DeliverRuns(m: int, l: Local, item: QueueItem, at: int)
    requires l.pc == P.Working(item, P.Fetch) && item.id in l.rows && Leads(m, l.rows[item.id], Deliver)
    ensures Path(m, l, Script(Deliver, at)) == Ended(l, item, Deliver, at)
  {
    hide Path;
    var row, id := l.rows[item.id], item.id;
    var rest := [YES, YES, YES];
    assert Script(Deliver, at) == [YES, YES, YES, YES] + ([YES] + rest);
    CallReached(m, l, item, [YES] + rest);
    var l1 := Called(l, item);
    var l2 := l1.(pc := P.Working(item, P.RecordAccepted(row)), more := l1.more + [P.Sent(id, true)]);
    assert LocalStep(m, l1, YES) == l2;
    assert ([YES] + rest)[1..] == rest;
    OneStep(m, l1, [YES] + rest);
    hide LocalStep;
    AcceptedEnds(m, l2, item, row);
    assert l2.more + [P.Recorded(id, row.attempts + 1, true), P.Wrote(id, Delivered, P.ByWorker),
                      P.Published(id, Delivered)] == Ended(l, item, Deliver, at).more;
    assert l1.rows[id := row.(status := Delivered, attempts := row.attempts + 1)] == Ended(l, item, Deliver, at).rows;
  }

  // A rejected send is recorded; what follows depends on the attempts.
  lemma RejectedRecorded(m: int, l: Local, item: QueueItem, cs: seq<P.Choice>)
    requires item.id in l.rows
    ensures var row := l.rows[item.id]; var l1 := Called(l, item);
      Path(m, l1, [NO, YES] + cs) ==
      Path(m, l1.(pc := P.Working(item, if row.attempts + 1 >= m then P.PushDead(row) else P.MarkRetry(row)),
                  more := l1.more + [P.Sent(item.id, false), P.Recorded(item.id, row.attempts + 1, false)]), cs)
  {
    hide Path;
    var row, id, l1 := l.rows[item.id], item.id, Called(l, item);
    var l2 := l1.(pc := P.Working(item, P.RecordRejected(row)), more := l1.more + [P.Sent(id, false)]);
    assert LocalStep(m, l1, NO) == l2;
    assert LocalStep(m, l2, YES) ==
           l1.(pc := P.Working(item, if row.attempts + 1 >= m then P.PushDead(row) else P.MarkRetry(row)),
               more := l1.more + [P.Sent(item.id, false), P.Recorded(item.id, row.attempts + 1, false)]);
    assert ([NO, YES] + cs)[1..] == [YES] + cs && ([YES] + cs)[1..] == cs;
    OneStep(m, l1, [NO, YES] + cs);
    OneStep(m, l2, [YES] + cs);
  }

  lemma DeadEnds(m: int, l: Local, item: QueueItem, row: P.Row)
    requires item.id in l.rows && l.pc == P.Working(item, P.PushDead(row))
    ensures Path(m, l, [YES, YES, YES]) ==
            Local(P.Stopped, l.rows[item.id := l.rows[item.id].(status := Failed, attempts := row.attempts + 1)],
                l.retry,
                  l.more + [P.Dead(item.id), P.Wrote(item.id, Failed, P.ByWorker), P.Published(item.id, Failed)])
  {
    hide Path;
    var id := item.id;
    var l3 := l.(pc := P.Working(item, P.MarkFailed(row)), more := l.more + [P.Dead(id)]);
    var l4 := l3.(pc := P.Working(item, P.PublishFailed), more := l3.more + [P.Wrote(id, Failed, P.ByWorker)],
                  rows := l.rows[id := l.rows[id].(status := Failed, attempts := row.attempts + 1)]);
    var l5 := l4.(pc := P.Stopped, more := l4.more + [P.Published(id, Failed)]);
    assert LocalStep(m, l, YES) == l3 && LocalStep(m, l3, YES) == l4 && LocalStep(m, l4, YES) == l5;
    ThreeSteps(m, l, l3, l4, l5);
    assert l5.more == l.more + [P.Dead(id), P.Wrote(id, Failed, P.ByWorker), P.Published(id, Failed)];
  }

  lemma GiveUpRuns(m: int, l: Local, item: QueueItem, at: int)
    requires l.pc == P.Working(item, P.Fetch) && item.id in l.rows && Leads(m, l.rows[item.id], GiveUp)
    ensures Path(m, l, Script(GiveUp, at)) == Ended(l, item, GiveUp, at)
  {
    hide Path;
    var row, id := l.rows[item.id], item.id;
    var rest := [YES, YES, YES];
    assert Script(GiveUp, at) == [YES, YES, YES, YES] + ([NO, YES] + rest);
    CallReached(m, l, item, [NO, YES] + rest);
    RejectedRecorded(m, l, item, rest);
    var l1 := Called(l, item);
    var l2 := l1.(pc := P.Working(item, P.PushDead(row)),
                  more := l1.more + [P.Sent(id, false), P.Recorded(id, row.attempts + 1, false)]);
    DeadEnds(m, l2, item, row);
    assert l2.more + [P.Dead(id), P.Wrote(id, Failed, P.ByWorker), P.Published(id, Failed)] ==
        Ended(l, item, GiveUp, at).more;
    assert l1.rows[id := row.(status := Failed, attempts := row.attempts + 1)] == Ended(l, item, GiveUp, at).rows;
  }

  // What remains when the attempt is to be made again.
  lemma RetryEnds(m: int, l: Local, item: QueueItem, row: P.Row, at: int)
    requires item.id in l.rows && l.pc == P.Working(item, P.MarkRetry(row))
    ensures Path(m, l, [YES, P.Choice(true, "", at, [])]) ==
            Local(P.Stopped,
                  l.rows[item.id := l.rows[item.id].(status := Queued, attempts := row.attempts + 1)],
                  l.retry[item := Unix(at)], l.more + [P.Wrote(item.id, Queued, P.ByWorker)])
  {
    hide Path;
    var id, back := item.id, P.Choice(true, "", at, []);
    var l3 := l.(pc := P.Working(item, P.ScheduleRetry), more := l.more + [P.Wrote(id, Queued, P.ByWorker)],
                 rows := l.rows[id := l.rows[id].(status := Queued, attempts := row.attempts + 1)]);
    var l4 := l3.(pc := P.Stopped, retry := l.retry[item := Unix(at)]);
    assert l3.more + [] == l3.more;
    assert LocalStep(m, l, YES) == l3 && LocalStep(m, l3, back) == l4;
    hide LocalStep;
    assert [YES, back][1..] == [back] && [back][1..] == [];
    OneStep(m, l, [YES, back]);
    OneStep(m, l3, [back]);
    NoSteps(m, l4);
  }

  lemma TryLaterRuns(m: int, l: Local, item: QueueItem, at: int)
    requires l.pc == P.Working(item, P.Fetch) && item.id in l.rows && Leads(m, l.rows[item.id], TryLater)
    ensures Path(m, l, Script(TryLater, at)) == Ended(l, item, TryLater, at)
  {
    hide Path, LocalStep;
    var row, id := l.rows[item.id], item.id;
    var rest := [YES, P.Choice(true, "", at, [])];
    assert Script(TryLater, at) == [YES, YES, YES, YES] + ([NO, YES] + rest);
    CallReached(m, l, item, [NO, YES] + rest);
    RejectedRecorded(m, l, item, rest);
    var l1 := Called(l, item);
    var l2 := l1.(pc := P.Working(item, P.MarkRetry(row)),
                  more := l1.more + [P.Sent(id, false), P.Recorded(id, row.attempts + 1, false)]);
    RetryEnds(m, l2, item, row, at);
    assert l2.more + [P.Wrote(id, Queued, P.ByWorker)] == Ended(l, item, TryLater, at).more;
    assert l1.rows[id := row.(status := Queued, attempts := row.attempts + 1)] == Ended(l, item, TryLater, at).rows;
  }

  // Some interleaving-free run of the worker thread ends as the verdict says.
  lemma WorkerAlone(m: int, s: P.State, t: P.ThreadId, item: QueueItem, v: Verdict, at: int)
    requires t in s.threads && s.threads[t] == P.Working(item, P.Fetch) && item.id in s.rows
    requires Leads(m, s.rows[item.id], v)
    ensures var start := Local(P.Working(item, P.Fetch), s.rows, s.retry, []);
      Alone(m, s, t, Script(v, at)) == WithLocal(s, t, Ended(start, item, v, at))
  {
    hide Path, Alone, Script, Ended, Leads;
    var start := Local(P.Working(item, P.Fetch), s.rows, s.retry, []);
    assert WithLocal(s, t, start) == s;
    PathEmbeds(m, s, t, start, Script(v, at));
    match v {
      case Discard => DiscardRuns(m, start, item, at);
      case Throttle => ThrottleRuns(m, start, item, at);
      case Deliver => DeliverRuns(m, start, item, at);
      case GiveUp => GiveUpRuns(m, start, item, at);
      case TryLater => TryLaterRuns(m, start, item, at);
    }
  }

  // ---- the same stores at both grains ----

  function RowAs(n: Notification): P.Row {
    P.Row(n.key, n.priority, n.status, n.attempts)
  }

  ghost predicate SameRows(rows: map<Id, Notification>, rows': map<Id, P.Row>) {
    && (forall id :: id in rows <==> id in rows')
    && (forall id :: id in rows ==> rows'[id] == RowAs(rows[id]))
  }

  // The sorted set and the map of members to scores are the same set.
  ghost predicate Listed(es: seq<Entry>, m: map<QueueItem, int>) {
    && (forall x :: x in m ==> ValidPriority(x.priority) && Entry(m[x], Encode(x)) in es)
    && (forall e :: e in es ==>
          var x := Decode(e.member); x in m && m[x] == e.score && Encode(x) == e.member)
  }

  // What is known of one id: its sends, published statuses, dead letters and records.
  datatype Story = Story(sends: nat, statuses: seq<Status>, dead: nat, records: seq<(nat, bool)>)

  function Tell(story: Story, e: P.Event, id: Id): Story {
    if e.id != id then story
    else match e
      case Sent(_, _) => story.(sends := story.sends + 1)
      case Published(_, status) => story.(statuses := story.statuses + [status])
      case Dead(_) => story.(dead := story.dead + 1)
      case Recorded(_, no, accepted) => story.(records := story.records + [(no, accepted)])
      case _ => story
  }

  function StoryIn(log: seq<P.Event>, id: Id): Story {
    if log == [] then Story(0, [], 0, [])
    else Tell(StoryIn(log[..|log| - 1], id), log[|log| - 1], id)
  }

  // A story agrees with what the properties of Protocol speak of.
  lemma {:induction false} StoryCounts(log: seq<P.Event>, id: Id)
    ensures StoryIn(log, id).sends == PE.SendsLogged(log, id) && StoryIn(log, id).statuses == PE.StatusesLogged(log, id)
  {
    if log != [] {
      StoryCounts(log[..|log| - 1], id);
    }
  }

  function Numbers(records: seq<Attempt>): seq<(nat, bool)> {
    seq(|records|, i requires 0 <= i < |records| => (records[i].no, records[i].answer.Accepted?))
  }

  function StoryOf(w: World, id: Id): Story {
    Story(L.SendsOf(w.sends, id), O.StatusesOf(w.events, id), L.DeadOf(w.dead, id), Numbers(L.RecordsOf(w.attempts,
        id)))
  }

  ghost predicate Mirrors(w: World, s: P.State) {
    && SameRows(w.rows, s.rows)
    && s.queue == InQueue(w.lists)
    && Listed(w.retry, s.retry) && Listed(w.scheduled, s.scheduled)
    && forall id :: StoryIn(s.log, id) == StoryOf(w, id)
  }

  lemma Snoc(log: seq<P.Event>, e: P.Event, id: Id)
    ensures StoryIn(log + [e], id) == Tell(StoryIn(log, id), e, id)
  {
    assert (log + [e])[..|log|] == log;
  }

  // What the events of an attempt add to the story of an id.
  function WithAttempt(story: Story, v: Verdict, attempts: nat): Story {
    Story(story.sends + 1,
          story.statuses + [Sending] + (if v.Deliver? then [Delivered] else if v.GiveUp? then [Failed] else []),
          if v.GiveUp? then story.dead + 1 else story.dead,
          story.records + [(attempts + 1, v.Deliver?)])
  }

  lemma CallTold(log: seq<P.Event>, v: Verdict, other: Id, attempts: nat, id: Id)
    ensures var story := StoryIn(log, id);
      StoryIn(log + [P.Wrote(other, Sending, P.ByWorker), P.Published(other, Sending), P.Sent(other, v.Deliver?),
                     P.Recorded(other, attempts + 1, v.Deliver?)], id) ==
      if other != id then story
      else story.(sends := story.sends + 1, statuses := story.statuses + [Sending],
                  records := story.records + [(attempts + 1, v.Deliver?)])
  {
    hide StoryIn;
    var a, b := P.Wrote(other, Sending, P.ByWorker), P.Published(other, Sending);
    var c, d := P.Sent(other, v.Deliver?), P.Recorded(other, attempts + 1, v.Deliver?);
    Snoc(log, a, id);
    Snoc(log + [a], b, id);
    Snoc(log + [a] + [b], c, id);
    Snoc(log + [a] + [b] + [c], d, id);
    assert log + [a, b, c, d] == log + [a] + [b] + [c] + [d];
  }

  lemma EndTold(log: seq<P.Event>, v: Verdict, other: Id, attempts: nat, id: Id)
    requires Sends(v)
    ensures StoryIn(log + EventsOf(v, other, attempts), id) ==
            if other == id then WithAttempt(StoryIn(log, id), v, attempts) else StoryIn(log, id)
  {
    hide StoryIn;
    var call := [P.Wrote(other, Sending, P.ByWorker), P.Published(other, Sending), P.Sent(other, v.Deliver?),
                 P.Recorded(other, attempts + 1, v.Deliver?)];
    CallTold(log, v, other, attempts, id);
    var log1 := log + call;
    if v.GiveUp? {
      Snoc(log1, P.Dead(other), id);
      var log2 := log1 + [P.Dead(other)];
      Snoc(log2, P.Wrote(other, Failed, P.ByWorker), id);
      Snoc(log2 + [P.Wrote(other, Failed, P.ByWorker)], P.Published(other, Failed), id);
      assert log + EventsOf(v, other, attempts) ==
          log2 + [P.Wrote(other, Failed, P.ByWorker)] + [P.Published(other, Failed)];
    } else {
      var wrote := P.Wrote(other, StatusAfter(v), P.ByWorker);
      Snoc(log1, wrote, id);
      if v.Deliver? {
        Snoc(log1 + [wrote], P.Published(other, Delivered), id);
        assert log + EventsOf(v, other, attempts) == log1 + [wrote] + [P.Published(other, Delivered)];
      } else {
        assert log + EventsOf(v, other, attempts) == log1 + [wrote];
      }
    }
  }

  lemma ViewParts(w: World, id: Id)
    ensures var v := L.ViewOf(w, id);
      v.sends == L.SendsOf(w.sends, id) && v.dead == L.DeadOf(w.dead, id) && v.records == L.RecordsOf(w.attempts, id)
  {
  }

  lemma NumbersGrow(records: seq<Attempt>, a: Attempt)
    ensures Numbers(records + [a]) == Numbers(records) + [(a.no, a.answer.Accepted?)]
  {
  }

  // Processing adds to the story what the commands of the attempt add.
  lemma ProcessedStory(cfg: Config, w: World, item: QueueItem, answer: Answer, id: Id)
    requires L.Inv(cfg, w) && item in w.hands && item.id in w.rows
    ensures var v := VerdictOn(cfg, w, item, answer);
      StoryOf(Processed(cfg, w, item, answer), id) ==
      if id == item.id && Sends(v) then WithAttempt(StoryOf(w, id), v, w.rows[item.id].attempts) else StoryOf(w, id)
  {
    hide L.Inv, L.TokensIn, L.ViewOf, O.StatusesOf, L.SendsOf, L.DeadOf, L.RecordsOf, Numbers, VerdictOn, EventsAfter;
    var v, n := VerdictOn(cfg, w, item, answer), w.rows[item.id];
    L.ProcessedViews(cfg, w, item, answer, id);
    ViewParts(w, id);
    ViewParts(Processed(cfg, w, item, answer), id);
    L.HeldView(w, item) by {
      L.HeldItem(cfg, w, item);
    }
    if Sends(v) {
      O.StatusesAfter(item.id, n, v, w.events, id);
      O.Verdicts(cfg, w, item, answer);
      NumbersGrow(L.RecordsOf(w.attempts, id), Attempt(id, n.attempts + 1, answer));
    }
  }

  lemma ListedAdd(es: seq<Entry>, m: map<QueueItem, int>, item: QueueItem, at: int)
    requires Listed(es, m) && Ranked(es) && ValidPriority(item.priority)
    ensures Listed(DelayedSet.Added(es, item, at), m[item := Unix(at)])
  {
    hide Ranked, Encode, Decode, ValidPriority, DelayedSet.Added;
    AddKeepsRanked(es, item, at);
    ValidPrioritySurvives(item);
    forall x | x in m && x != item ensures Encode(x) != Encode(item) {
      if Encode(x) == Encode(item) {
        T.EncodeInjective(x, item);
      }
    }
  }

  // When an item is put off to, if it is.
  function PutOffAt(cfg: Config, w: World, v: Verdict): int {
    var at := T.PutOffTo(cfg, w, v);
    if at.Some? then at.value else 0
  }

  lemma RetryListed(cfg: Config, w: World, item: QueueItem, v: Verdict, m: map<QueueItem, int>)
    requires Listed(w.retry, m) && Ranked(w.retry) && ValidPriority(item.priority)
    ensures Listed(RetryAfter(cfg, w, item, v),
                   if v.Throttle? || v.TryLater? then m[item := Unix(PutOffAt(cfg, w, v))] else m)
  {
    hide Listed, Ranked, ValidPriority;
    ListedAdd(w.retry, m, item, w.now + SECOND);
    ListedAdd(w.retry, m, item, w.now + cfg.retryInterval);
  }

  lemma RowMirrored(rows: map<Id, Notification>, rows': map<Id, P.Row>, id: Id, v: Verdict, answer: Answer)
    requires SameRows(rows, rows') && id in rows && Sends(v) && (v.Deliver? <==> answer.Accepted?)
    ensures SameRows(rows[id := RowAfter(rows[id], v, answer)],
                     rows'[id := rows'[id].(status := StatusAfter(v), attempts := rows'[id].attempts + 1)])
  {
  }

  lemma VerdictLeads(cfg: Config, w: World, item: QueueItem, answer: Answer)
    requires item.id in w.rows
    ensures Leads(cfg.maxAttempts, RowAs(w.rows[item.id]), VerdictOn(cfg, w, item, answer))
    ensures Sends(VerdictOn(cfg, w, item, answer)) ==> (VerdictOn(cfg, w, item, answer).Deliver? <==> answer.Accepted?)
  {
    hide RateLimit.Allowed;
  }

  lemma StoriesMirrored(cfg: Config, w: World, log: seq<P.Event>, item: QueueItem, answer: Answer, id: Id)
    requires L.Inv(cfg, w) && item in w.hands && item.id in w.rows && StoryIn(log, id) == StoryOf(w, id)
    ensures var v := VerdictOn(cfg, w, item, answer);
      StoryIn(log + EventsOf(v, item.id, w.rows[item.id].attempts), id) == StoryOf(Processed(cfg, w, item, answer), id)
  {
    hide L.Inv, StoryIn, StoryOf, EventsOf, VerdictOn, Processed, WithAttempt;
    var v, n := VerdictOn(cfg, w, item, answer), w.rows[item.id];
    ProcessedStory(cfg, w, item, answer, id);
    if Sends(v) {
      EndTold(log, v, item.id, n.attempts, id);
    } else {
      NoEvents(v, item.id, n.attempts, log);
    }
  }

  lemma ProcessedParts(cfg: Config, w: World, item: QueueItem, answer: Answer)
    requires item.id in w.rows
    ensures var w' := Processed(cfg, w, item, answer); var v := VerdictOn(cfg, w, item, answer);
      && w'.rows == (if Sends(v) then w.rows[item.id := RowAfter(w.rows[item.id], v, answer)] else w.rows)
      && w'.retry == RetryAfter(cfg, w, item, v) && w'.lists == w.lists && w'.scheduled == w.scheduled
  {
    hide VerdictOn, RowAfter, RetryAfter, EventsAfter, MetricAfter, RateLimit.Bumped;
  }

  // Processing an item in one step is what its worker thread does when it runs its
  // commands one after the other: the stores are the same afterwards.
  lemma ProcessMirrored(cfg: Config, w: World, s: P.State, t: P.ThreadId, item: QueueItem, answer: Answer)
    requires L.Inv(cfg, w) && item in w.hands && Mirrors(w, s)
    requires t in s.threads && s.threads[t] == P.Working(item, P.Fetch)
    ensures var v := VerdictOn(cfg, w, item, answer);
      var s' := Alone(cfg.maxAttempts, s, t, Script(v, PutOffAt(cfg, w, v)));
      && Mirrors(Processed(cfg, w, item, answer), s')
      && s' == s.(rows := s'.rows, retry := s'.retry, log := s'.log, threads := s.threads[t := P.Stopped])
  {
    hide L.Inv, L.TokensIn, Listed, StoryIn, StoryOf, EventsOf, VerdictOn, RetryAfter, RowAfter, EventsAfter,
      Alone, Script, Leads, SameRows, StatusAfter, InQueue, PutOffAt, Processed;
    var v, at := VerdictOn(cfg, w, item, answer), PutOffAt(cfg, w, VerdictOn(cfg, w, item, answer));
    L.HeldItem(cfg, w, item);
    ProcessedParts(cfg, w, item, answer);
    L.InvRanked(cfg, w);
    VerdictLeads(cfg, w, item, answer);
    RowMirrors(w.rows, s.rows, item.id);
    WorkerAlone(cfg.maxAttempts, s, t, item, v, at);
    RetryListed(cfg, w, item, v, s.retry);
    if Sends(v) {
      RowMirrored(w.rows, s.rows, item.id, v, answer);
    }
    var more := EventsOf(v, item.id, s.rows[item.id].attempts);
    assert [] + more == more;
    forall id ensures StoryIn(s.log + more, id) == StoryOf(Processed(cfg, w, item, answer), id) {
      StoriesMirrored(cfg, w, s.log, item, answer, id);
    }
  }

  lemma RowMirrors(rows: map<Id, Notification>, rows': map<Id, P.Row>, id: Id)
    requires SameRows(rows, rows') && id in rows
    ensures id in rows' && rows'[id] == RowAs(rows[id])
  {
  }

  lemma NoEvents(v: Verdict, id: Id, attempts: nat, log: seq<P.Event>)
    requires !Sends(v)
    ensures log + EventsOf(v, id, attempts) == log
  {
  }

  // Dequeuing in one step is what beginning a worker thread does.
  lemma TakeMirrored(cfg: Config, w: World, s: P.State, t: P.ThreadId, item: QueueItem)
    requires Mirrors(w, s) && PQ.Front(w.lists) == Some(item) && t !in s.threads
    ensures var s' := P.Next(cfg.maxAttempts, s, P.BeginWork(t, item));
      Mirrors(Taken(w), s') && s' == s.(queue := s'.queue, threads := s.threads[t := P.Working(item, P.Fetch)])
  {
    hide Listed, StoryIn, PQ.Front, PQ.Popped, InQueue;
    PopTokens(w.lists);
    assert forall id :: StoryOf(Taken(w), id) == StoryOf(w, id);
  }

  lemma EmptyMirrored(now: int)
    ensures Mirrors(Empty(now), P.INIT)
  {
    assert InQueue(Empty(now).lists) == multiset{};
  }
}
