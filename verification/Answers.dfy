// What becomes of the provider's answers: each is recorded, and together they
// determine the attempts, the error, the provider id and the dead letter of a
// notification.

module Answers {
  import opened Domain
  import opened DelayedSet
  import opened UseCases
  import opened Lifecycle
  import opened Guarantees
  import opened Observed
  import PQ = PriorityQueue
  import RateLimit

  // ---- one attempt ----

  lemma RowAfterIs(n: Notification, v: Verdict, answer: Answer)
    requires v.GiveUp? ==> answer.Rejected?
    ensures RowAfter(n, v, answer) ==
            match answer
            case Accepted(m) =>
              n.(status := Delivered, attempts := n.attempts + 1, lastError := None, providerId := Some(m))
            case Rejected(r) =>
              n.(status := if v.GiveUp? then Failed else Queued, attempts := n.attempts + 1, lastError := Some(r))
  {
  }

  lemma PutOffListed(es: seq<Entry>, item: QueueItem, at: int)
    requires Ranked(es)
    ensures Entry(Unix(at), item.priority + "|" + item.id) in Added(es, item, at)
  {
    AddKeepsRanked(es, item, at);
  }

  // The notification is live: neither missing nor cancelled nor delivered.
  predicate Live(w: World, id: Id) {
    id in w.rows && w.rows[id].status != Cancelled && w.rows[id].status != Delivered
  }

  // An item of a live notification that gets a rate token.
  predicate MaySend(cfg: Config, w: World, item: QueueItem) {
    Live(w, item.id) && RateLimit.Allowed(w.counters, cfg.perSec, w.rows[item.id].channel, w.now)
  }

  lemma SendingVerdict(cfg: Config, w: World, item: QueueItem, answer: Answer)
    requires MaySend(cfg, w, item)
    ensures item.id in w.rows && VerdictOn(cfg, w, item, answer) == AfterSend(cfg, w.rows[item.id], answer)
  {
    hide RateLimit.Allowed, AfterSend;
  }

  // The call and the attempt are logged with the answer.
  predicate Logged(w: World, w': World, item: QueueItem, n: Notification, answer: Answer) {
    && w'.sends == w.sends + [ProviderCall(item.id, n.channel, n.recipient, n.content, answer)]
    && w'.attempts == w.attempts + [Attempt(item.id, n.attempts + 1, answer)]
  }

  // An accepted send delivers, stores the message id and clears the error.
  lemma AcceptanceStores(cfg: Config, w: World, item: QueueItem, messageId: string)
    requires MaySend(cfg, w, item)
    ensures var n, w' := w.rows[item.id], Processed(cfg, w, item, Accepted(messageId));
      && w'.rows == w.rows[item.id :=
           n.(status := Delivered, attempts := n.attempts + 1, lastError := None, providerId := Some(messageId))]
      && Logged(w, w', item, n, Accepted(messageId)) && w'.dead == w.dead && w'.retry == w.retry
      && w'.events == w.events + [StatusEvent(item.id, n.batch, Sending), StatusEvent(item.id, n.batch, Delivered)]
      && w'.metrics == w.metrics + [Metric(DeliveredCount, n.channel)]
  {
    hide MaySend, RateLimit.Bumped, Processed, RowAfter, VerdictOn;
    SendingVerdict(cfg, w, item, Accepted(messageId));
    AttemptedIs(cfg, w, item, Accepted(messageId));
    RowAfterIs(w.rows[item.id], Deliver, Accepted(messageId));
  }

  lemma EventsOfAttempt(events: seq<StatusEvent>, id: Id, n: Notification, v: Verdict)
    requires v.GiveUp? || v.TryLater?
    ensures events + EventsAfter(id, n, v) ==
            events + [StatusEvent(id, n.batch, Sending)]
            + (if v.GiveUp? then [StatusEvent(id, n.batch, Failed)] else [])
  {
  }

  // A rejected send stores the reason. With no attempts left the notification fails
  // and is dead-lettered with the reason, else it is put off by the retry interval.
  lemma RejectionStores(cfg: Config, w: World, item: QueueItem, reason: string)
    requires MaySend(cfg, w, item) && Ranked(w.retry)
    ensures var n, w' := w.rows[item.id], Processed(cfg, w, item, Rejected(reason));
      var last := n.attempts + 1 >= cfg.maxAttempts;
      && w'.rows == w.rows[item.id :=
           n.(status := if last then Failed else Queued, attempts := n.attempts + 1, lastError := Some(reason))]
      && Logged(w, w', item, n, Rejected(reason))
      && w'.dead == (if last then [DeadLetter(item.id, reason)] + w.dead else w.dead)
      && w'.events == w.events + [StatusEvent(item.id, n.batch, Sending)]
                      + (if last then [StatusEvent(item.id, n.batch, Failed)] else [])
      && w'.metrics == w.metrics + [Metric(if last then FailedCount else RetriedCount, n.channel)]
      && (last ==> w'.retry == w.retry)
      && (!last ==> Entry(Unix(w.now + cfg.retryInterval), item.priority + "|" + item.id) in w'.retry)
  {
    hide MaySend, RateLimit.Bumped, Processed, RowAfter, VerdictOn, Added, Unix, Ranked;
    SendingVerdict(cfg, w, item, Rejected(reason));
    AttemptedIs(cfg, w, item, Rejected(reason));
    RowAfterIs(w.rows[item.id], AfterSend(cfg, w.rows[item.id], Rejected(reason)), Rejected(reason));
    PutOffListed(w.retry, item, w.now + cfg.retryInterval);
    EventsOfAttempt(w.events, item.id, w.rows[item.id], AfterSend(cfg, w.rows[item.id], Rejected(reason)));
  }

  // An item without a row, or with one that is cancelled or delivered, is dropped from
  // the hands, whatever else the stores hold, and nothing but the hands changes.
  lemma SkippedChangesNothing(cfg: Config, w: World, item: QueueItem, answer: Answer)
    requires item.id !in w.rows || w.rows[item.id].status == Cancelled || w.rows[item.id].status == Delivered
    ensures Processed(cfg, w, item, answer) == w.(hands := w.hands - multiset{item})
  {
    hide RateLimit.Bumped;
    DiscardedIs(cfg, w, item, answer);
  }

  // Without a rate token nothing is sent or written; the item is put off by a second.
  lemma ThrottleStores(cfg: Config, w: World, item: QueueItem, answer: Answer)
    requires Live(w, item.id) && Ranked(w.retry)
    requires !RateLimit.Allowed(w.counters, cfg.perSec, w.rows[item.id].channel, w.now)
    ensures var w' := Processed(cfg, w, item, answer);
      && w'.rows == w.rows && w'.sends == w.sends && w'.attempts == w.attempts && w'.dead == w.dead
      && w'.events == w.events
      && Entry(Unix(w.now) + 1, item.priority + "|" + item.id) in w'.retry
      && w'.metrics == w.metrics + [Metric(RateLimitedCount, w.rows[item.id].channel)]
  {
    hide Added, RateLimit.Allowed, RateLimit.Bumped, AfterSend, Processed, Unix, Ranked;
    ThrottledIs(cfg, w, item, answer);
    PutOffListed(w.retry, item, w.now + SECOND);
    NextSecond(w.now);
  }

  lemma NextSecond(now: int)
    ensures Unix(now + SECOND) == Unix(now) + 1
  {
  }

  // ---- all attempts of a notification ----

  function AnswersTo(sends: seq<ProviderCall>, id: Id): seq<Answer> {
    if sends == [] then []
    else
      var last := sends[|sends| - 1];
      AnswersTo(sends[..|sends| - 1], id) + if last.id == id then [last.answer] else []
  }

  // The reasons an id was dead-lettered with, newest first.
  function DeathsOf(dead: seq<DeadLetter>, id: Id): seq<string> {
    if dead == [] then [] else (if dead[0].id == id then [dead[0].reason] else []) + DeathsOf(dead[1..], id)
  }

  lemma AnswersGrow(sends: seq<ProviderCall>, c: ProviderCall, id: Id)
    ensures AnswersTo(sends + [c], id) == AnswersTo(sends, id) + if c.id == id then [c.answer] else []
  {
    assert (sends + [c])[..|sends|] == sends;
  }

  lemma DeathsGrow(dead: seq<DeadLetter>, d: DeadLetter, id: Id)
    ensures DeathsOf([d] + dead, id) == (if d.id == id then [d.reason] else []) + DeathsOf(dead, id)
  {
    assert ([d] + dead)[1..] == dead;
  }

  // The reason of the last answer, if that is a rejection.
  function LastReason(answers: seq<Answer>): Option<string> {
    if answers != [] && answers[|answers| - 1].Rejected? then Some(answers[|answers| - 1].reason) else None
  }

  // The message id of the last answer, if that is an acceptance.
  function LastMessage(answers: seq<Answer>): Option<string> {
    if answers != [] && answers[|answers| - 1].Accepted? then Some(answers[|answers| - 1].messageId) else None
  }

  // What the answers to the sends of a notification leave in its row, its attempt
  // records and its dead letters.
  ghost predicate Told(n: Notification, answers: seq<Answer>, records: seq<Attempt>, deaths: seq<string>, id: Id) {
    && n.attempts == |answers| == |records|
    && (forall i :: 0 <= i < |records| ==> records[i] == Attempt(id, i + 1, answers[i]))
    && (forall i :: 0 <= i < |answers| - 1 ==> answers[i].Rejected?)
    && n.providerId == LastMessage(answers)
    && (n.status == Delivered <==> LastMessage(answers).Some?)
    && n.lastError == (if n.status == Cancelled then None else LastReason(answers))
    && (n.status == Failed ==> LastReason(answers).Some?)
    && deaths == if n.status == Failed then [LastReason(answers).value] else []
  }

  ghost predicate TellsOf(w: World, id: Id) {
    var answers, records, deaths := AnswersTo(w.sends, id), RecordsOf(w.attempts, id), DeathsOf(w.dead, id);
    if id in w.rows then Told(w.rows[id], answers, records, deaths, id)
    else answers == [] && records == [] && deaths == []
  }

  // One more answer, to a notification that is pending or queued.
  lemma ToldAttempt(n: Notification, answers: seq<Answer>, records: seq<Attempt>, deaths: seq<string>, id: Id,
                    v: Verdict, answer: Answer)
    requires Told(n, answers, records, deaths, id) && n.status.Cancellable()
    requires Sends(v) && (v.Deliver? <==> answer.Accepted?)
    ensures Told(RowAfter(n, v, answer), answers + [answer], records + [Attempt(id, n.attempts + 1, answer)],
                 if v.GiveUp? then [answer.reason] + deaths else deaths, id)
  {
    RowAfterIs(n, v, answer);
  }

  // What processing adds to the logs of an id.
  lemma ProcessLogs(cfg: Config, w: World, item: QueueItem, answer: Answer, id: Id)
    requires item.id in w.rows
    ensures var w', v := Processed(cfg, w, item, answer), VerdictOn(cfg, w, item, answer);
      var mine := Sends(v) && item.id == id; var no := w.rows[item.id].attempts + 1;
      && AnswersTo(w'.sends, id) == (if mine then AnswersTo(w.sends, id) + [answer] else AnswersTo(w.sends, id))
      && RecordsOf(w'.attempts, id) ==
         (if mine then RecordsOf(w.attempts, id) + [Attempt(id, no, answer)] else RecordsOf(w.attempts, id))
      && DeathsOf(w'.dead, id) ==
         (if mine && v.GiveUp? && answer.Rejected? then [answer.reason] + DeathsOf(w.dead, id)
          else DeathsOf(w.dead, id))
  {
    hide AnswersTo, RecordsOf, DeathsOf, RowAfter, EventsAfter, RetryAfter, VerdictOn, RateLimit.Bumped, MetricAfter;
    var n := w.rows[item.id];
    AnswersGrow(w.sends, CallFor(item.id, n, answer), id);
    RecordsGrow(w.attempts, Attempt(item.id, n.attempts + 1, answer), id);
    if answer.Rejected? {
      DeathsGrow(w.dead, DeadLetter(item.id, answer.reason), id);
    }
  }

  // An id whose row and logs stay as they are.
  lemma SameTells(w: World, w': World, id: Id)
    requires TellsOf(w, id) && RowOf(w', id) == RowOf(w, id)
    requires AnswersTo(w'.sends, id) == AnswersTo(w.sends, id)
    requires RecordsOf(w'.attempts, id) == RecordsOf(w.attempts, id)
    requires DeathsOf(w'.dead, id) == DeathsOf(w.dead, id)
    ensures TellsOf(w', id)
  {
    hide Told, AnswersTo, RecordsOf, DeathsOf;
  }

  lemma ProcessTells(cfg: Config, w: World, item: QueueItem, answer: Answer, id: Id)
    requires Inv(cfg, w) && item in w.hands && TellsOf(w, id)
    ensures TellsOf(Processed(cfg, w, item, answer), id)
  {
    hide Inv, Told, AnswersTo, RecordsOf, DeathsOf, RowAfter, VerdictOn, Processed;
    HeldItem(cfg, w, item);
    ProcessLogs(cfg, w, item, answer, id);
    ProcessedRows(cfg, w, item, answer);
    var n, v := w.rows[item.id], VerdictOn(cfg, w, item, answer);
    if Sends(v) && item.id == id {
      HeldVerdict(cfg, w, item, answer);
      Verdicts(cfg, w, item, answer);
      ToldAttempt(n, AnswersTo(w.sends, id), RecordsOf(w.attempts, id), DeathsOf(w.dead, id), id, v, answer);
    } else {
      hide TellsOf;
      SameTells(w, Processed(cfg, w, item, answer), id);
    }
  }

  lemma CancelTells(w: World, cancelled: Id, id: Id)
    requires TellsOf(w, id)
    ensures TellsOf(CancelledWorld(w, cancelled), id)
  {
    hide AnswersTo, RecordsOf, DeathsOf, PQ.Purged, Kept;
  }

  lemma CreateTells(cfg: Config, w: World, input: Input, created: Id, id: Id)
    requires created !in w.rows && TellsOf(w, id)
    ensures TellsOf(Created(cfg, w, input, created).0, id)
  {
    hide AnswersTo, RecordsOf, DeathsOf, Content, Validates, Stored;
    if Content(cfg, input).Ok? {
      var n := Draft(input, Content(cfg, input).value);
      StoredTells(WithLease(w, n.key, created), created, n, id);
    }
  }

  lemma StoredTells(w: World, created: Id, n: Notification, id: Id)
    requires created !in w.rows && TellsOf(w, id)
    requires n.status == Pending && n.attempts == 0 && n.lastError == None && n.providerId == None
    ensures TellsOf(Stored(w, created, n), id)
  {
    hide AnswersTo, RecordsOf, DeathsOf, PQ.Pushed, Added;
  }

  lemma NextTells(cfg: Config, w: World, step: Step, id: Id)
    requires Inv(cfg, w) && TellsOf(w, id)
    ensures TellsOf(Next(cfg, w, step), id)
  {
    hide Inv, Told, AnswersTo, RecordsOf, DeathsOf, Created, Processed, CancelledWorld, PQ.Front, PushedAll, DueCount;
    match step {
      case Create(input, created) =>
        if created !in w.rows {
          CreateTells(cfg, w, input, created, id);
        }
      case Process(item, answer) =>
        if item in w.hands {
          ProcessTells(cfg, w, item, answer, id);
        }
      case Cancel(cancelled) => CancelTells(w, cancelled, id);
      case _ =>
    }
  }

  lemma {:induction false} RunTells(cfg: Config, w: World, steps: seq<Step>, id: Id)
    requires Inv(cfg, w) && TellsOf(w, id)
    ensures TellsOf(Run(cfg, w, steps), id)
  {
    hide Inv, Next, TellsOf;
    if steps != [] {
      var before := steps[..|steps| - 1];
      RunTells(cfg, w, before, id);
      RunKeepsInv(cfg, w, before);
      NextTells(cfg, Run(cfg, w, before), steps[|steps| - 1], id);
    }
  }

  // In every reached world the provider's answers to the sends of a notification
  // say what its row holds: one record per answer, in order; all but the last are
  // rejections; it is delivered exactly when the last is an acceptance, whose
  // message id is then stored, and never one otherwise; the error stored is the
  // reason of the last rejection, unless it was delivered or cancelled; failed
  // means that it was dead-lettered once, with that reason.
  lemma AnswersDetermineTheRow(cfg: Config, w: World, id: Id)
    requires Reached(cfg, w) && id in w.rows
    ensures Told(w.rows[id], AnswersTo(w.sends, id), RecordsOf(w.attempts, id), DeathsOf(w.dead, id), id)
  {
    hide Run, Told, Inv;
    var now, steps :| w == Run(cfg, Empty(now), steps);
    EmptyInv(cfg, now);
    RunTells(cfg, Empty(now), steps, id);
  }
}
