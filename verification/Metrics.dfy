// The delivered and failed counters against the rows.

module Metrics {
  import opened Domain
  import opened DelayedSet
  import opened UseCases
  import opened Lifecycle
  import opened Guarantees
  import opened Observed
  import PQ = PriorityQueue
  import RateLimit

  predicate Has(n: Notification, channel: Channel, s: Status) {
    n.channel == channel && n.status == s
  }

  function RowsWith(rows: map<Id, Notification>, channel: Channel, s: Status): set<Id> {
    set id | id in rows && Has(rows[id], channel, s)
  }

  // The counter of a final status counts the rows with it.
  ghost predicate Counts(w: World, channel: Channel) {
    && Recorded(w.metrics, Metric(DeliveredCount, channel)) == |RowsWith(w.rows, channel, Delivered)|
    && Recorded(w.metrics, Metric(FailedCount, channel)) == |RowsWith(w.rows, channel, Failed)|
  }

  lemma RowsWritten(rows: map<Id, Notification>, id: Id, n: Notification, channel: Channel, s: Status, x: Id)
    ensures x in RowsWith(rows[id := n], channel, s) <==>
            if x == id then Has(n, channel, s) else x in RowsWith(rows, channel, s)
  {
    hide Has;
  }

  // A row that is new, or was not counted, takes on another status.
  lemma RowWritten(rows: map<Id, Notification>, id: Id, n: Notification, channel: Channel, s: Status)
    requires id in rows ==> !Has(rows[id], channel, s)
    ensures |RowsWith(rows[id := n], channel, s)| == |RowsWith(rows, channel, s)| + if Has(n, channel, s) then 1 else 0
  {
    hide Has;
    var before, after := RowsWith(rows, channel, s), RowsWith(rows[id := n], channel, s);
    assert id !in before;
    hide RowsWith;
    forall x ensures x in after <==> if x == id then Has(n, channel, s) else x in before {
      RowsWritten(rows, id, n, channel, s, x);
    }
    if Has(n, channel, s) {
      assert after == before + {id};
    } else {
      assert after == before;
    }
  }

  lemma RowAfterStatus(n: Notification, v: Verdict, answer: Answer)
    requires Sends(v) && (v.Deliver? <==> answer.Accepted?)
    ensures RowAfter(n, v, answer).channel == n.channel
    ensures RowAfter(n, v, answer).status == if v.Deliver? then Delivered else if v.GiveUp? then Failed else Queued
  {
  }

  lemma ProcessedMetrics(cfg: Config, w: World, item: QueueItem, answer: Answer)
    requires item.id in w.rows
    ensures var v := VerdictOn(cfg, w, item, answer);
      Processed(cfg, w, item, answer).metrics ==
      if MetricAfter(v).Some? then w.metrics + [Metric(MetricAfter(v).value, w.rows[item.id].channel)] else w.metrics
  {
    hide RowAfter, EventsAfter, RetryAfter, VerdictOn, RateLimit.Bumped, MetricAfter;
  }

  lemma ProcessCounts(cfg: Config, w: World, item: QueueItem, answer: Answer, channel: Channel)
    requires Inv(cfg, w) && item in w.hands && Counts(w, channel)
    ensures Counts(Processed(cfg, w, item, answer), channel)
  {
    hide Inv, RowAfter, Recorded, VerdictOn, RowsWith, Processed;
    HeldItem(cfg, w, item);
    HeldVerdict(cfg, w, item, answer);
    ProcessedRows(cfg, w, item, answer);
    ProcessedMetrics(cfg, w, item, answer);
    var n, v := w.rows[item.id], VerdictOn(cfg, w, item, answer);
    if MetricAfter(v).Some? {
      RecordedGrows(w.metrics, Metric(MetricAfter(v).value, n.channel), Metric(DeliveredCount, channel));
      RecordedGrows(w.metrics, Metric(MetricAfter(v).value, n.channel), Metric(FailedCount, channel));
    }
    if Sends(v) {
      Verdicts(cfg, w, item, answer);
      RowAfterStatus(n, v, answer);
      RowWritten(w.rows, item.id, RowAfter(n, v, answer), channel, Delivered);
      RowWritten(w.rows, item.id, RowAfter(n, v, answer), channel, Failed);
    }
  }

  lemma NextCounts(cfg: Config, w: World, step: Step, channel: Channel)
    requires Inv(cfg, w) && Counts(w, channel)
    ensures Counts(Next(cfg, w, step), channel)
  {
    hide Inv, Created, Processed, PQ.Purged, Kept, PQ.Front, PQ.Popped, PushedAll, DueCount, Recorded, RowsWith;
    match step {
      case Process(item, answer) =>
        if item in w.hands {
          ProcessCounts(cfg, w, item, answer, channel);
        }
      case Create(input, id) =>
        OnlyProcessSends(cfg, w, step);
        CreatedRows(cfg, w, input, id);
        var rows' := Created(cfg, w, input, id).0.rows;
        if id !in w.rows && id in rows' {
          RowWritten(w.rows, id, rows'[id], channel, Delivered);
          RowWritten(w.rows, id, rows'[id], channel, Failed);
        }
      case Cancel(id) =>
        if id in w.rows && w.rows[id].status.Cancellable() {
          var n := WithStatus(w.rows[id], Cancelled, None, None, w.rows[id].attempts);
          RowWritten(w.rows, id, n, channel, Delivered);
          RowWritten(w.rows, id, n, channel, Failed);
        }
      case _ =>
    }
  }

  // In every run, per channel, the delivered counter is the number of delivered
  // notifications and the failed counter that of failed ones.
  lemma {:induction false} CountersMatchRows(cfg: Config, now: int, steps: seq<Step>, channel: Channel)
    ensures var w := Run(cfg, Empty(now), steps);
      && Recorded(w.metrics, Metric(DeliveredCount, channel)) == |RowsWith(w.rows, channel, Delivered)|
      && Recorded(w.metrics, Metric(FailedCount, channel)) == |RowsWith(w.rows, channel, Failed)|
  {
    hide Next, Inv;
    if steps == [] {
      assert RowsWith(map[], channel, Delivered) == {} && RowsWith(map[], channel, Failed) == {};
    } else {
      var before := steps[..|steps| - 1];
      CountersMatchRows(cfg, now, before, channel);
      EmptyInv(cfg, now);
      RunKeepsInv(cfg, Empty(now), before);
      NextCounts(cfg, Run(cfg, Empty(now), before), steps[|steps| - 1], channel);
    }
  }
}
