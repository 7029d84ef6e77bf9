// The order in which items are served: in every run of use cases the lists behave
// as one stable priority queue, to which promotion adds in order of due time.

module Order {
  import opened Domain
  import opened DelayedSet
  import opened UseCases
  import opened Lifecycle
  import opened Columns
  import PQ = PriorityQueue

  // Whether the step adds a row whose item goes to the queue at once.
  predicate Queues(w: World, w': World, id: Id) {
    id !in w.rows && id in w'.rows && w'.rows[id].status == Queued
  }

  // Items wait in the order of before; what a step makes of that.
  ghost predicate Waits(cfg: Config, w: World, step: Step, before: seq<QueueItem>, after: seq<QueueItem>) {
    var w' := Next(cfg, w, step);
    match step
    case Create(_, id) =>
      after == if Queues(w, w', id) then before + [QueueItem(id, w'.rows[id].priority)] else before
    case Take =>
      exists r ::
        PQ.Serves(before, after, r) && w'.hands == w.hands + (if r.Some? then multiset{r.value} else multiset{})
    case Process(_, _) => after == before
    case Cancel(id) =>
      after == if id in w.rows && w.rows[id].status.Cancellable() then PQ.Cancelled(before, id) else before
    case PromoteRetry => exists due :: AreDue(w.retry, w'.retry, w.now, due) && after == before + due
    case PromoteScheduled => exists due :: AreDue(w.scheduled, w'.scheduled, w.now, due) && after == before + due
    case Pass(_) => after == before
  }

  // The items of the members up to the current second, by score and then by member;
  // the others stay.
  ghost predicate AreDue(es: seq<Entry>, es': seq<Entry>, now: int, due: seq<QueueItem>) {
    && |due| + |es'| == |es| && es' == es[|due|..]
    && (forall i :: 0 <= i < |due| ==> due[i] == Decode(es[i].member) && es[i].score <= Unix(now))
    && (forall i, j :: 0 <= i < j < |due| ==> Precedes(es[i], es[j]))
    && (forall i :: 0 <= i < |es'| ==> es'[i].score > Unix(now))
  }

  lemma CreateWaits(cfg: Config, w: World, input: Input, id: Id, before: seq<QueueItem>)
    returns (after: seq<QueueItem>)
    requires Inv(cfg, w) && PQ.Represents(w.lists, before)
    ensures Waits(cfg, w, Create(input, id), before, after)
    ensures PQ.Represents(Next(cfg, w, Create(input, id)).lists, after)
  {
    hide Inv, Ranked, PQ.Represents, FromInput, Created;
    var w' := Next(cfg, w, Create(input, id));
    after := before;
    if id !in w.rows {
      if id in w'.rows {
        InvRanked(cfg, w);
        CreateStores(cfg, w, input, id);
        if w'.rows[id].status == Queued {
          after := before + [QueueItem(id, w'.rows[id].priority)];
          PQ.PushRefines(w.lists, before, QueueItem(id, w'.rows[id].priority));
        }
      } else {
        NothingCreated(cfg, w, input, id);
      }
    }
  }

  lemma NothingCreated(cfg: Config, w: World, input: Input, id: Id)
    requires id !in Created(cfg, w, input, id).0.rows
    ensures Created(cfg, w, input, id).0.lists == w.lists
  {
    hide Content, Draft, Validates, Stored;
    if Content(cfg, input).Ok? {
      var n := Draft(input, Content(cfg, input).value);
      StoredAnswers(WithLease(w, n.key, id), id, n);
    }
  }

  lemma TakeWaits(cfg: Config, w: World, before: seq<QueueItem>) returns (after: seq<QueueItem>)
    requires PQ.Represents(w.lists, before)
    ensures Waits(cfg, w, Take, before, after) && PQ.Represents(Next(cfg, w, Take).lists, after)
  {
    hide PQ.Represents, PQ.Front, PQ.Popped;
    var k := PQ.PopRefines(w.lists, before);
    after := if PQ.Front(w.lists).None? then before else PQ.Without(before, k);
    assert PQ.Serves(before, after, PQ.Front(w.lists));
  }

  lemma DueOf(cfg: Config, w: World, es: seq<Entry>, before: seq<QueueItem>) returns (due: seq<QueueItem>)
    requires PQ.Represents(w.lists, before) && Ranked(es)
    ensures due == Items(es[..DueCount(es, w.now)]) && AreDue(es, es[DueCount(es, w.now)..], w.now, due)
    ensures PQ.Represents(PushedAll(w.lists, due), before + due)
  {
    hide PQ.Represents, PushedAll, Precedes, Ranked;
    PromotionRefines(w.lists, before, es, w.now);
    due := Items(es[..DueCount(es, w.now)]);
  }

  lemma PromoteWaits(cfg: Config, w: World, step: Step, before: seq<QueueItem>) returns (after: seq<QueueItem>)
    requires Inv(cfg, w) && PQ.Represents(w.lists, before) && (step.PromoteRetry? || step.PromoteScheduled?)
    ensures Waits(cfg, w, step, before, after) && PQ.Represents(Next(cfg, w, step).lists, after)
  {
    hide Inv, PQ.Represents, AreDue, PushedAll, Items, DueCount, Ranked;
    InvRanked(cfg, w);
    var due := DueOf(cfg, w, if step.PromoteRetry? then w.retry else w.scheduled, before);
    after := before + due;
  }

  lemma NextWaits(cfg: Config, w: World, step: Step, before: seq<QueueItem>) returns (after: seq<QueueItem>)
    requires Inv(cfg, w) && PQ.Represents(w.lists, before)
    ensures Waits(cfg, w, step, before, after) && PQ.Represents(Next(cfg, w, step).lists, after)
  {
    hide Inv, PQ.Represents;
    match step {
      case Create(input, id) => after := CreateWaits(cfg, w, input, id, before);
      case Take => after := TakeWaits(cfg, w, before);
      case Cancel(id) =>
        hide PQ.Purged, Kept;
        after := if id in w.rows && w.rows[id].status.Cancellable() then PQ.Cancelled(before, id) else before;
        PQ.RemoveRefines(w.lists, before, id);
      case PromoteRetry => after := PromoteWaits(cfg, w, step, before);
      case PromoteScheduled => after := PromoteWaits(cfg, w, step, before);
      case Process(item, answer) =>
        hide VerdictOn, RowAfter, RetryAfter, EventsAfter, MetricAfter, RateLimit.Bumped;
        after := before;
      case Pass(_) => after := before;
    }
  }

  // Over every run of use cases the three lists hold one queue: creating for now
  // appends to it, promotion appends what is due, in order of due time, dequeuing
  // takes the item that has waited longest among those of the best priority, and
  // cancelling removes. Each waiting[i] is the queue before step i.
  lemma {:induction false} RunWaits(cfg: Config, now: int, steps: seq<Step>) returns (waiting: seq<seq<QueueItem>>)
    ensures |waiting| == |steps| + 1 && waiting[0] == []
    ensures forall i :: 0 <= i < |steps| ==>
              Waits(cfg, Run(cfg, Empty(now), steps[..i]), steps[i], waiting[i], waiting[i + 1])
    ensures PQ.Represents(Run(cfg, Empty(now), steps).lists, waiting[|steps|])
  {
    hide Inv, Next, Waits, PQ.Represents;
    if steps == [] {
      waiting := [[]];
      PQ.EmptyLists();
    } else {
      var before := steps[..|steps| - 1];
      var earlier := RunWaits(cfg, now, before);
      EmptyInv(cfg, now);
      RunKeepsInv(cfg, Empty(now), before);
      var last := NextWaits(cfg, Run(cfg, Empty(now), before), steps[|steps| - 1], earlier[|before|]);
      waiting := earlier + [last];
      forall i | 0 <= i < |before| ensures before[..i] == steps[..i] && before[i] == steps[i] {
      }
    }
  }
}
