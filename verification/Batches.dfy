// Batches: many notifications created under one batch id
// (internal/usecase/create_batch.go), and the count of each status
// (internal/adapter/repository/postgres/batch_repo.go).

module Batches {
  import opened Domain
  import opened UseCases
  import opened Lifecycle
  import opened Guarantees
  import opened Columns
  import opened Stores
  import opened Services
  import opened DelayedSet
  import PQ = PriorityQueue
  import RateLimit

  const MAX_BATCH: nat := 1000

  datatype BatchResult = Created(batch: Id, total: nat) | Refused | ItemFailed(at: nat, error: Error)

  function InBatch(input: Input, batch: Id): Input {
    input.(batch := Some(batch))
  }

  // The items are created in order until one fails; those before it remain.
  function AllCreated(cfg: Config, w: World, items: seq<Input>, batch: Id, ids: seq<Id>): (World, Option<(nat, Error)>)
    requires |ids| == |items|
  {
    if items == [] then (w, None)
    else
      var last := |items| - 1;
      var (w', failed) := AllCreated(cfg, w, items[..last], batch, ids[..last]);
      if failed.Some? then (w', failed)
      else
        var (w'', r) := UseCases.Created(cfg, w', InBatch(items[last], batch), ids[last]);
        (w'', if r.Err? then Some((last, r.error)) else None)
  }

  function RowsOf(rows: map<Id, Notification>, batch: Id): set<Id> {
    set id | id in rows && rows[id].batch == Some(batch)
  }

  function RowsIn(rows: map<Id, Notification>, batch: Id, s: Status): set<Id> {
    set id | id in rows && rows[id].batch == Some(batch) && rows[id].status == s
  }

  class BatchRepo {
    const notifications: NotificationRepo
    var totals: map<Id, nat>

    constructor (notifications: NotificationRepo)
      ensures this.notifications == notifications && totals == map[]
    {
      this.notifications := notifications;
      totals := map[];
    }

    method Create(batch: Id, total: nat)
      modifies this
      ensures totals == old(totals)[batch := total]
    {
      totals := totals[batch := total];
    }

    // A status that no row of the batch has is not in the map.
    method StatusCounts(batch: Id) returns (counts: map<Status, nat>)
      ensures forall s :: s in counts <==> RowsIn(notifications.rows, batch, s) != {}
      ensures forall s :: s in counts ==> counts[s] == |RowsIn(notifications.rows, batch, s)|
    {
      hide RowsIn;
      var rows := notifications.rows;
      counts := map[];
      var left := rows;
      NothingCounted(batch);
      assert rows - left.Keys == map[];
      while left != map[]
        invariant forall id :: id in left ==> id in rows && left[id] == rows[id]
        invariant Counted(counts, rows - left.Keys, batch)
        decreases left
      {
        var id :| id in left;
        hide Counted;
        OneMore(counts, rows, left, batch, id);
        if left[id].batch == Some(batch) {
          var s := left[id].status;
          counts := counts[s := (if s in counts then counts[s] else 0) + 1];
        }
        left := left - {id};
      }
      assert rows - left.Keys == rows;
    }
  }

  // The counts of the rows of a batch, for the statuses that occur.
  ghost predicate Counted(counts: map<Status, nat>, rows: map<Id, Notification>, batch: Id) {
    && (forall s :: s in counts <==> RowsIn(rows, batch, s) != {})
    && (forall s :: s in counts ==> counts[s] == |RowsIn(rows, batch, s)|)
  }

  lemma NothingCounted(batch: Id)
    ensures Counted(map[], map[], batch)
  {
    assert forall s :: RowsIn(map[], batch, s) == {};
  }

  // One more row is counted under its status if it is of the batch.
  lemma OneMore(counts: map<Status, nat>, rows: map<Id, Notification>, left: map<Id, Notification>, batch: Id, id: Id)
    requires id in left && id in rows && left[id] == rows[id] && Counted(counts, rows - left.Keys, batch)
    ensures var s, rows' := rows[id].status, rows - (left - {id}).Keys;
      Counted(if rows[id].batch == Some(batch) then counts[s := (if s in counts then counts[s] else 0) + 1] else counts,
              rows', batch)
  {
    hide RowsIn;
    forall s {
      RowsMore(rows, left, batch, id, s);
    }
  }

  lemma RowsMore(rows: map<Id, Notification>, left: map<Id, Notification>, batch: Id, id: Id, s: Status)
    requires id in left && id in rows && left[id] == rows[id]
    ensures var hit := rows[id].batch == Some(batch) && rows[id].status == s;
      var before, after := RowsIn(rows - left.Keys, batch, s), RowsIn(rows - (left - {id}).Keys, batch, s);
      && (after != {} <==> before != {} || hit)
      && |after| == |before| + if hit then 1 else 0
  {
    var before, after := RowsIn(rows - left.Keys, batch, s), RowsIn(rows - (left - {id}).Keys, batch, s);
    RowsAre(rows, left, batch, id, s);
    hide RowsIn;
    if rows[id].batch == Some(batch) && rows[id].status == s {
      assert after == before + {id};
    } else {
      assert after == before;
    }
  }

  lemma RowsAre(rows: map<Id, Notification>, left: map<Id, Notification>, batch: Id, id: Id, s: Status)
    requires id in left && id in rows && left[id] == rows[id]
    ensures id !in RowsIn(rows - left.Keys, batch, s)
    ensures forall x :: x in RowsIn(rows - (left - {id}).Keys, batch, s) <==>
              x in RowsIn(rows - left.Keys, batch, s)
              || (x == id && rows[id].batch == Some(batch) && rows[id].status == s)
  {
  }

  // The statuses of a batch partition its rows, so the counts add up to their number.
  lemma CountsAddUp(rows: map<Id, Notification>, batch: Id)
    ensures |RowsOf(rows, batch)| ==
            |RowsIn(rows, batch, Pending)| + |RowsIn(rows, batch, Queued)| + |RowsIn(rows, batch, Sending)|
            + |RowsIn(rows, batch, Delivered)| + |RowsIn(rows, batch, Failed)| + |RowsIn(rows, batch, Status.Cancelled)|
  {
    Partition(rows, batch);
    hide RowsIn, RowsOf;
    SixSets(RowsIn(rows, batch, Pending), RowsIn(rows, batch, Queued), RowsIn(rows, batch, Sending),
            RowsIn(rows, batch, Delivered), RowsIn(rows, batch, Failed), RowsIn(rows, batch, Status.Cancelled));
  }

  lemma Partition(rows: map<Id, Notification>, batch: Id)
    ensures RowsOf(rows, batch) ==
            RowsIn(rows, batch, Pending) + RowsIn(rows, batch, Queued) + RowsIn(rows, batch, Sending)
            + RowsIn(rows, batch, Delivered) + RowsIn(rows, batch, Failed) + RowsIn(rows, batch, Status.Cancelled)
    ensures forall s, s' :: s != s' ==> RowsIn(rows, batch, s) !! RowsIn(rows, batch, s')
  {
    forall id | id in RowsOf(rows, batch) ensures id in RowsIn(rows, batch, rows[id].status) {
    }
  }

  lemma SixSets<T>(p: set<T>, q: set<T>, s: set<T>, d: set<T>, f: set<T>, c: set<T>)
    requires p !! q && p !! s && p !! d && p !! f && p !! c && q !! s && q !! d && q !! f && q !! c
    requires s !! d && s !! f && s !! c && d !! f && d !! c && f !! c
    ensures |p + q + s + d + f + c| == |p| + |q| + |s| + |d| + |f| + |c|
  {
    assert |p + q| == |p| + |q|;
    assert |p + q + s| == |p + q| + |s|;
    assert |p + q + s + d| == |p + q + s| + |d|;
    assert |p + q + s + d + f| == |p + q + s + d| + |f|;
  }

  // ---- creating ----

  // The first n items with the batch id.
  function Batched(items: seq<Input>, batch: Id, n: nat): (after: seq<Input>)
    ensures |after| == |items|
    ensures forall i :: 0 <= i < |items| ==> after[i] == if i < n then InBatch(items[i], batch) else items[i]
  {
    seq(|items|, i requires 0 <= i < |items| => if i < n then InBatch(items[i], batch) else items[i])
  }

  // The batch row comes first; the items get the batch id in place, up to the one that fails.
  method CreateBatch(n: Notifier, batches: BatchRepo, items: array<Input>, batch: Id, ids: seq<Id>)
    returns (r: BatchResult)
    requires n.Valid() && |ids| == items.Length
    modifies n.repo, n.idem, n.queue, n.scheduled, batches, items
    ensures n.Valid()
    ensures r.Refused? <==> items.Length == 0 || items.Length > 1000
    ensures r.Refused? ==>
              n.State() == old(n.State()) && batches.totals == old(batches.totals) && items[..] == old(items[..])
    ensures !r.Refused? ==> batches.totals == old(batches.totals)[batch := items.Length]
    ensures !r.Refused? ==>
              var done := if r.ItemFailed? then r.at + 1 else items.Length;
              done <= items.Length && items[..] == Batched(old(items[..]), batch, done)
    ensures !r.Refused? ==>
              var (w, failed) := AllCreated(n.cfg, old(n.State()), old(items[..]), batch, ids);
              && n.State() == w
              && r == if failed.Some? then ItemFailed(failed.value.0, failed.value.1) else Created(batch, items.Length)
  {
    hide UseCases.Created, AllCreated, Batched, Indexed;
    if items.Length == 0 || items.Length > MAX_BATCH {
      return Refused;
    }
    batches.Create(batch, items.Length);
    NoneCreated(n.cfg, n.State(), batch);
    assert old(items[..])[..0] == [] && ids[..0] == [];
    for i := 0 to items.Length
      invariant n.Valid() && batches.totals == old(batches.totals)[batch := items.Length]
      invariant items[..] == Batched(old(items[..]), batch, i)
      invariant AllCreated(n.cfg, old(n.State()), old(items[..])[..i], batch, ids[..i]) == (n.State(), None)
    {
      StepAll(n.cfg, old(n.State()), old(items[..]), batch, ids, i);
      items[i] := InBatch(items[i], batch);
      var created := n.Create(items[i], ids[i]);
      if created.Err? {
        return ItemFailed(i, created.error);
      }
    }
    assert old(items[..])[..items.Length] == old(items[..]) && ids[..items.Length] == ids;
    return Created(batch, items.Length);
  }

  lemma NoneCreated(cfg: Config, w: World, batch: Id)
    ensures AllCreated(cfg, w, [], batch, []) == (w, None)
  {
  }

  lemma StepAll(cfg: Config, w: World, items: seq<Input>, batch: Id, ids: seq<Id>, i: nat)
    requires |ids| == |items| && i < |items|
    requires AllCreated(cfg, w, items[..i], batch, ids[..i]).1.None?
    ensures var (w', r) := UseCases.Created(cfg, AllCreated(cfg, w, items[..i], batch, ids[..i]).0,
                                            InBatch(items[i], batch), ids[i]);
      && AllCreated(cfg, w, items[..i + 1], batch, ids[..i + 1])
         == (w', if r.Err? then Some((i, r.error)) else None)
      && (r.Err? ==> AllCreated(cfg, w, items, batch, ids) == (w', Some((i, r.error))))
  {
    hide UseCases.Created;
    assert items[..i + 1][..i] == items[..i] && ids[..i + 1][..i] == ids[..i];
    var w1 := AllCreated(cfg, w, items[..i], batch, ids[..i]).0;
    if UseCases.Created(cfg, w1, InBatch(items[i], batch), ids[i]).1.Err? {
      StaysFailed(cfg, w, items, batch, ids, i + 1);
    }
  }

  // Once an item has failed, the rest changes nothing.
  lemma {:induction false} StaysFailed(cfg: Config, w: World, items: seq<Input>, batch: Id, ids: seq<Id>, i: nat)
    requires |ids| == |items| && i <= |items|
    requires AllCreated(cfg, w, items[..i], batch, ids[..i]).1.Some?
    ensures AllCreated(cfg, w, items, batch, ids) == AllCreated(cfg, w, items[..i], batch, ids[..i])
    decreases |items|
  {
    hide UseCases.Created;
    if i == |items| {
      assert items[..i] == items && ids[..i] == ids;
    } else {
      var last := |items| - 1;
      assert items[..last][..i] == items[..i] && ids[..last][..i] == ids[..i];
      StaysFailed(cfg, w, items[..last], batch, ids[..last], i);
    }
  }

  ghost predicate FreshIds(w: World, ids: seq<Id>) {
    && (forall i :: 0 <= i < |ids| ==> ids[i] !in w.rows)
    && (forall i, j :: 0 <= i < j < |ids| ==> ids[i] != ids[j])
  }

  // The only change to the rows is a new one of the batch.
  predicate AddsRow(w: World, w': World, id: Id, batch: Option<Id>) {
    id in w'.rows && w'.rows == w.rows[id := w'.rows[id]] && w'.rows[id].batch == batch
  }

  // A created row carries the input's batch; without a key there always is a new row.
  lemma CreatedRow(cfg: Config, w: World, input: Input, id: Id)
    requires Inv(cfg, w) && id !in w.rows
    ensures var (w', r) := UseCases.Created(cfg, w, input, id);
      && Inv(cfg, w')
      && (w' == w || (r.Ok? && AddsRow(w, w', id, input.batch)))
      && (r.Err? ==> w' == w)
      && (input.key.None? && r.Ok? ==> id in w'.rows)
  {
    hide Inv, Content, Validates;
    CreateKeepsInv(cfg, w, input, id);
    CreateAnswers(cfg, w, input, id);
    CreatedBatch(cfg, w, input, id);
  }

  lemma StoredBatch(w: World, id: Id, n: Notification)
    ensures var rows' := Stored(w, id, n).rows;
      id in rows' && rows' == w.rows[id := rows'[id]] && rows'[id].batch == n.batch
  {
    hide PQ.Pushed, Added;
  }

  lemma CreatedBatch(cfg: Config, w: World, input: Input, id: Id)
    ensures var (w', r) := UseCases.Created(cfg, w, input, id);
      && (w'.rows == w.rows || AddsRow(w, w', id, input.batch))
      && (r.Ok? && w'.rows == w.rows && input.key.None? ==> id in w.rows)
  {
    hide Content, Validates, Stored;
    if Content(cfg, input).Ok? {
      var n := Draft(input, Content(cfg, input).value);
      StoredBatch(WithLease(w, n.key, id), id, n);
    }
  }

  // The rows after a batch: those before it, untouched, and new ones of this batch.
  ghost predicate Grown(rows: map<Id, Notification>, rows': map<Id, Notification>, batch: Id, ids: seq<Id>) {
    && (forall id :: id in rows ==> id in rows' && rows'[id] == rows[id])
    && (forall id :: id in rows' && id !in rows ==> id in ids && rows'[id].batch == Some(batch))
  }

  ghost predicate Keyless(items: seq<Input>) {
    forall i :: 0 <= i < |items| ==> items[i].key.None?
  }

  lemma OneMoreRow(w: World, w': World, w'': World, batch: Id, ids: seq<Id>, id: Id)
    requires FreshIds(w, ids + [id]) && Grown(w.rows, w'.rows, batch, ids)
    requires w'' == w' || AddsRow(w', w'', id, Some(batch))
    ensures id !in w'.rows && FreshIds(w, ids)
    ensures Grown(w.rows, w''.rows, batch, ids + [id])
  {
    assert (ids + [id])[|ids|] == id;
    assert forall i :: 0 <= i < |ids| ==> (ids + [id])[i] == ids[i];
    assert id !in ids;
  }

  lemma FreshPrefix(w: World, ids: seq<Id>, n: nat)
    requires n <= |ids| && FreshIds(w, ids)
    ensures FreshIds(w, ids[..n])
  {
  }

  lemma GrownMore(rows: map<Id, Notification>, rows': map<Id, Notification>, batch: Id, ids: seq<Id>, n: nat)
    requires n <= |ids| && Grown(rows, rows', batch, ids[..n])
    ensures Grown(rows, rows', batch, ids)
  {
  }

  // The rows of a batch are only added to, and each new one is of the batch.
  lemma {:induction false} BatchGrows(cfg: Config, w: World, items: seq<Input>, batch: Id, ids: seq<Id>)
    requires Inv(cfg, w) && |ids| == |items| && FreshIds(w, ids)
    ensures Inv(cfg, AllCreated(cfg, w, items, batch, ids).0)
    ensures Grown(w.rows, AllCreated(cfg, w, items, batch, ids).0.rows, batch, ids)
  {
    hide Inv, UseCases.Created, FreshIds, Grown;
    if items == [] {
      NoneGrown(w.rows, batch, ids);
    } else {
      var last := |items| - 1;
      FreshPrefix(w, ids, last);
      BatchGrows(cfg, w, items[..last], batch, ids[..last]);
      var (w', failed) := AllCreated(cfg, w, items[..last], batch, ids[..last]);
      if failed.Some? {
        GrownMore(w.rows, w'.rows, batch, ids, last);
      } else {
        assert ids == ids[..last] + [ids[last]];
        OneMoreRow(w, w', w', batch, ids[..last], ids[last]);
        CreatedRow(cfg, w', InBatch(items[last], batch), ids[last]);
        var w'' := UseCases.Created(cfg, w', InBatch(items[last], batch), ids[last]).0;
        OneMoreRow(w, w', w'', batch, ids[..last], ids[last]);
      }
    }
  }

  lemma NoneGrown(rows: map<Id, Notification>, batch: Id, ids: seq<Id>)
    ensures Grown(rows, rows, batch, ids)
  {
  }

  // Before the last item, its id is still free.
  lemma LastIdFree(cfg: Config, w: World, items: seq<Input>, batch: Id, ids: seq<Id>)
    requires items != [] && Inv(cfg, w) && |ids| == |items| && FreshIds(w, ids)
    ensures var last := |items| - 1; var w' := AllCreated(cfg, w, items[..last], batch, ids[..last]).0;
      FreshIds(w, ids[..last]) && Inv(cfg, w') && ids[last] !in w'.rows
  {
    hide Inv, AllCreated, FreshIds, Grown;
    var last := |items| - 1;
    FreshPrefix(w, ids, last);
    BatchGrows(cfg, w, items[..last], batch, ids[..last]);
    assert ids == ids[..last] + [ids[last]];
    var w' := AllCreated(cfg, w, items[..last], batch, ids[..last]).0;
    OneMoreRow(w, w', w', batch, ids[..last], ids[last]);
  }

  // A batch that fails at an item leaves exactly what a batch of the items before it would.
  lemma {:induction false} FailedBatchKeepsPrefix(cfg: Config, w: World, items: seq<Input>, batch: Id, ids: seq<Id>)
    requires Inv(cfg, w) && |ids| == |items| && FreshIds(w, ids)
    ensures var (w', failed) := AllCreated(cfg, w, items, batch, ids);
      failed.Some? ==>
        failed.value.0 < |items| &&
        AllCreated(cfg, w, items[..failed.value.0], batch, ids[..failed.value.0]) == (w', None)
  {
    hide Inv, UseCases.Created, FreshIds;
    if items != [] {
      var last := |items| - 1;
      LastIdFree(cfg, w, items, batch, ids);
      FailedBatchKeepsPrefix(cfg, w, items[..last], batch, ids[..last]);
      var (w', failed) := AllCreated(cfg, w, items[..last], batch, ids[..last]);
      if failed.None? {
        CreatedRow(cfg, w', InBatch(items[last], batch), ids[last]);
      } else {
        assert items[..last][..failed.value.0] == items[..failed.value.0];
        assert ids[..last][..failed.value.0] == ids[..failed.value.0];
      }
    }
  }

  // Without keys each item of a batch that succeeds has its row.
  lemma {:induction false} KeylessBatch(cfg: Config, w: World, items: seq<Input>, batch: Id, ids: seq<Id>)
    requires Inv(cfg, w) && |ids| == |items| && FreshIds(w, ids) && Keyless(items)
    requires AllCreated(cfg, w, items, batch, ids).1.None?
    ensures forall i :: 0 <= i < |ids| ==> ids[i] in AllCreated(cfg, w, items, batch, ids).0.rows
  {
    hide Inv, UseCases.Created, FreshIds;
    if items != [] {
      var last := |items| - 1;
      LastIdFree(cfg, w, items, batch, ids);
      KeylessBatch(cfg, w, items[..last], batch, ids[..last]);
      var w' := AllCreated(cfg, w, items[..last], batch, ids[..last]).0;
      assert items[last].key.None?;
      CreatedRow(cfg, w', InBatch(items[last], batch), ids[last]);
      var w'' := AllCreated(cfg, w, items, batch, ids).0;
      assert w'' == UseCases.Created(cfg, w', InBatch(items[last], batch), ids[last]).0;
      forall i | 0 <= i < |ids| ensures ids[i] in w''.rows {
        assert i < last ==> ids[..last][i] == ids[i];
      }
    }
  }

  // Each new row of a batch has the columns of the item it was created for, and the batch.
  lemma {:induction false} BatchRowsFollow(cfg: Config, w: World, items: seq<Input>, batch: Id, ids: seq<Id>, i: nat)
    requires Inv(cfg, w) && |ids| == |items| && FreshIds(w, ids) && i < |items|
    ensures var rows' := AllCreated(cfg, w, items, batch, ids).0.rows;
      ids[i] in rows' ==> FromInput(cfg, items[i].(batch := Some(batch)), rows'[ids[i]])
    decreases |items|
  {
    hide Inv, Ranked, UseCases.Created, FromInput, FreshIds;
    var last := |items| - 1;
    LastIdFree(cfg, w, items, batch, ids);
    var (w', failed) := AllCreated(cfg, w, items[..last], batch, ids[..last]);
    if i < last {
      BatchRowsFollow(cfg, w, items[..last], batch, ids[..last], i);
      assert ids[..last][i] == ids[i] && items[..last][i] == items[i];
      OldRowsStay(cfg, w, items, batch, ids, i);
    } else if failed.None? {
      CreatedRow(cfg, w', InBatch(items[last], batch), ids[last]);
      if ids[last] in UseCases.Created(cfg, w', InBatch(items[last], batch), ids[last]).0.rows {
        InvRanked(cfg, w');
        CreateStores(cfg, w', InBatch(items[last], batch), ids[last]);
      }
    }
  }

  // The last item changes no row of an earlier one.
  lemma OldRowsStay(cfg: Config, w: World, items: seq<Input>, batch: Id, ids: seq<Id>, i: nat)
    requires Inv(cfg, w) && |ids| == |items| && FreshIds(w, ids) && i < |items| - 1
    ensures var rows := AllCreated(cfg, w, items[..|items| - 1], batch, ids[..|items| - 1]).0.rows;
      var rows' := AllCreated(cfg, w, items, batch, ids).0.rows;
      && (ids[i] in rows <==> ids[i] in rows')
      && (ids[i] in rows ==> rows'[ids[i]] == rows[ids[i]])
  {
    hide Inv, UseCases.Created;
    var last := |items| - 1;
    LastIdFree(cfg, w, items, batch, ids);
    var (w', failed) := AllCreated(cfg, w, items[..last], batch, ids[..last]);
    if failed.None? {
      CreatedRow(cfg, w', InBatch(items[last], batch), ids[last]);
    }
  }

  lemma {:induction false} DistinctCount(ids: seq<Id>)
    requires forall i, j :: 0 <= i < j < |ids| ==> ids[i] != ids[j]
    ensures |set id | id in ids| == |ids|
  {
    if ids != [] {
      var front, last := ids[..|ids| - 1], ids[|ids| - 1];
      DistinctCount(front);
      assert ids == front + [last];
      assert (set id | id in ids) == (set id | id in front) + {last};
    }
  }

  // The rows of a new batch never outnumber its items; they are as many when the
  // batch succeeds and no item has an idempotency key.
  lemma BatchCount(cfg: Config, w: World, items: seq<Input>, batch: Id, ids: seq<Id>)
    requires Inv(cfg, w) && |ids| == |items| && FreshIds(w, ids) && RowsOf(w.rows, batch) == {}
    ensures var (w', failed) := AllCreated(cfg, w, items, batch, ids);
      && |RowsOf(w'.rows, batch)| <= |items|
      && (failed.None? && Keyless(items) ==> |RowsOf(w'.rows, batch)| == |items|)
  {
    hide Inv, AllCreated;
    BatchGrows(cfg, w, items, batch, ids);
    DistinctCount(ids);
    var (w', failed) := AllCreated(cfg, w, items, batch, ids);
    var all := set id | id in ids;
    forall id | id in RowsOf(w'.rows, batch) ensures id in all {
      assert id !in RowsOf(w.rows, batch);
    }
    RateLimit.SubsetSize(RowsOf(w'.rows, batch), all);
    if failed.None? && Keyless(items) {
      KeylessBatch(cfg, w, items, batch, ids);
      assert RowsOf(w'.rows, batch) == all;
    }
  }
}
