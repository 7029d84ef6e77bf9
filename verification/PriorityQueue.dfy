// The work queue: one list per priority, pushed on the left and popped from the
// right (internal/adapter/queue/redis/queue.go).

module PriorityQueue {
  import opened Domain

  type Lists = map<Priority, seq<Id>>

  const ORDER: seq<Priority> := [HIGH, NORMAL, LOW]

  // A key that was never pushed to reads as an empty list.
  function ListOf(lists: Lists, p: Priority): seq<Id> {
    if p in lists then lists[p] else []
  }

  function Pushed(lists: Lists, item: QueueItem): Lists {
    lists[item.priority := [item.id] + ListOf(lists, item.priority)]
  }

  // The list BRPOP serves: the first non-empty one in drain order.
  function Served(lists: Lists): Option<Priority> {
    if ListOf(lists, HIGH) != [] then Some(HIGH)
    else if ListOf(lists, NORMAL) != [] then Some(NORMAL)
    else if ListOf(lists, LOW) != [] then Some(LOW)
    else None
  }

  function Front(lists: Lists): Option<QueueItem> {
    match Served(lists)
    case None => None
    case Some(p) => Some(QueueItem(ListOf(lists, p)[|ListOf(lists, p)| - 1], p))
  }

  function Popped(lists: Lists): Lists {
    match Served(lists)
    case None => lists
    case Some(p) => lists[p := ListOf(lists, p)[..|ListOf(lists, p)| - 1]]
  }

  // LREM with count zero: every occurrence goes.
  function Dropped(ids: seq<Id>, id: Id): seq<Id> {
    if ids == [] then []
    else (if ids[0] == id then [] else [ids[0]]) + Dropped(ids[1..], id)
  }

  function Purged(lists: Lists, id: Id): Lists {
    lists[HIGH := Dropped(ListOf(lists, HIGH), id)]
         [NORMAL := Dropped(ListOf(lists, NORMAL), id)]
         [LOW := Dropped(ListOf(lists, LOW), id)]
  }

  class Queue {
    var lists: Lists

    constructor ()
      ensures lists == map[]
    {
      lists := map[];
    }

    method Enqueue(item: QueueItem)
      modifies this
      ensures lists == Pushed(old(lists), item)
    {
      lists := lists[item.priority := [item.id] + ListOf(lists, item.priority)];
    }

    method Dequeue() returns (r: Option<QueueItem>)
      modifies this
      ensures r == Front(old(lists)) && lists == Popped(old(lists))
    {
      for i := 0 to |ORDER|
        invariant lists == old(lists)
        invariant forall j :: 0 <= j < i ==> ListOf(lists, ORDER[j]) == []
      {
        assert ORDER[0] == HIGH && ORDER[1] == NORMAL && ORDER[2] == LOW;
        var ids := ListOf(lists, ORDER[i]);
        if ids != [] {
          lists := lists[ORDER[i] := ids[..|ids| - 1]];
          return Some(QueueItem(ids[|ids| - 1], ORDER[i]));
        }
      }
      assert ORDER[0] == HIGH && ORDER[1] == NORMAL && ORDER[2] == LOW;
      return None;
    }

    method Remove(id: Id)
      modifies this
      ensures lists == Purged(old(lists), id)
    {
      for i := 0 to |ORDER|
        invariant i <= 3
        invariant i == 0 ==> lists == old(lists)
        invariant i == 1 ==> lists == old(lists)[HIGH := Dropped(ListOf(old(lists), HIGH), id)]
        invariant i == 2 ==> lists == old(lists)[HIGH := Dropped(ListOf(old(lists), HIGH), id)]
                                                [NORMAL := Dropped(ListOf(old(lists), NORMAL), id)]
        invariant i == 3 ==> lists == Purged(old(lists), id)
      {
        lists := lists[ORDER[i] := Dropped(ListOf(lists, ORDER[i]), id)];
      }
    }

    method Depth(p: Priority) returns (n: nat)
      ensures n == |ListOf(lists, p)|
    {
      n := |ListOf(lists, p)|;
    }
  }

  // ---- the reference: one sequence of waiting items, oldest first ----

  function Rank(p: Priority): nat {
    if p == HIGH then 0 else if p == NORMAL then 1 else if p == LOW then 2 else 3
  }

  // k is the item a stable priority queue serves next: nothing waiting ranks
  // higher, and nothing of its rank has waited longer.
  ghost predicate IsNext(waiting: seq<QueueItem>, k: nat) {
    && k < |waiting|
    && Rank(waiting[k].priority) < 3
    && (forall i :: 0 <= i < |waiting| ==> Rank(waiting[k].priority) <= Rank(waiting[i].priority))
    && (forall i :: 0 <= i < k ==> Rank(waiting[k].priority) < Rank(waiting[i].priority))
  }

  function Without(waiting: seq<QueueItem>, k: nat): seq<QueueItem>
    requires k < |waiting|
  {
    waiting[..k] + waiting[k + 1..]
  }

  // Cancelling drops an id wherever it can be served from.
  function Cancelled(waiting: seq<QueueItem>, id: Id): seq<QueueItem> {
    if waiting == [] then []
    else
      var last := waiting[|waiting| - 1];
      Cancelled(waiting[..|waiting| - 1], id) + if last.id == id && ValidPriority(last.priority) then [] else [last]
  }

  // The waiting ids of priority p, newest first.
  function Newest(waiting: seq<QueueItem>, p: Priority): seq<Id> {
    if waiting == [] then []
    else
      var last := waiting[|waiting| - 1];
      (if last.priority == p then [last.id] else []) + Newest(waiting[..|waiting| - 1], p)
  }

  ghost predicate Represents(lists: Lists, waiting: seq<QueueItem>) {
    forall p :: ListOf(lists, p) == Newest(waiting, p)
  }

  lemma {:induction false} NewestConcat(a: seq<QueueItem>, b: seq<QueueItem>, p: Priority)
    ensures Newest(a + b, p) == Newest(b, p) + Newest(a, p)
    decreases |b|
  {
    if b == [] {
      assert a + b == a;
    } else {
      var front, last := b[..|b| - 1], b[|b| - 1];
      assert a + b == (a + front) + [last] && b == front + [last];
      NewestConcat(a, front, p);
      NewestSnoc(a + front, last, p);
      NewestSnoc(front, last, p);
    }
  }

  lemma NewestSnoc(waiting: seq<QueueItem>, last: QueueItem, p: Priority)
    ensures Newest(waiting + [last], p) == (if last.priority == p then [last.id] else []) + Newest(waiting, p)
  {
    assert (waiting + [last])[..|waiting|] == waiting;
  }

  lemma NewestEmpty(waiting: seq<QueueItem>, p: Priority)
    ensures Newest(waiting, p) == [] <==> forall i :: 0 <= i < |waiting| ==> waiting[i].priority != p
  {
  }

  lemma NewestOne(item: QueueItem, p: Priority)
    ensures Newest([item], p) == if item.priority == p then [item.id] else []
  {
    assert [item][..0] == [];
  }

  lemma {:induction false} FirstOf(waiting: seq<QueueItem>, p: Priority) returns (k: nat)
    requires Newest(waiting, p) != []
    ensures k < |waiting| && waiting[k].priority == p
    ensures forall i :: 0 <= i < k ==> waiting[i].priority != p
  {
    var front := waiting[..|waiting| - 1];
    if Newest(front, p) != [] {
      k := FirstOf(front, p);
    } else {
      NewestEmpty(front, p);
      k := |waiting| - 1;
      assert forall i :: 0 <= i < k ==> front[i] == waiting[i];
    }
  }

  lemma SplitAt(waiting: seq<QueueItem>, k: nat, p: Priority)
    requires k < |waiting|
    ensures var a, b := waiting[..k], waiting[k + 1..];
      && Newest(waiting, p) == Newest(b, p) + Newest([waiting[k]], p) + Newest(a, p)
      && Newest(Without(waiting, k), p) == Newest(b, p) + Newest(a, p)
  {
    var a, b := waiting[..k], waiting[k + 1..];
    assert waiting == (a + [waiting[k]]) + b;
    NewestConcat(a + [waiting[k]], b, p);
    NewestConcat(a, [waiting[k]], p);
    NewestConcat(a, b, p);
  }

  // The oldest item of a priority is the last of its list.
  lemma OldestIsLast(waiting: seq<QueueItem>, p: Priority) returns (k: nat)
    requires Newest(waiting, p) != []
    ensures k < |waiting| && waiting[k].priority == p
    ensures forall i :: 0 <= i < k ==> waiting[i].priority != p
    ensures waiting[k].id == Newest(waiting, p)[|Newest(waiting, p)| - 1]
    ensures Newest(Without(waiting, k), p) == Newest(waiting, p)[..|Newest(waiting, p)| - 1]
    ensures forall p' :: p' != p ==> Newest(Without(waiting, k), p') == Newest(waiting, p')
  {
    hide Newest;
    k := FirstOf(waiting, p);
    NewestEmpty(waiting[..k], p);
    forall p' ensures p' != p ==> Newest(Without(waiting, k), p') == Newest(waiting, p') {
      SplitAt(waiting, k, p');
      NewestOne(waiting[k], p');
    }
    SplitAt(waiting, k, p);
    NewestOne(waiting[k], p);
  }

  lemma EmptyLists()
    ensures Represents(map[], [])
  {
  }

  // Pushing appends to the waiting items.
  lemma PushRefines(lists: Lists, waiting: seq<QueueItem>, item: QueueItem)
    requires Represents(lists, waiting)
    ensures Represents(Pushed(lists, item), waiting + [item])
  {
    assert (waiting + [item])[..|waiting|] == waiting;
  }

  // Popping serves the item a stable priority queue would serve, and nothing
  // exactly when no item has a priority that is served at all.
  lemma PopRefines(lists: Lists, waiting: seq<QueueItem>) returns (k: nat)
    requires Represents(lists, waiting)
    ensures Front(lists).None? <==> forall i :: 0 <= i < |waiting| ==> !ValidPriority(waiting[i].priority)
    ensures Front(lists).Some? ==>
              IsNext(waiting, k) && Front(lists).value == waiting[k] && Represents(Popped(lists), Without(waiting, k))
    ensures Front(lists).None? ==> Popped(lists) == lists
  {
    hide Newest;
    k := 0;
    NewestEmpty(waiting, HIGH);
    NewestEmpty(waiting, NORMAL);
    NewestEmpty(waiting, LOW);
    assert ListOf(lists, HIGH) == Newest(waiting, HIGH);
    assert ListOf(lists, NORMAL) == Newest(waiting, NORMAL);
    assert ListOf(lists, LOW) == Newest(waiting, LOW);
    if Served(lists).Some? {
      k := OldestIsLast(waiting, Served(lists).value);
    }
  }

  lemma DroppedConcat(a: seq<Id>, b: seq<Id>, id: Id)
    ensures Dropped(a + b, id) == Dropped(a, id) + Dropped(b, id)
  {
    if a == [] {
      assert a + b == b;
    } else {
      assert (a + b)[1..] == a[1..] + b;
    }
  }

  lemma {:induction false} CancelledLists(waiting: seq<QueueItem>, id: Id, p: Priority)
    ensures Newest(Cancelled(waiting, id), p) ==
            if ValidPriority(p) then Dropped(Newest(waiting, p), id) else Newest(waiting, p)
  {
    if waiting != [] {
      var front, last := waiting[..|waiting| - 1], waiting[|waiting| - 1];
      var kept := if last.id == id && ValidPriority(last.priority) then [] else [last];
      CancelledLists(front, id, p);
      NewestConcat(Cancelled(front, id), kept, p);
      NewestOne(last, p);
      DroppedConcat(if last.priority == p then [last.id] else [], Newest(front, p), id);
    }
  }

  // Removing an id is a filter on the waiting items: the others keep their order.
  lemma RemoveRefines(lists: Lists, waiting: seq<QueueItem>, id: Id)
    requires Represents(lists, waiting)
    ensures Represents(Purged(lists, id), Cancelled(waiting, id))
  {
    hide Newest, Dropped;
    forall p ensures ListOf(Purged(lists, id), p) == Newest(Cancelled(waiting, id), p) {
      assert ListOf(lists, p) == Newest(waiting, p);
      CancelledLists(waiting, id, p);
    }
  }

  // ---- whole runs ----

  datatype Op = Enqueue(item: QueueItem) | Dequeue | Remove(id: Id)

  function RunLists(ops: seq<Op>): (Lists, seq<Option<QueueItem>>) {
    if ops == [] then (map[], [])
    else
      var (lists, served) := RunLists(ops[..|ops| - 1]);
      match ops[|ops| - 1]
      case Enqueue(item) => (Pushed(lists, item), served)
      case Dequeue => (Popped(lists), served + [Front(lists)])
      case Remove(id) => (Purged(lists, id), served)
  }

  function AllButLast<T>(s: seq<T>): seq<T>
    requires s != []
  {
    s[..|s| - 1]
  }

  // Serving answers r and leaves waiting'.
  ghost predicate Serves(waiting: seq<QueueItem>, waiting': seq<QueueItem>, r: Option<QueueItem>) {
    match r
    case None => waiting' == waiting && forall i :: 0 <= i < |waiting| ==> !ValidPriority(waiting[i].priority)
    case Some(item) => exists k: nat :: IsNext(waiting, k) && waiting[k] == item && waiting' == Without(waiting, k)
  }

  ghost predicate CanRun(ops: seq<Op>, waiting: seq<QueueItem>, served: seq<Option<QueueItem>>)
    decreases |ops|
  {
    if ops == [] then waiting == [] && served == []
    else
      var before := ops[..|ops| - 1];
      match ops[|ops| - 1]
      case Enqueue(item) =>
        waiting != [] && waiting[|waiting| - 1] == item && CanRun(before, waiting[..|waiting| - 1], served)
      case Remove(id) => exists w :: CanRun(before, w, served) && waiting == Cancelled(w, id)
      case Dequeue =>
        && served != []
        && exists w :: CanRun(before, w, AllButLast(served)) && Serves(w, waiting, served[|served| - 1])
  }

  lemma {:induction false} CanServe(ops: seq<Op>, before: seq<QueueItem>, after: seq<QueueItem>,
      served: seq<Option<QueueItem>>,
                 r: Option<QueueItem>)
    requires ops != [] && ops[|ops| - 1] == Dequeue
    requires CanRun(ops[..|ops| - 1], before, served) && Serves(before, after, r)
    ensures CanRun(ops, after, served + [r])
  {
    hide Serves;
    assert AllButLast(served + [r]) == served;
  }

  // Over any run the three lists answer as one stable priority queue does.
  lemma {:induction false} ListsRefineStableQueue(ops: seq<Op>) returns (waiting: seq<QueueItem>)
    ensures CanRun(ops, waiting, RunLists(ops).1) && Represents(RunLists(ops).0, waiting)
  {
    hide Newest, Pushed, Popped, Purged, Front, Cancelled, Represents;
    if ops == [] {
      waiting := [];
      EmptyLists();
    } else {
      var before := ListsRefineStableQueue(ops[..|ops| - 1]);
      var (lists, served) := RunLists(ops[..|ops| - 1]);
      match ops[|ops| - 1] {
        case Enqueue(item) =>
          waiting := before + [item];
          assert waiting[..|waiting| - 1] == before;
          PushRefines(lists, before, item);
        case Remove(id) =>
          waiting := Cancelled(before, id);
          RemoveRefines(lists, before, id);
        case Dequeue =>
          var k := PopRefines(lists, before);
          waiting := if Front(lists).None? then before else Without(before, k);
          CanServe(ops, before, waiting, served, Front(lists));
      }
    }
  }

  // The reference has one outcome per run, so the refinement above fixes every answer.
  lemma {:induction false} ReferenceIsDeterministic(
      ops: seq<Op>, w: seq<QueueItem>, s: seq<Option<QueueItem>>, w': seq<QueueItem>, s': seq<Option<QueueItem>>)
    requires CanRun(ops, w, s) && CanRun(ops, w', s')
    ensures w == w' && s == s'
  {
    hide Cancelled, Serves;
    if ops != [] {
      var before := ops[..|ops| - 1];
      match ops[|ops| - 1] {
        case Enqueue(item) =>
          ReferenceIsDeterministic(before, w[..|w| - 1], s, w'[..|w'| - 1], s');
          assert w == w[..|w| - 1] + [item] && w' == w'[..|w'| - 1] + [item];
        case Remove(id) =>
          var v :| CanRun(before, v, s) && w == Cancelled(v, id);
          var v' :| CanRun(before, v', s') && w' == Cancelled(v', id);
          ReferenceIsDeterministic(before, v, s, v', s');
        case Dequeue =>
          var v :| CanRun(before, v, s[..|s| - 1]) && Serves(v, w, s[|s| - 1]);
          var v' :| CanRun(before, v', s'[..|s'| - 1]) && Serves(v', w', s'[|s'| - 1]);
          ReferenceIsDeterministic(before, v, s[..|s| - 1], v', s'[..|s'| - 1]);
          SameService(v, w, w', s[|s| - 1], s'[|s'| - 1]);
          assert s == s[..|s| - 1] + [s[|s| - 1]] && s' == s'[..|s'| - 1] + [s'[|s'| - 1]];
      }
    }
  }

  lemma SameService(v: seq<QueueItem>, w: seq<QueueItem>, w': seq<QueueItem>, r: Option<QueueItem>,
      r': Option<QueueItem>)
    requires Serves(v, w, r) && Serves(v, w', r')
    ensures r == r' && w == w'
  {
    if r.Some? && r'.Some? {
      var k: nat :| IsNext(v, k) && v[k] == r.value && w == Without(v, k);
      var k': nat :| IsNext(v, k') && v[k'] == r'.value && w' == Without(v, k');
      assert k == k';
    }
  }

  // Depth, the length of a list that represents the waiting items, counts those of
  // its priority.
  lemma {:induction false} DepthCounts(waiting: seq<QueueItem>, p: Priority)
    ensures |Newest(waiting, p)| == |set i | 0 <= i < |waiting| && waiting[i].priority == p|
    decreases |waiting|
  {
    if waiting == [] {
    } else {
      var front, n := waiting[..|waiting| - 1], |waiting| - 1;
      DepthCounts(front, p);
      var earlier := set i | 0 <= i < |front| && front[i].priority == p;
      var all := set i | 0 <= i < |waiting| && waiting[i].priority == p;
      if waiting[n].priority == p {
        assert all == earlier + {n};
      } else {
        assert all == earlier;
      }
    }
  }
}
