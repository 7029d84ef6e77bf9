// The tokens a queue and a delayed set hold, as multisets of items, and what
// their operations do to them.

module Tokens {
  import opened Domain
  import opened DelayedSet
  import PQ = PriorityQueue

  // ---- in the three lists ----

  function AsItems(ids: seq<Id>, p: Priority): (items: seq<QueueItem>)
    ensures |items| == |ids| && forall i :: 0 <= i < |ids| ==> items[i] == QueueItem(ids[i], p)
  {
    seq(|ids|, i requires 0 <= i < |ids| => QueueItem(ids[i], p))
  }

  function InList(lists: PQ.Lists, p: Priority): multiset<QueueItem> {
    multiset(AsItems(PQ.ListOf(lists, p), p))
  }

  // Lists of other priorities are never served, so nothing in them counts.
  function InQueue(lists: PQ.Lists): multiset<QueueItem> {
    InList(lists, HIGH) + InList(lists, NORMAL) + InList(lists, LOW)
  }

  lemma MultisetCons<T>(x: T, s: seq<T>)
    ensures multiset([x] + s) == multiset{x} + multiset(s)
  {
  }

  lemma MultisetSnoc<T>(s: seq<T>, x: T)
    ensures multiset(s + [x]) == multiset(s) + multiset{x}
  {
  }

  lemma AsItemsCons(id: Id, ids: seq<Id>, p: Priority)
    ensures multiset(AsItems([id] + ids, p)) == multiset{QueueItem(id, p)} + multiset(AsItems(ids, p))
  {
    assert AsItems([id] + ids, p) == [QueueItem(id, p)] + AsItems(ids, p);
    MultisetCons(QueueItem(id, p), AsItems(ids, p));
  }

  lemma AsItemsSnoc(ids: seq<Id>, id: Id, p: Priority)
    ensures multiset(AsItems(ids + [id], p)) == multiset(AsItems(ids, p)) + multiset{QueueItem(id, p)}
  {
    assert AsItems(ids + [id], p) == AsItems(ids, p) + [QueueItem(id, p)];
    MultisetSnoc(AsItems(ids, p), QueueItem(id, p));
  }

  lemma PushList(lists: PQ.Lists, item: QueueItem, p: Priority)
    ensures InList(PQ.Pushed(lists, item), p) ==
            if p == item.priority then multiset{item} + InList(lists, p) else InList(lists, p)
  {
    hide AsItems;
    AsItemsCons(item.id, PQ.ListOf(lists, p), p);
  }

  lemma PushTokens(lists: PQ.Lists, item: QueueItem)
    requires ValidPriority(item.priority)
    ensures InQueue(PQ.Pushed(lists, item)) == InQueue(lists) + multiset{item}
  {
    hide InList, PQ.Pushed;
    PushList(lists, item, HIGH);
    PushList(lists, item, NORMAL);
    PushList(lists, item, LOW);
  }

  lemma PopList(lists: PQ.Lists, p: Priority)
    requires PQ.ListOf(lists, p) != []
    ensures var ids := PQ.ListOf(lists, p); var lists' := lists[p := ids[..|ids| - 1]];
      && InList(lists, p) == InList(lists', p) + multiset{QueueItem(ids[|ids| - 1], p)}
      && forall p' :: p' != p ==> InList(lists', p') == InList(lists, p')
  {
    hide AsItems;
    var ids := PQ.ListOf(lists, p);
    assert ids == ids[..|ids| - 1] + [ids[|ids| - 1]];
    AsItemsSnoc(ids[..|ids| - 1], ids[|ids| - 1], p);
  }

  lemma PopTokens(lists: PQ.Lists)
    ensures match PQ.Front(lists)
      case None => InQueue(lists) == multiset{}
      case Some(item) =>
        ValidPriority(item.priority) && InQueue(lists) == InQueue(PQ.Popped(lists)) + multiset{item}
  {
    match PQ.Served(lists) {
      case None =>
      case Some(p) =>
        hide InList;
        PopList(lists, p);
    }
  }

  lemma {:induction false} DropTokens(ids: seq<Id>, id: Id, p: Priority, x: QueueItem)
    ensures multiset(AsItems(PQ.Dropped(ids, id), p))[x] ==
            if x == QueueItem(id, p) then 0 else multiset(AsItems(ids, p))[x]
  {
    hide AsItems;
    if ids == [] {
      assert |AsItems(ids, p)| == 0;
    } else {
      DropTokens(ids[1..], id, p, x);
      var rest := PQ.Dropped(ids[1..], id);
      assert ids == [ids[0]] + ids[1..];
      AsItemsCons(ids[0], ids[1..], p);
      AsItemsCons(ids[0], rest, p);
      if ids[0] == id {
        assert PQ.Dropped(ids, id) == rest;
      }
    }
  }

  lemma ListHasOnePriority(lists: PQ.Lists, p: Priority, x: QueueItem)
    requires x in InList(lists, p)
    ensures x.priority == p
  {
    var i :| 0 <= i < |PQ.ListOf(lists, p)| && AsItems(PQ.ListOf(lists, p), p)[i] == x;
  }

  lemma PurgeTokens(lists: PQ.Lists, id: Id, x: QueueItem)
    ensures InQueue(PQ.Purged(lists, id))[x] == if x.id == id then 0 else InQueue(lists)[x]
  {
    hide PQ.Dropped;
    var after := PQ.Purged(lists, id);
    DropTokens(PQ.ListOf(lists, HIGH), id, HIGH, x);
    DropTokens(PQ.ListOf(lists, NORMAL), id, NORMAL, x);
    DropTokens(PQ.ListOf(lists, LOW), id, LOW, x);
    forall p | x in InList(lists, p) ensures x.priority == p {
      ListHasOnePriority(lists, p, x);
    }
    forall p | x in InList(after, p) ensures x.priority == p {
      ListHasOnePriority(after, p, x);
    }
  }

  lemma {:induction false} PushAllTokens(lists: PQ.Lists, items: seq<QueueItem>)
    requires forall i :: 0 <= i < |items| ==> ValidPriority(items[i].priority)
    ensures InQueue(PushedAll(lists, items)) == InQueue(lists) + multiset(items)
  {
    hide InQueue, PQ.Pushed;
    if items != [] {
      var front, last := items[..|items| - 1], items[|items| - 1];
      PushAllTokens(lists, front);
      PushTokens(PushedAll(lists, front), last);
      assert items == front + [last];
      MultisetSnoc(front, last);
    }
  }

  // ---- in a delayed set ----

  function InSet(es: seq<Entry>): multiset<QueueItem> {
    multiset(Items(es))
  }

  lemma InSetCons(e: Entry, es: seq<Entry>)
    ensures InSet([e] + es) == multiset{Decode(e.member)} + InSet(es)
  {
    assert Items([e] + es) == [Decode(e.member)] + Items(es);
    MultisetCons(Decode(e.member), Items(es));
  }

  lemma InSetSplit(es: seq<Entry>, n: nat)
    requires n <= |es|
    ensures InSet(es) == InSet(es[..n]) + InSet(es[n..])
  {
    assert Items(es) == Items(es[..n]) + Items(es[n..]);
  }

  lemma InSetMember(es: seq<Entry>, e: Entry)
    requires e in es
    ensures Decode(e.member) in InSet(es)
  {
    var i :| 0 <= i < |es| && es[i] == e;
    assert Items(es)[i] == Decode(e.member);
  }

  lemma {:induction false} PlacedTokens(es: seq<Entry>, e: Entry)
    ensures InSet(Placed(es, e)) == InSet(es) + multiset{Decode(e.member)}
  {
    hide Precedes, Decode;
    if es == [] || Precedes(e, es[0]) {
      InSetCons(e, es);
    } else {
      PlacedTokens(es[1..], e);
      InSetCons(es[0], es[1..]);
      InSetCons(es[0], Placed(es[1..], e));
      assert es == [es[0]] + es[1..];
    }
  }

  lemma {:induction false} UnsetAbsent(es: seq<Entry>, member: string)
    requires forall e :: e in es ==> e.member != member
    ensures Unset(es, member) == es
  {
    if es != [] {
      UnsetAbsent(es[1..], member);
      assert es == [es[0]] + es[1..];
    }
  }

  // Adding an item that is not in the set adds one token.
  lemma AddTokens(es: seq<Entry>, item: QueueItem, at: int)
    requires ValidPriority(item.priority) && item !in InSet(es)
    ensures InSet(Added(es, item, at)) == InSet(es) + multiset{item}
  {
    hide InSet, Placed;
    ValidPrioritySurvives(item);
    forall e | e in es ensures e.member != Encode(item) {
      InSetMember(es, e);
    }
    UnsetAbsent(es, Encode(item));
    PlacedTokens(es, Entry(Unix(at), Encode(item)));
  }

  lemma {:induction false} KeptTokens(es: seq<Entry>, id: Id, x: QueueItem)
    ensures InSet(Kept(es, id))[x] == if x.id == id then 0 else InSet(es)[x]
  {
    hide Decode, InSet;
    if es == [] {
      InSetEmpty();
    } else {
      KeptTokens(es[1..], id, x);
      InSetCons(es[0], es[1..]);
      InSetCons(es[0], Kept(es[1..], id));
      assert es == [es[0]] + es[1..];
      if Decode(es[0].member).id == id {
        assert Kept(es, id) == Kept(es[1..], id);
      }
    }
  }

  lemma InSetEmpty()
    ensures InSet([]) == multiset{}
  {
  }

  // Promotion moves tokens and neither makes nor loses any.
  lemma PromoteConserves(lists: PQ.Lists, es: seq<Entry>, n: nat)
    requires n <= |es| && forall x :: x in InSet(es) ==> ValidPriority(x.priority)
    ensures InQueue(PushedAll(lists, Items(es[..n]))) + InSet(es[n..]) == InQueue(lists) + InSet(es)
  {
    hide InQueue, Decode;
    forall i | 0 <= i < n ensures ValidPriority(Items(es[..n])[i].priority) {
      InSetMember(es, es[i]);
    }
    PushAllTokens(lists, Items(es[..n]));
    InSetSplit(es, n);
  }
}
