// The delayed sets: a Redis sorted set of encoded queue items keyed by due time
// in whole seconds (internal/adapter/queue/redis/zset.go), used by retry.go and
// scheduled.go.

module DelayedSet {
  import opened Domain
  import PQ = PriorityQueue

  const SECOND: int := 1_000_000_000

  // Times are nanoseconds; time.Time.Unix rounds down to whole seconds.
  function Unix(t: int): int {
    t / SECOND
  }

  // ---- encoding of members ----

  function Encode(item: QueueItem): string {
    item.priority + "|" + item.id
  }

  // The position of the first bar, or the length if there is none.
  function BarAt(m: string): (i: nat)
    ensures i <= |m|
    ensures forall j :: 0 <= j < i ==> m[j] != '|'
    ensures i < |m| ==> m[i] == '|'
  {
    if m == "" || m[0] == '|' then 0 else 1 + BarAt(m[1..])
  }

  function Decode(m: string): QueueItem {
    var i := BarAt(m);
    if i == |m| then QueueItem(m, NORMAL) else QueueItem(m[i + 1..], m[..i])
  }

  // Decoding recovers an item exactly when its priority has no bar.
  lemma DecodeEncode(item: QueueItem)
    ensures Decode(Encode(item)) == item <==> '|' !in item.priority
  {
    var m := Encode(item);
    assert m[|item.priority|] == '|';
    if '|' in item.priority {
      var k :| 0 <= k < |item.priority| && item.priority[k] == '|';
      assert m[k] == '|';
    } else {
      assert forall j :: 0 <= j < |item.priority| ==> m[j] == item.priority[j];
      assert BarAt(m) == |item.priority|;
      assert m[..|item.priority|] == item.priority;
      assert m[|item.priority| + 1..] == item.id;
    }
  }

  // Encoding recovers a member exactly when it has a bar.
  lemma EncodeDecode(m: string)
    ensures Encode(Decode(m)) == m <==> '|' in m
  {
    var i := BarAt(m);
    if i < |m| {
      assert m == m[..i] + [m[i]] + m[i + 1..];
    } else {
      assert |Encode(Decode(m))| > |m|;
    }
  }

  // A member without a bar is an id of normal priority.
  lemma NoBarIsNormal(m: string)
    requires '|' !in m
    ensures Decode(m) == QueueItem(m, "normal")
  {
    assert forall i :: 0 <= i < |m| ==> m[i] in m;
  }

  // Every valid priority survives any number of trips through a delayed set.
  lemma ValidPrioritySurvives(item: QueueItem)
    requires ValidPriority(item.priority)
    ensures Decode(Encode(item)) == item
  {
    DecodeEncode(item);
  }

  // ---- the sorted set ----

  datatype Entry = Entry(score: int, member: string)

  // Members of equal score are ordered lexicographically.
  predicate Less(a: string, b: string) {
    b != "" && (a == "" || a[0] < b[0] || (a[0] == b[0] && Less(a[1..], b[1..])))
  }

  predicate Precedes(a: Entry, b: Entry) {
    a.score < b.score || (a.score == b.score && Less(a.member, b.member))
  }

  lemma LessTotal(a: string, b: string)
    ensures Less(a, b) || a == b || Less(b, a)
  {
    if a != "" && b != "" && a[0] == b[0] {
      LessTotal(a[1..], b[1..]);
      assert a == [a[0]] + a[1..] && b == [b[0]] + b[1..];
    }
  }

  lemma {:induction false} LessTransitive(a: string, b: string, c: string)
    requires Less(a, b) && Less(b, c)
    ensures Less(a, c)
  {
    if a != "" && a[0] == b[0] && b[0] == c[0] {
      LessTransitive(a[1..], b[1..], c[1..]);
    }
  }

  // Strictly increasing in (score, member), with each member once.
  ghost predicate Ranked(es: seq<Entry>) {
    && (forall i, j :: 0 <= i < j < |es| ==> Precedes(es[i], es[j]))
    && (forall i, j :: 0 <= i < j < |es| ==> es[i].member != es[j].member)
  }

  function Unset(es: seq<Entry>, member: string): seq<Entry> {
    if es == [] then []
    else if es[0].member == member then es[1..]
    else [es[0]] + Unset(es[1..], member)
  }

  function Placed(es: seq<Entry>, e: Entry): seq<Entry> {
    if es == [] || Precedes(e, es[0]) then [e] + es else [es[0]] + Placed(es[1..], e)
  }

  // ZADD: a member that is present gets the new score.
  function Added(es: seq<Entry>, item: QueueItem, at: int): seq<Entry> {
    Placed(Unset(es, Encode(item)), Entry(Unix(at), Encode(item)))
  }

  function DueCount(es: seq<Entry>, now: int): (n: nat)
    ensures n <= |es|
  {
    if es == [] || es[0].score > Unix(now) then 0 else 1 + DueCount(es[1..], now)
  }

  function Items(es: seq<Entry>): (items: seq<QueueItem>)
    ensures |items| == |es|
    ensures forall i :: 0 <= i < |es| ==> items[i] == Decode(es[i].member)
  {
    seq(|es|, i requires 0 <= i < |es| => Decode(es[i].member))
  }

  function Kept(es: seq<Entry>, id: Id): seq<Entry> {
    if es == [] then []
    else (if Decode(es[0].member).id == id then [] else [es[0]]) + Kept(es[1..], id)
  }

  // Pushed one by one, in order.
  function PushedAll(lists: PQ.Lists, items: seq<QueueItem>): PQ.Lists {
    if items == [] then lists
    else PQ.Pushed(PushedAll(lists, items[..|items| - 1]), items[|items| - 1])
  }

  // A ranked set is its first entry, before a ranked rest that does not name it.
  ghost predicate Heads(e: Entry, es: seq<Entry>) {
    forall x :: x in es ==> Precedes(e, x) && x.member != e.member
  }

  lemma RankedCons(e: Entry, es: seq<Entry>)
    ensures Ranked([e] + es) <==> Heads(e, es) && Ranked(es)
  {
    var all := [e] + es;
    if Ranked(all) {
      forall x | x in es ensures Precedes(e, x) && x.member != e.member {
        var i :| 0 <= i < |es| && es[i] == x;
        assert all[0] == e && all[i + 1] == x;
      }
      assert forall i :: 0 <= i < |es| ==> es[i] == all[i + 1];
    }
  }

  lemma {:induction false} UnsetIs(es: seq<Entry>, member: string)
    requires Ranked(es)
    ensures Ranked(Unset(es, member))
    ensures forall e :: e in Unset(es, member) <==> e in es && e.member != member
  {
    hide Ranked, Precedes;
    if es != [] {
      assert es == [es[0]] + es[1..];
      RankedCons(es[0], es[1..]);
      if es[0].member != member {
        UnsetIs(es[1..], member);
        RankedCons(es[0], Unset(es[1..], member));
      }
    }
  }

  lemma {:induction false} PlacedIs(es: seq<Entry>, e: Entry)
    requires Ranked(es) && forall x :: x in es ==> x.member != e.member
    ensures Ranked(Placed(es, e))
    ensures forall x :: x in Placed(es, e) <==> x in es || x == e
  {
    hide Ranked, Less;
    if es == [] {
      RankedCons(e, []);
      EmptyRanked();
    } else {
      assert es == [es[0]] + es[1..];
      RankedCons(es[0], es[1..]);
      if Precedes(e, es[0]) {
        forall x | x in es[1..] ensures Precedes(e, x) {
          PrecedesTransitive(e, es[0], x);
        }
        RankedCons(e, es);
      } else {
        PlacedIs(es[1..], e);
        LessTotal(e.member, es[0].member);
        RankedCons(es[0], Placed(es[1..], e));
      }
    }
  }

  lemma EmptyRanked()
    ensures Ranked([])
  {
  }

  lemma PrecedesTransitive(a: Entry, b: Entry, c: Entry)
    requires Precedes(a, b) && Precedes(b, c)
    ensures Precedes(a, c)
  {
    if a.score == b.score == c.score {
      LessTransitive(a.member, b.member, c.member);
    }
  }

  lemma UnsetFirst(es: seq<Entry>, n: nat)
    requires n < |es| && Ranked(es)
    ensures Unset(es[n..], es[n].member) == es[n + 1..]
  {
  }

  // Adding keeps the set ranked and replaces the item's entry, if any, by the new one.
  lemma AddKeepsRanked(es: seq<Entry>, item: QueueItem, at: int)
    requires Ranked(es)
    ensures Ranked(Added(es, item, at))
    ensures forall e :: e in Added(es, item, at) <==>
              e == Entry(Unix(at), Encode(item)) || (e in es && e.member != Encode(item))
  {
    UnsetIs(es, Encode(item));
    PlacedIs(Unset(es, Encode(item)), Entry(Unix(at), Encode(item)));
  }

  // The due entries are exactly a prefix.
  lemma {:induction false} DueIsPrefix(es: seq<Entry>, now: int)
    requires Ranked(es)
    ensures forall i :: 0 <= i < |es| ==> (i < DueCount(es, now) <==> es[i].score <= Unix(now))
  {
    if es != [] {
      DueIsPrefix(es[1..], now);
      if es[0].score > Unix(now) {
        forall i | 0 < i < |es| ensures es[i].score > Unix(now) {
          assert Precedes(es[0], es[i]);
        }
      }
    }
  }

  lemma {:induction false} KeptConcat(a: seq<Entry>, b: seq<Entry>, id: Id)
    ensures Kept(a + b, id) == Kept(a, id) + Kept(b, id)
  {
    if a == [] {
      assert a + b == b;
    } else {
      assert (a + b)[1..] == a[1..] + b;
      KeptConcat(a[1..], b, id);
    }
  }

  lemma {:induction false} KeptIs(es: seq<Entry>, id: Id)
    requires Ranked(es)
    ensures Ranked(Kept(es, id))
    ensures forall e :: e in Kept(es, id) <==> e in es && Decode(e.member).id != id
  {
    if es != [] {
      assert es == [es[0]] + es[1..];
      KeptIs(es[1..], id);
    }
  }

  lemma {:induction false} UnsetMiddle(a: seq<Entry>, b: seq<Entry>)
    requires b != [] && forall e :: e in a ==> e.member != b[0].member
    ensures Unset(a + b, b[0].member) == a + b[1..]
  {
    if a == [] {
      assert a + b == b;
    } else {
      assert (a + b)[1..] == a[1..] + b;
      UnsetMiddle(a[1..], b);
    }
  }

  class ZSet {
    var entries: seq<Entry>

    ghost predicate Valid()
      reads this
    {
      Ranked(entries)
    }

    constructor ()
      ensures Valid() && entries == []
    {
      entries := [];
    }

    method Add(item: QueueItem, at: int)
      requires Valid()
      modifies this
      ensures Valid() && entries == Added(old(entries), item, at)
    {
      AddKeepsRanked(entries, item, at);
      entries := Added(entries, item, at);
    }

    method Rem(member: string) returns (removed: nat)
      requires Valid()
      modifies this
      ensures Valid() && entries == Unset(old(entries), member)
      ensures removed == |old(entries)| - |entries|
    {
      UnsetIs(entries, member);
      var before := |entries|;
      entries := Unset(entries, member);
      SizeAfterUnset(old(entries), member);
      removed := before - |entries|;
    }

    // Moves every due member to dst, removing each from the set first.
    method DuePromote(now: int, dst: PQ.Queue) returns (count: nat)
      requires Valid()
      modifies this, dst
      ensures Valid()
      ensures count == DueCount(old(entries), now)
      ensures entries == old(entries)[count..]
      ensures dst.lists == PushedAll(old(dst.lists), Items(old(entries)[..count]))
    {
      var due := DueCount(entries, now);
      var members := Members(entries[..due]);
      count := 0;
      for i := 0 to |members|
        invariant Valid() && count == i
        invariant entries == old(entries)[i..]
        invariant dst.lists == PushedAll(old(dst.lists), Items(old(entries)[..i]))
      {
        UnsetFirst(old(entries), i);
        var removed := Rem(members[i]);
        if removed == 0 {
          continue; // taken by a promoter that came first
        }
        dst.Enqueue(Decode(members[i]));
        count := count + 1;
        assert Items(old(entries)[..i + 1])[..i] == Items(old(entries)[..i]);
      }
    }

    // Removes every member that names the id.
    method RemoveByID(id: Id)
      requires Valid()
      modifies this
      ensures Valid() && entries == Kept(old(entries), id)
    {
      hide Ranked, Decode, Unset;
      var members := Members(entries);
      ghost var all := entries;
      assert Kept(all[..0], id) + all[0..] == all;
      for i := 0 to |members|
        invariant Valid()
        invariant entries == Kept(all[..i], id) + all[i..]
      {
        KeptStep(all, i, id);
        if Decode(members[i]).id == id {
          var _ := Rem(members[i]);
        }
      }
      assert all[..|members|] == all;
    }

    method Size() returns (n: nat)
      ensures n == |entries|
    {
      n := |entries|;
    }
  }

  function Members(es: seq<Entry>): (ms: seq<string>)
    ensures |ms| == |es| && forall i :: 0 <= i < |es| ==> ms[i] == es[i].member
  {
    seq(|es|, i requires 0 <= i < |es| => es[i].member)
  }

  lemma SizeAfterUnset(es: seq<Entry>, member: string)
    ensures |es| - 1 <= |Unset(es, member)| <= |es|
    ensures (exists i :: 0 <= i < |es| && es[i].member == member) <==> |Unset(es, member)| == |es| - 1
  {
  }

  lemma EarlierDiffer(all: seq<Entry>, i: nat)
    requires Ranked(all) && i < |all|
    ensures forall e :: e in all[..i] ==> e.member != all[i].member
  {
    hide Precedes;
  }

  lemma KeptOne(e: Entry, id: Id)
    ensures Kept([e], id) == if Decode(e.member).id == id then [] else [e]
  {
    assert Kept([e][1..], id) == [];
  }

  // One step of the removal loop.
  lemma KeptStep(all: seq<Entry>, i: nat, id: Id)
    requires Ranked(all) && i < |all|
    ensures var now := Kept(all[..i], id) + all[i..];
      Kept(all[..i + 1], id) + all[i + 1..] == if Decode(all[i].member).id == id then Unset(now, all[i].member) else now
  {
    hide Ranked, Decode, Kept, Unset;
    KeptConcat(all[..i], [all[i]], id);
    KeptOne(all[i], id);
    assert all[..i + 1] == all[..i] + [all[i]];
    assert all[i..] == [all[i]] + all[i + 1..];
    if Decode(all[i].member).id == id {
      KeptMembers(all[..i], id);
      EarlierDiffer(all, i);
      UnsetMiddle(Kept(all[..i], id), all[i..]);
    }
  }

  lemma {:induction false} KeptMembers(es: seq<Entry>, id: Id)
    ensures forall e :: e in Kept(es, id) ==> e in es
  {
    if es != [] {
      KeptMembers(es[1..], id);
    }
  }

  // ---- due times ----

  // An item added for `at` is promoted at `now` exactly when its whole second has
  // come: always if it is due, and never a second or more too early.
  lemma PromotedWhenDue(es: seq<Entry>, item: QueueItem, at: int, now: int)
    requires Ranked(es)
    ensures var es' := Added(es, item, at); var n := DueCount(es', now); var e := Entry(Unix(at), Encode(item));
      && (e in es'[..n] <==> Unix(at) <= Unix(now))
      && (e in es'[n..] <==> Unix(at) > Unix(now))
      && (at <= now ==> e in es'[..n])
      && (e in es'[..n] ==> at < now + SECOND)
  {
    var es', e := Added(es, item, at), Entry(Unix(at), Encode(item));
    AddKeepsRanked(es, item, at);
    DueIsPrefix(es', now);
    hide Ranked, Added, DueCount;
    var n := DueCount(es', now);
    var i :| 0 <= i < |es'| && es'[i] == e;
    assert if i < n then es'[..n][i] == e else es'[n..][i - n] == e;
  }
  // ---- the order of promotion ----

  // Pushing items one by one queues them up in their order.
  lemma {:induction false} PushAllRefines(lists: PQ.Lists, waiting: seq<QueueItem>, items: seq<QueueItem>)
    requires PQ.Represents(lists, waiting)
    ensures PQ.Represents(PushedAll(lists, items), waiting + items)
  {
    hide PQ.Represents, PQ.Pushed;
    if items == [] {
      assert waiting + items == waiting;
    } else {
      var front, last := items[..|items| - 1], items[|items| - 1];
      PushAllRefines(lists, waiting, front);
      PQ.PushRefines(PushedAll(lists, front), waiting + front, last);
      assert waiting + front + [last] == waiting + items;
    }
  }

  // Promotion queues up exactly the due members, by score and then by member, behind
  // what was waiting before, and those that are not due stay behind in the set.
  lemma PromotionRefines(lists: PQ.Lists, waiting: seq<QueueItem>, es: seq<Entry>, now: int)
    requires PQ.Represents(lists, waiting) && Ranked(es)
    ensures var n := DueCount(es, now); var due := Items(es[..n]);
      && PQ.Represents(PushedAll(lists, due), waiting + due)
      && (forall i :: 0 <= i < n ==> due[i] == Decode(es[i].member) && es[i].score <= Unix(now))
      && (forall i, j :: 0 <= i < j < n ==> Precedes(es[i], es[j]))
      && (forall i :: n <= i < |es| ==> es[i].score > Unix(now))
  {
    hide PQ.Represents, PushedAll, Precedes;
    DueIsPrefix(es, now);
    PushAllRefines(lists, waiting, Items(es[..DueCount(es, now)]));
  }

  // At k the two differ for the first time, upwards, or the first one ends.
  predicate RisesAt(a: string, b: string, k: nat) {
    k <= |a| && k < |b| && a[..k] == b[..k] && (k == |a| || a[k] < b[k])
  }

  // The order of members of equal score is the dictionary order of their bytes.
  lemma {:induction false} LessIs(a: string, b: string)
    ensures Less(a, b) <==> exists k: nat :: RisesAt(a, b, k)
  {
    if b != "" && a != "" && a[0] == b[0] {
      LessIs(a[1..], b[1..]);
      if k: nat :| RisesAt(a[1..], b[1..], k) {
        assert a[..k + 1] == [a[0]] + a[1..][..k] && b[..k + 1] == [b[0]] + b[1..][..k];
        assert RisesAt(a, b, k + 1);
      }
      if k: nat :| RisesAt(a, b, k) {
        assert k > 0;
        assert a[1..][..k - 1] == a[..k][1..] == b[..k][1..] == b[1..][..k - 1];
        assert RisesAt(a[1..], b[1..], k - 1);
      }
    } else if b != "" && (a == "" || a[0] < b[0]) {
      assert RisesAt(a, b, 0);
    } else {
      forall k: nat ensures !RisesAt(a, b, k) {
        if 0 < k <= |a| && k < |b| {
          assert a[..k][0] == a[0] && b[..k][0] == b[0];
        }
      }
    }
  }
}
