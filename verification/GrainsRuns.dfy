// Every run of use cases is a run of single store commands in which each thread
// runs without interruption: the coarse grain makes up no behaviour.

module GrainsRuns {
  import opened Domain
  import opened DelayedSet
  import opened Tokens
  import opened UseCases
  import opened Grains
  import opened ProtocolRuns
  import L = Lifecycle
  import G = Guarantees
  import T = Timing
  import O = Observed
  import P = Protocol
  import PQ = PriorityQueue

  // Both grains have the same stores; ids were issued to rows only, keys are set
  // for rows only, and every held item has its worker thread.
  ghost predicate Aligned(cfg: Config, w: World, s: P.State) {
    && L.Inv(cfg, w) && Mirrors(w, s)
    && (forall id :: id in s.issued <==> id in w.rows)
    && (forall k :: k in s.keys ==> k in w.index)
    && (forall item :: item in w.hands ==> HasWorker(s, item))
  }

  ghost predicate HasWorker(s: P.State, item: QueueItem) {
    exists t :: t in s.threads && s.threads[t] == P.Working(item, P.Fetch)
  }

  lemma StillWorked(s: P.State, s': P.State, t: P.ThreadId, item: QueueItem)
    requires HasWorker(s, item) && t in s'.threads && s'.threads == s.threads[t := s'.threads[t]]
    requires t in s.threads ==> s.threads[t] != P.Working(item, P.Fetch)
    ensures HasWorker(s', item)
  {
    var u :| u in s.threads && s.threads[u] == P.Working(item, P.Fetch);
    assert u in s'.threads && s'.threads[u] == s.threads[u];
  }

  // ---- the worker ----

  // A dequeue that answers nothing is no command of any worker.
  ghost predicate TakesAlone(w: World, actions: seq<P.Action>) {
    match PQ.Front(w.lists)
    case None => actions == []
    case Some(item) => exists t :: actions == [P.BeginWork(t, item)]
  }

  lemma TakeAligned(cfg: Config, w: World, s: P.State) returns (actions: seq<P.Action>)
    requires Aligned(cfg, w, s)
    ensures Aligned(cfg, Taken(w), Acts(cfg.maxAttempts, s, actions)) && TakesAlone(w, actions)
  {
    hide L.Inv, Mirrors, PQ.Front, PQ.Popped, P.Next, HasWorker;
    L.TakeKeepsInv(cfg, w);
    if PQ.Front(w.lists).None? {
      actions := [];
      FrontNone(w.lists);
    } else {
      var item := PQ.Front(w.lists).value;
      var t := FreshThread(s.threads);
      var a := P.BeginWork(t, item);
      TakeMirrored(cfg, w, s, t, item);
      actions := [a];
      OneAct(cfg.maxAttempts, s, a);
      var s' := P.Next(cfg.maxAttempts, s, a);
      WorkedBy(s', t, item);
      forall x | x in w.hands ensures HasWorker(s', x) {
        StillWorked(s, s', t, x);
      }
    }
  }

  lemma FrontNone(lists: PQ.Lists)
    requires PQ.Front(lists).None?
    ensures PQ.Popped(lists) == lists
  {
  }

  lemma WorkedBy(s: P.State, t: P.ThreadId, item: QueueItem)
    requires t in s.threads && s.threads[t] == P.Working(item, P.Fetch)
    ensures HasWorker(s, item)
  {
  }

  lemma ProcessedKeeps(cfg: Config, w: World, item: QueueItem, answer: Answer)
    ensures var w' := Processed(cfg, w, item, answer);
      w'.rows.Keys == w.rows.Keys && w'.index == w.index && w'.hands == w.hands - multiset{item}
  {
    hide VerdictOn, RetryAfter, RowAfter, EventsAfter, MetricAfter;
  }

  // Processing is the worker thread that holds the item running to its end.
  lemma ProcessAligned(cfg: Config, w: World, s: P.State, item: QueueItem, answer: Answer)
    returns (t: P.ThreadId, actions: seq<P.Action>)
    requires Aligned(cfg, w, s) && item in w.hands
    ensures Aligned(cfg, Processed(cfg, w, item, answer), Acts(cfg.maxAttempts, s, actions))
    ensures t in s.threads && s.threads[t] == P.Working(item, P.Fetch) && TurnsOf(actions, t)
    ensures Acts(cfg.maxAttempts, s, actions).threads == s.threads[t := P.Stopped]
  {
    hide L.Inv, L.TokensIn, Mirrors, P.Next, Alone, Script, VerdictOn, PutOffAt, Acts, Processed;
    ProcessedKeeps(cfg, w, item, answer);
    assert HasWorker(s, item);
    L.ProcessKeepsInv(cfg, w, item, answer);
    L.HeldItem(cfg, w, item);
    t :| t in s.threads && s.threads[t] == P.Working(item, P.Fetch);
    ProcessMirrored(cfg, w, s, t, item, answer);
    var v := VerdictOn(cfg, w, item, answer);
    actions := AloneActs(cfg.maxAttempts, s, t, Script(v, PutOffAt(cfg, w, v)));
    var s' := Acts(cfg.maxAttempts, s, actions);
    hide HasWorker;
    forall x | x in Processed(cfg, w, item, answer).hands ensures HasWorker(s', x) {
      StillWorked(s, s', t, x);
    }
  }

  // ---- the promoters ----

  // What a promoter lists is what is due.
  lemma DueListed(es: seq<Entry>, m: map<QueueItem, int>, now: int)
    requires Listed(es, m) && Ranked(es)
    ensures var due := Items(es[..DueCount(es, now)]);
      && (forall i :: 0 <= i < |due| ==> due[i] in m && m[due[i]] <= Unix(now))
      && (forall x :: x in m && m[x] <= Unix(now) ==> x in due)
      && Distinct(due)
  {
    hide Decode, Encode, ValidPriority, Precedes;
    DueIsPrefix(es, now);
    var n := DueCount(es, now);
    var due := Items(es[..n]);
    forall i | 0 <= i < n ensures due[i] in m && m[due[i]] <= Unix(now) && Encode(due[i]) == es[i].member {
      assert es[i] in es;
    }
    forall x | x in m && m[x] <= Unix(now) ensures x in due {
      ValidPrioritySurvives(x);
      var i :| 0 <= i < |es| && es[i] == Entry(m[x], Encode(x));
      assert due[i] == x;
    }
  }

  lemma RestHas(es: seq<Entry>, n: nat, m: map<QueueItem, int>, x: QueueItem)
    requires Listed(es, m) && n <= |es| && x in m && x !in Items(es[..n])
    ensures Entry(m[x], Encode(x)) in es[n..]
  {
    hide Decode, Encode;
    ValidPrioritySurvives(x);
    var i :| 0 <= i < |es| && es[i] == Entry(m[x], Encode(x));
    assert Decode(es[i].member) == x;
    assert n <= i;
    assert es[n..][i - n] == es[i];
  }

  lemma RestNamed(es: seq<Entry>, n: nat, m: map<QueueItem, int>, e: Entry)
    requires Listed(es, m) && Ranked(es) && n <= |es| && e in es[n..]
    ensures e in es && Decode(e.member) !in Items(es[..n])
  {
    hide Decode, Encode, Precedes;
    var k :| 0 <= k < |es[n..]| && es[n..][k] == e;
    assert e == es[n + k];
    forall i | 0 <= i < n ensures Items(es[..n])[i] != Decode(e.member) {
      assert es[i] in es && es[i].member != es[n + k].member;
    }
  }

  lemma RestListed(es: seq<Entry>, n: nat, m: map<QueueItem, int>)
    requires Listed(es, m) && Ranked(es) && n <= |es|
    ensures Listed(es[n..], Minus(m, Items(es[..n])))
  {
    hide Decode, Encode, ValidPriority, Ranked, Items;
    forall x | x in m && x !in Items(es[..n]) ensures Entry(m[x], Encode(x)) in es[n..] {
      RestHas(es, n, m, x);
    }
    forall e | e in es[n..] ensures e in es && Decode(e.member) !in Items(es[..n]) {
      RestNamed(es, n, m, e);
    }
  }

  // A promoter thread that lists a set at `now` and then runs without interruption.
  ghost predicate PassRun(actions: seq<P.Action>, t: P.ThreadId, src: P.Delayed, now: int) {
    exists due :: RunOf(actions, P.BeginPromote(t, src, P.Choice(true, "", now, due)))
  }

  // One pass over a delayed set by a promoter thread.
  lemma PassAlone(m: int, s: P.State, src: P.Delayed, es: seq<Entry>, now: int)
    returns (t: P.ThreadId, actions: seq<P.Action>)
    requires Listed(es, P.Members(s, src)) && Ranked(es)
    ensures t !in s.threads && Acts(m, s, actions) == PromotedState(s, t, src, Items(es[..DueCount(es, now)]))
    ensures PassRun(actions, t, src, now)
  {
    hide P.Next, Acts, PromotedState, Listed, Ranked, DueCount, Items;
    var due := Items(es[..DueCount(es, now)]);
    t := FreshThread(s.threads);
    var a := P.BeginPromote(t, src, P.Choice(true, "", now, due));
    DueListed(es, P.Members(s, src), now);
    PromoteBegins(m, s, t, src, now, due);
    OneAct(m, s, a);
    var s1 := P.Next(m, s, a);
    assert P.Members(s1, src) == P.Members(s, src);
    var rest := PromoteAlone(m, s1, t, src, due);
    actions := [a] + rest;
    ActsAppend(m, s, [a], rest);
    SamePromoted(s, t, src, due);
  }

  // The queue gets the same tokens either way.
  lemma SameQueue(cfg: Config, w: World, es: seq<Entry>, n: nat)
    requires L.Inv(cfg, w) && n <= |es| && (es == w.retry || es == w.scheduled)
    ensures InQueue(PushedAll(w.lists, Items(es[..n]))) == InQueue(w.lists) + multiset(Items(es[..n]))
  {
    hide InQueue, InSet, L.Sound, L.ViewOf, Ranked, L.Indexed, Decode, ValidPriority, PushedAll;
    var items := Items(es[..n]);
    forall i | 0 <= i < |items| ensures ValidPriority(items[i].priority) {
      InSetMember(es, es[i]);
      assert items[i] in L.TokensIn(w);
    }
    PushAllTokens(w.lists, items);
  }

  // A step by a thread that holds no item leaves every held item with its worker.
  lemma WorkersStay(hands: multiset<QueueItem>, s: P.State, s': P.State, t: P.ThreadId)
    requires forall x :: x in hands ==> HasWorker(s, x)
    requires t !in s.threads && t in s'.threads && s'.threads == s.threads[t := s'.threads[t]]
    ensures forall x :: x in hands ==> HasWorker(s', x)
  {
    hide HasWorker;
    forall x | x in hands ensures HasWorker(s', x) {
      StillWorked(s, s', t, x);
    }
  }

  lemma PromotedMirrored(cfg: Config, w: World, s: P.State, t: P.ThreadId, src: P.Delayed)
    requires L.Inv(cfg, w) && Mirrors(w, s)
    ensures var es := if src.RetrySet? then w.retry else w.scheduled;
      Mirrors(if src.RetrySet? then RetryPromoted(w) else ScheduledPromoted(w),
              PromotedState(s, t, src, Items(es[..DueCount(es, w.now)])))
  {
    hide L.Inv, Listed, Ranked, DueCount, Items, PushedAll, InQueue, StoryIn, StoryOf, SameRows, Minus;
    var es := if src.RetrySet? then w.retry else w.scheduled;
    var n := DueCount(es, w.now);
    L.InvRanked(cfg, w);
    RestListed(es, n, P.Members(s, src));
    SameQueue(cfg, w, es, n);
    SameStories(w, if src.RetrySet? then RetryPromoted(w) else ScheduledPromoted(w));
  }

  lemma PromotedKeeps(s: P.State, t: P.ThreadId, src: P.Delayed, items: seq<QueueItem>)
    ensures var s' := PromotedState(s, t, src, items);
      s'.issued == s.issued && s'.keys == s.keys && s'.threads == s.threads[t := P.Stopped]
  {
    hide Minus;
  }

  lemma PromoteAligned(cfg: Config, w: World, s: P.State, src: P.Delayed)
    returns (t: P.ThreadId, actions: seq<P.Action>)
    requires Aligned(cfg, w, s)
    ensures var w' := if src.RetrySet? then RetryPromoted(w) else ScheduledPromoted(w);
      Aligned(cfg, w', Acts(cfg.maxAttempts, s, actions))
    ensures PassRun(actions, t, src, w.now)
    ensures Acts(cfg.maxAttempts, s, actions).threads == s.threads[t := P.Stopped]
  {
    hide L.Inv, Mirrors, Acts, Listed, Ranked, DueCount, Items, PushedAll, HasWorker, PromotedState;
    var es := if src.RetrySet? then w.retry else w.scheduled;
    MirroredSets(cfg, w, s);
    if src.RetrySet? {
      L.PromoteRetryKeepsInv(cfg, w);
    } else {
      L.PromoteScheduledKeepsInv(cfg, w);
    }
    t, actions := PassAlone(cfg.maxAttempts, s, src, es, w.now);
    PromotedMirrored(cfg, w, s, t, src);
    PromotedKeeps(s, t, src, Items(es[..DueCount(es, w.now)]));
    WorkersStay(w.hands, s, Acts(cfg.maxAttempts, s, actions), t);
  }

  lemma MirroredSets(cfg: Config, w: World, s: P.State)
    requires L.Inv(cfg, w) && Mirrors(w, s)
    ensures Listed(w.retry, s.retry) && Ranked(w.retry) && Listed(w.scheduled, s.scheduled) && Ranked(w.scheduled)
  {
    hide L.Inv, Listed, Ranked, StoryIn, StoryOf, SameRows;
    L.InvRanked(cfg, w);
  }

  lemma SameStories(w: World, w': World)
    requires w'.sends == w.sends && w'.events == w.events && w'.dead == w.dead && w'.attempts == w.attempts
    ensures forall id :: StoryOf(w', id) == StoryOf(w, id)
  {
  }

  // ---- the canceller ----

  lemma OnlyServed(lists: PQ.Lists, x: QueueItem)
    requires x in InQueue(lists)
    ensures ValidPriority(x.priority)
  {
    hide InList;
    if x in InList(lists, HIGH) {
      ListHasOnePriority(lists, HIGH, x);
    } else if x in InList(lists, NORMAL) {
      ListHasOnePriority(lists, NORMAL, x);
    } else {
      ListHasOnePriority(lists, LOW, x);
    }
  }

  // Purging list by list takes the same tokens out of the queue.
  lemma SamePurged(lists: PQ.Lists, id: Id)
    ensures InQueue(PQ.Purged(lists, id)) == Purged(InQueue(lists), id, [HIGH, NORMAL, LOW])
  {
    hide InQueue, PQ.Purged, Purged;
    forall x ensures InQueue(PQ.Purged(lists, id))[x] == Purged(InQueue(lists), id, [HIGH, NORMAL, LOW])[x] {
      PurgeTokens(lists, id, x);
      PurgedAt(InQueue(lists), id, x);
      if x in InQueue(lists) {
        OnlyServed(lists, x);
      }
    }
  }

  // A notification is scheduled under its row's priority only.
  lemma ScheduledOnce(cfg: Config, w: World, m: map<QueueItem, int>, id: Id) returns (listing: seq<QueueItem>)
    requires L.Inv(cfg, w) && Listed(w.scheduled, m) && id in w.rows
    ensures Names(listing, m, id)
  {
    hide InSet, InQueue, Ranked, L.Sound, L.ViewOf, L.Indexed, Encode, Decode, ValidPriority;
    var x := QueueItem(id, w.rows[id].priority);
    listing := if x in m then [x] else [];
    forall y | y in m && y.id == id ensures y == x {
      T.ListedIsToken(w.scheduled, y, m[y]);
      assert y in L.TokensIn(w);
    }
  }

  lemma KeptListed(es: seq<Entry>, m: map<QueueItem, int>, id: Id, listing: seq<QueueItem>)
    requires Listed(es, m) && Ranked(es) && Names(listing, m, id)
    ensures Listed(Kept(es, id), Minus(m, listing))
  {
    hide Ranked, Kept, Encode, Decode, ValidPriority;
    KeptIs(es, id);
    forall x | x in m && x !in listing ensures x.id != id && Entry(m[x], Encode(x)) in Kept(es, id) {
      ValidPrioritySurvives(x);
    }
    forall e | e in Kept(es, id) ensures Decode(e.member) !in listing {
    }
  }

  // A cancel, refused or not, is one canceller thread running to its end: it
  // returns when the cancel succeeds and stops when it is refused.
  lemma CancelAligned(cfg: Config, w: World, s: P.State, id: Id) returns (t: P.ThreadId, actions: seq<P.Action>)
    requires Aligned(cfg, w, s)
    ensures Aligned(cfg, CancelledWorld(w, id), Acts(cfg.maxAttempts, s, actions))
    ensures RunOf(actions, P.BeginCancel(t, id))
    ensures var s' := Acts(cfg.maxAttempts, s, actions);
      && t in s'.threads && s'.threads == s.threads[t := s'.threads[t]]
      && (if CancelError(w, id).Some? then s'.threads[t] == P.Stopped
          else s'.threads[t].Cancelling? && s'.threads[t].cancel == P.CancelReturned)
  {
    hide L.Inv, Mirrors, Acts, Listed, Ranked, Kept, PQ.Purged, CancelledState, Names, HasWorker;
    L.CancelKeepsInv(cfg, w, id);
    t := FreshThread(s.threads);
    RowsMirrored(w, s);
    MirroredSets(cfg, w, s);
    if CancelError(w, id).Some? {
      actions := [P.BeginCancel(t, id)];
      assert actions[1..] == [];
      CancelRefused(cfg.maxAttempts, s, t, id);
      OnlyThreads(cfg, w, s, t, P.Stopped);
    } else {
      var listing := ScheduledOnce(cfg, w, s.scheduled, id);
      actions := CancelAlone(cfg.maxAttempts, s, t, id, listing);
      CancelMirrored(cfg, w, s, t, id, listing);
      CancelledKeeps(s, t, id, listing);
      WorkersStay(w.hands, s, Acts(cfg.maxAttempts, s, actions), t);
    }
  }

  lemma RowsMirrored(w: World, s: P.State)
    requires Mirrors(w, s)
    ensures forall id :: id in s.rows <==> id in w.rows
    ensures forall id :: id in w.rows ==> s.rows[id].status == w.rows[id].status
  {
    hide Listed, StoryIn, StoryOf;
  }

  lemma CancelledKeeps(s: P.State, t: P.ThreadId, id: Id, listing: seq<QueueItem>)
    requires id in s.rows
    ensures var s' := CancelledState(s, t, id, listing);
      && s'.issued == s.issued && s'.keys == s.keys
      && s'.threads == s.threads[t := P.Cancelling(id, s.rows[id].attempts, P.CancelReturned)]
  {
    hide Minus, Purged;
  }

  lemma CancelMirrored(cfg: Config, w: World, s: P.State, t: P.ThreadId, id: Id, listing: seq<QueueItem>)
    requires L.Inv(cfg, w) && Mirrors(w, s) && CancelError(w, id).None? && Names(listing, s.scheduled, id)
    ensures id in s.rows && Mirrors(CancelledWorld(w, id), CancelledState(s, t, id, listing))
  {
    hide L.Inv, Listed, Ranked, Kept, PQ.Purged, Purged, InQueue, StoryIn, StoryOf, Minus, Names;
    MirroredSets(cfg, w, s);
    KeptListed(w.scheduled, s.scheduled, id, listing);
    SamePurged(w.lists, id);
    SameStories(w, CancelledWorld(w, id));
    forall i ensures StoryIn(s.log + [P.Wrote(id, Cancelled, P.ByCanceller)], i) == StoryIn(s.log, i) {
      Snoc(s.log, P.Wrote(id, Cancelled, P.ByCanceller), i);
    }
  }

  // ---- the creator ----

  lemma NotTaken(rows: map<Id, Notification>, rows': map<Id, P.Row>, index: map<Key, Id>, key: Option<Key>)
    requires SameRows(rows, rows') && L.Indexed(rows, index) && (key.Some? ==> key.value !in index)
    ensures !P.KeyTaken(rows', key)
  {
  }

  function RequestOf(n: Notification): P.Request {
    P.Request(n.key, n.priority, n.scheduledAt)
  }

  // A new row's item goes to the same place at both grains.
  lemma PlacedAlike(cfg: Config, w: World, id: Id, n: Notification, s: P.State)
    requires L.Inv(cfg, w) && Mirrors(w, s) && ValidPriority(n.priority)
    ensures var w' := Stored(w, id, n); var item := QueueItem(id, n.priority);
      && InQueue(w'.lists) == (if Deferred(w, n) then s.queue else s.queue + multiset{item})
      && Listed(w'.scheduled, if Deferred(w, n) then s.scheduled[item := Unix(n.scheduledAt.value)] else s.scheduled)
  {
    hide L.Inv, InQueue, Listed, PQ.Pushed, DelayedSet.Added, StoryIn, StoryOf, SameRows, ValidPriority;
    L.InvRanked(cfg, w);
    if Deferred(w, n) {
      ListedAdd(w.scheduled, s.scheduled, QueueItem(id, n.priority), n.scheduledAt.value);
    } else {
      PushTokens(w.lists, QueueItem(id, n.priority));
    }
  }

  lemma RowCreated(w: World, rows': map<Id, P.Row>, id: Id, n: Notification)
    requires SameRows(w.rows, rows') && n.status == Pending && n.attempts == 0
    ensures SameRows(Stored(w, id, n).rows,
                     rows'[id := P.Row(n.key, n.priority, if Deferred(w, n) then Pending else Queued, 0)])
  {
    hide PQ.Pushed, DelayedSet.Added;
  }

  lemma StoredParts(w: World, id: Id, n: Notification)
    ensures var w' := Stored(w, id, n);
      && w'.rows.Keys == w.rows.Keys + {id} && w'.hands == w.hands && w'.retry == w.retry
      && w'.index == (if n.key.Some? then w.index[n.key.value := id] else w.index)
      && w'.sends == w.sends && w'.events == w.events && w'.dead == w.dead && w'.attempts == w.attempts
  {
    hide PQ.Pushed, DelayedSet.Added;
  }

  lemma StoredMirrored(cfg: Config, w: World, s: P.State, t: P.ThreadId, id: Id, n: Notification)
    requires L.Inv(cfg, w) && Mirrors(w, s) && ValidPriority(n.priority) && n.status == Pending && n.attempts == 0
    ensures Mirrors(Stored(w, id, n), CreatedState(s, t, RequestOf(n), id, w.now))
  {
    hide L.Inv, InQueue, Listed, StoryIn, StoryOf, SameRows, ValidPriority, Stored, Claimed;
    PlacedAlike(cfg, w, id, n, s);
    RowCreated(w, s.rows, id, n);
    StoredParts(w, id, n);
    SameStories(w, Stored(w, id, n));
    assert Later(RequestOf(n), w.now) == Deferred(w, n);
    forall i ensures StoryIn(s.log + [P.Wrote(id, Queued, P.ByCreator)], i) == StoryIn(s.log, i) {
      Snoc(s.log, P.Wrote(id, Queued, P.ByCreator), i);
    }
  }

  // What a create with a fresh id comes to: the row that has the key, an error
  // before anything is written, or a new row.
  lemma CreatedCases(cfg: Config, w: World, input: Input, id: Id)
    requires L.Inv(cfg, w) && id !in w.rows
    ensures var (w', r) := Created(cfg, w, input, id);
      if input.key.Some? && input.key.value in w.index then
        var i := w.index[input.key.value];
        i in w.rows && w.rows[i].key == input.key && w' == w && r == Ok((i, w.rows[i]))
      else if Content(cfg, input).Err? || !Validates(Draft(input, Content(cfg, input).value)) then
        w' == w && r.Err?
      else
        var n := Draft(input, Content(cfg, input).value);
        w' == Stored(WithLease(w, n.key, id), id, n) && r.Ok? && r.value.0 == id
  {
    hide L.TokensIn, L.ViewOf, L.Sound, Ranked, L.TokensMatch, Validates, Content, Stored;
  }

  // The stores after a new row, with its lease, at both grains.
  lemma StoredAligned(cfg: Config, w: World, s: P.State, t: P.ThreadId, id: Id, n: Notification)
    requires Aligned(cfg, w, s) && t !in s.threads && Validates(n) && n.status == Pending && n.attempts == 0
    requires L.Inv(cfg, Stored(WithLease(w, n.key, id), id, n))
    ensures Aligned(cfg, Stored(WithLease(w, n.key, id), id, n), CreatedState(s, t, RequestOf(n), id, w.now))
  {
    hide L.Inv, Mirrors, Stored, HasWorker, Later;
    var s', w' := CreatedState(s, t, RequestOf(n), id, w.now), Stored(WithLease(w, n.key, id), id, n);
    StoredMirrored(cfg, w, s, t, id, n);
    LeasedStored(w, id, n);
    KeysUnmirrored(Stored(w, id, n), WithLease(w, n.key, id).keys, s');
    StoredParts(w, id, n);
    forall x | x in w.hands ensures HasWorker(s', x) {
      StillWorked(s, s', t, x);
    }
  }

  // The request of an input; an empty priority is the normal one.
  function Asked(input: Input): P.Request {
    P.Request(input.key, if input.priority == "" then NORMAL else input.priority, input.scheduledAt)
  }

  // Where the creator thread ends: at the id it answers, or stopped by an error.
  function Answered(req: P.Request, r: Outcome<(Id, Notification)>): P.Thread {
    if r.Ok? then P.Creating(req, P.Returned(r.value.0)) else P.Stopped
  }

  // A create, refused, already answered or new, is one creator thread running to
  // its end, and the thread returns the id that the create answers.
  lemma CreateAligned(cfg: Config, w: World, s: P.State, input: Input, id: Id)
    returns (t: P.ThreadId, actions: seq<P.Action>)
    requires Aligned(cfg, w, s) && id !in w.rows
    ensures Aligned(cfg, Created(cfg, w, input, id).0, Acts(cfg.maxAttempts, s, actions))
    ensures RunOf(actions, P.BeginCreate(t, Asked(input)))
    ensures Acts(cfg.maxAttempts, s, actions).threads ==
            s.threads[t := Answered(Asked(input), Created(cfg, w, input, id).1)]
  {
    hide L.Inv, Acts, Created, Mirrors, Stored, P.KeyTaken, HasWorker, WithLease, CreatedState, Content, Validates;
    L.CreateKeepsInv(cfg, w, input, id);
    CreatedCases(cfg, w, input, id);
    RowsMirrored(w, s);
    t := FreshThread(s.threads);
    var req := Asked(input);
    if input.key.Some? && input.key.value in w.index {
      KeyNamed(cfg, w, s, input.key);
      CreateFound(cfg.maxAttempts, s, t, req, w.index[input.key.value]);
      actions := [P.BeginCreate(t, req), P.Advance(t, YES)];
      OnlyThreads(cfg, w, s, t, Answered(req, Created(cfg, w, input, id).1));
    } else {
      FreeKey(cfg, w, s, input.key);
      if Content(cfg, input).Err? || !Validates(Draft(input, Content(cfg, input).value)) {
        actions := CreateRefused(cfg.maxAttempts, s, t, req);
        OnlyThreads(cfg, w, s, t, P.Stopped);
      } else {
        var n := Draft(input, Content(cfg, input).value);
        T.DraftIsValid(n);
        actions := CreateAlone(cfg.maxAttempts, s, t, req, id, w.now);
        StoredAligned(cfg, w, s, t, id, n);
        CreatedThreads(s, t, req, id, w.now);
      }
    }
  }

  lemma CreatedThreads(s: P.State, t: P.ThreadId, req: P.Request, id: Id, now: int)
    ensures CreatedState(s, t, req, id, now).threads == s.threads[t := P.Creating(req, P.Returned(id))]
  {
  }

  // A new thread that is no worker leaves the grains aligned.
  lemma OnlyThreads(cfg: Config, w: World, s: P.State, t: P.ThreadId, pc: P.Thread)
    requires Aligned(cfg, w, s) && t !in s.threads
    ensures Aligned(cfg, w, s.(threads := s.threads[t := pc]))
  {
    hide L.Inv, Listed, SameRows, StoryIn, StoryOf, HasWorker;
    var s' := s.(threads := s.threads[t := pc]);
    forall x | x in w.hands ensures HasWorker(s', x) {
      StillWorked(s, s', t, x);
    }
  }

  // The one row with a key.
  lemma KeyNamed(cfg: Config, w: World, s: P.State, key: Option<Key>)
    requires L.Inv(cfg, w) && Mirrors(w, s) && key.Some? && key.value in w.index
    ensures var i := w.index[key.value];
      && i in s.rows && s.rows[i].key == key
      && forall j :: j in s.rows && s.rows[j].key == key ==> j == i
  {
    hide L.TokensIn, L.ViewOf, L.Sound, Ranked, L.TokensMatch, Listed, StoryIn, StoryOf;
  }

  lemma FreeKey(cfg: Config, w: World, s: P.State, key: Option<Key>)
    requires L.Inv(cfg, w) && Mirrors(w, s) && (key.Some? ==> key.value !in w.index)
    ensures !P.KeyTaken(s.rows, key)
  {
    hide L.TokensIn, L.ViewOf, L.Sound, Ranked, L.TokensMatch, L.Indexed, SameRows, Listed, StoryIn, StoryOf,
        P.KeyTaken;
    NotTaken(w.rows, s.rows, w.index, key);
  }

  lemma KeysUnmirrored(w: World, keys: map<Key, Lease>, s: P.State)
    requires Mirrors(w, s)
    ensures Mirrors(w.(keys := keys), s)
  {
    hide Listed, StoryIn, StoryOf, SameRows;
    SameStories(w, w.(keys := keys));
  }

  // Leases are not part of what is mirrored.
  lemma LeasedStored(w: World, id: Id, n: Notification)
    ensures Stored(WithLease(w, n.key, id), id, n) == Stored(w, id, n).(keys := WithLease(w, n.key, id).keys)
  {
    hide PQ.Pushed, DelayedSet.Added;
  }

  // ---- every step and every run ----

  // The commands that mirror a step: those of one thread of the right kind, from
  // its beginning to its end, or, for processing, from the fetch on.
  ghost predicate StepRun(w: World, s: P.State, step: Step, actions: seq<P.Action>) {
    match step
    case Create(input, id) =>
      if id in w.rows then actions == [] else exists t :: RunOf(actions, P.BeginCreate(t, Asked(input)))
    case Take => TakesAlone(w, actions)
    case Process(item, _) =>
      if item !in w.hands then actions == []
      else exists t :: t in s.threads && s.threads[t] == P.Working(item, P.Fetch) && TurnsOf(actions, t)
    case Cancel(id) => exists t :: RunOf(actions, P.BeginCancel(t, id))
    case PromoteRetry => exists t :: PassRun(actions, t, P.RetrySet, w.now)
    case PromoteScheduled => exists t :: PassRun(actions, t, P.ScheduledSet, w.now)
    case Pass(_) => actions == []
  }

  lemma NextAligned(cfg: Config, w: World, s: P.State, step: Step) returns (actions: seq<P.Action>)
    requires Aligned(cfg, w, s)
    ensures Aligned(cfg, Next(cfg, w, step), Acts(cfg.maxAttempts, s, actions)) && StepRun(w, s, step, actions)
  {
    hide Acts, Aligned, Created, Processed, CancelledWorld, RetryPromoted, ScheduledPromoted, Taken, RunOf, PassRun,
      TurnsOf, TakesAlone;
    actions := [];
    NoActs(cfg.maxAttempts, s);
    match step {
      case Create(input, id) =>
        if id !in w.rows {
          var t, run := CreateAligned(cfg, w, s, input, id);
          actions := run;
        }
      case Take => actions := TakeAligned(cfg, w, s);
      case Process(item, answer) =>
        if item in w.hands {
          var t, run := ProcessAligned(cfg, w, s, item, answer);
          actions := run;
        }
      case Cancel(id) =>
        var t, run := CancelAligned(cfg, w, s, id);
        actions := run;
      case PromoteRetry =>
        var t, run := PromoteAligned(cfg, w, s, P.RetrySet);
        actions := run;
      case PromoteScheduled =>
        var t, run := PromoteAligned(cfg, w, s, P.ScheduledSet);
        actions := run;
      case Pass(time) => PassAligned(cfg, w, s, time);
    }
  }

  lemma PassAligned(cfg: Config, w: World, s: P.State, time: nat)
    requires Aligned(cfg, w, s)
    ensures Aligned(cfg, w.(now := w.now + time), s)
  {
    hide L.Inv, StoryIn, StoryOf, Listed, SameRows;
    L.PassKeepsInv(cfg, w, time);
    SameStories(w, w.(now := w.now + time));
  }

  // The commands of all steps, in order.
  function Flat(parts: seq<seq<P.Action>>): seq<P.Action> {
    if parts == [] then [] else Flat(parts[..|parts| - 1]) + parts[|parts| - 1]
  }

  // Part i is the uninterrupted run of the thread that mirrors step i.
  ghost predicate Mirroring(cfg: Config, now: int, steps: seq<Step>, parts: seq<seq<P.Action>>)
    decreases |steps|
  {
    && |parts| == |steps|
    && (steps != [] ==>
          var last := |steps| - 1;
          && Mirroring(cfg, now, steps[..last], parts[..last])
          && StepRun(Run(cfg, Empty(now), steps[..last]), P.After(cfg.maxAttempts, Flat(parts[..last])),
                     steps[last], parts[last]))
  }

  // Every run of use cases is mirrored, store for store, by the run of single store
  // commands in which each step is the uninterrupted run of one thread; so what
  // holds in every state of Protocol holds of the stores it reaches.
  lemma {:induction false} RunMirrored(cfg: Config, now: int, steps: seq<Step>) returns (parts: seq<seq<P.Action>>)
    ensures Mirroring(cfg, now, steps, parts)
    ensures Aligned(cfg, Run(cfg, Empty(now), steps), P.After(cfg.maxAttempts, Flat(parts)))
    ensures Mirrors(Run(cfg, Empty(now), steps), P.After(cfg.maxAttempts, Flat(parts)))
  {
    hide Next, P.Next, L.Inv, Mirrors, StepRun;
    if steps == [] {
      parts := [];
      L.EmptyInv(cfg, now);
      EmptyMirrored(now);
    } else {
      var last := |steps| - 1;
      var before := RunMirrored(cfg, now, steps[..last]);
      var s := P.After(cfg.maxAttempts, Flat(before));
      var more := NextAligned(cfg, Run(cfg, Empty(now), steps[..last]), s, steps[last]);
      parts := before + [more];
      assert parts[..last] == before;
      AfterActs(cfg.maxAttempts, Flat(before), more);
    }
  }
}
