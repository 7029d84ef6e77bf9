// What every run of use cases keeps: no notification is lost or duplicated, the
// audit trail agrees with the rows, and settled notifications stay settled.

module Lifecycle {
  import opened Domain
  import opened DelayedSet
  import opened RateLimit
  import opened Tokens
  import opened UseCases
  import PQ = PriorityQueue

  // ---- what the stores say about one id ----

  function TokensIn(w: World): multiset<QueueItem> {
    InQueue(w.lists) + InSet(w.retry) + InSet(w.scheduled) + w.hands
  }

  function RecordsOf(attempts: seq<Attempt>, id: Id): seq<Attempt> {
    if attempts == [] then []
    else
      var last := attempts[|attempts| - 1];
      RecordsOf(attempts[..|attempts| - 1], id) + if last.id == id then [last] else []
  }

  function SendsOf(sends: seq<ProviderCall>, id: Id): nat {
    if sends == [] then 0
    else SendsOf(sends[..|sends| - 1], id) + if sends[|sends| - 1].id == id then 1 else 0
  }

  function DeadOf(dead: seq<DeadLetter>, id: Id): nat {
    if dead == [] then 0 else (if dead[0].id == id then 1 else 0) + DeadOf(dead[1..], id)
  }

  datatype View = View(row: Option<Notification>, tokens: nat, records: seq<Attempt>, sends: nat, dead: nat)

  function ViewOf(w: World, id: Id): View {
    View(if id in w.rows then Some(w.rows[id]) else None,
         if id in w.rows then TokensIn(w)[QueueItem(id, w.rows[id].priority)] else 0,
         RecordsOf(w.attempts, id), SendsOf(w.sends, id), DeadOf(w.dead, id))
  }

  // ---- the invariant ----

  // No loss: a notification that is not settled has exactly one token; one that
  // was delivered or failed has none. `sending` is never left behind by a step.
  predicate TokensFit(s: Status, tokens: nat) {
    match s
    case Pending => tokens == 1
    case Queued => tokens == 1
    case Sending => false
    case Delivered => tokens == 0
    case Failed => tokens == 0
    case Cancelled => tokens <= 1
  }

  // The records are numbered 1, 2, ... and only the last may be a delivery.
  predicate Numbered(records: seq<Attempt>) {
    forall i :: 0 <= i < |records| ==> records[i].no == i + 1 && (records[i].answer.Accepted? ==> i == |records| - 1)
  }

  // The attempts column counts the records and the sends. A row is delivered iff
  // its last record is, and iff it has a provider id; it is failed iff its id was
  // dead-lettered, once, with every attempt used up.
  predicate Audited(cap: nat, n: Notification, v: View) {
    && n.attempts == |v.records| == v.sends
    && Numbered(v.records)
    && (n.status == Delivered <==> v.records != [] && v.records[|v.records| - 1].answer.Accepted?)
    && (n.status == Delivered <==> n.providerId.Some?)
    && (if n.status == Failed then v.dead == 1 && n.attempts == cap else v.dead == 0)
    && (if n.status.Settled() && n.status != Cancelled then n.attempts <= cap else n.attempts < cap)
    && (n.status == Pending ==> n.attempts == 0)
  }

  predicate Sound(cap: nat, v: View) {
    match v.row
    case None => v.records == [] && v.sends == 0 && v.dead == 0
    case Some(n) => TokensFit(n.status, v.tokens) && Audited(cap, n, v)
  }

  // Every token belongs to a row and carries its priority, which is one that is served.
  ghost predicate TokensMatch(rows: map<Id, Notification>, tokens: multiset<QueueItem>) {
    forall x :: x in tokens ==> x.id in rows && rows[x.id].priority == x.priority && ValidPriority(x.priority)
  }

  // The unique index holds exactly the rows' keys.
  ghost predicate Indexed(rows: map<Id, Notification>, index: map<Key, Id>) {
    && (forall k :: k in index ==> index[k] in rows && rows[index[k]].key == Some(k))
    && (forall id :: id in rows && rows[id].key.Some? ==>
          rows[id].key.value in index && index[rows[id].key.value] == id)
  }

  // A lease names the row that is stored under its key.
  ghost predicate Leases(rows: map<Id, Notification>, index: map<Key, Id>, keys: map<Key, Lease>) {
    forall k :: k in keys ==> keys[k].id in rows && k in index && index[k] == keys[k].id
  }

  ghost predicate Inv(cfg: Config, w: World) {
    && (forall id :: Sound(Cap(cfg.maxAttempts), ViewOf(w, id)))
    && TokensMatch(w.rows, TokensIn(w))
    && Ranked(w.retry) && Ranked(w.scheduled)
    && Indexed(w.rows, w.index)
    && Leases(w.rows, w.index, w.keys)
    && (forall id :: id in w.rows ==> Validates(w.rows[id]))
  }

  lemma InvRanked(cfg: Config, w: World)
    requires Inv(cfg, w)
    ensures Ranked(w.retry) && Ranked(w.scheduled)
  {
    hide TokensIn, Ranked, Indexed, Sound, TokensMatch;
  }

  // ---- logs grow at one end ----

  lemma RecordsGrow(attempts: seq<Attempt>, a: Attempt, id: Id)
    ensures RecordsOf(attempts + [a], id) == RecordsOf(attempts, id) + if a.id == id then [a] else []
  {
    assert (attempts + [a])[..|attempts|] == attempts;
  }

  lemma SendsGrow(sends: seq<ProviderCall>, s: ProviderCall, id: Id)
    ensures SendsOf(sends + [s], id) == SendsOf(sends, id) + if s.id == id then 1 else 0
  {
    assert (sends + [s])[..|sends|] == sends;
  }

  lemma DeadGrows(dead: seq<DeadLetter>, d: DeadLetter, id: Id)
    ensures DeadOf([d] + dead, id) == DeadOf(dead, id) + if d.id == id then 1 else 0
  {
    assert ([d] + dead)[1..] == dead;
  }

  // ---- the item in a worker's hands ----

  // A held item's row is pending, queued or cancelled, and the item is its only token.
  lemma HeldItem(cfg: Config, w: World, item: QueueItem)
    requires Inv(cfg, w) && item in w.hands
    ensures item.id in w.rows && w.rows[item.id].priority == item.priority && ValidPriority(item.priority)
    ensures TokensIn(w)[item] == 1 && w.hands[item] == 1 && item !in InSet(w.retry)
    ensures w.rows[item.id].status in {Pending, Queued, Cancelled}
  {
    hide InQueue, InSet, Ranked, Indexed;
    assert item in TokensIn(w);
    assert Sound(Cap(cfg.maxAttempts), ViewOf(w, item.id));
    assert item == QueueItem(item.id, w.rows[item.id].priority);
  }

  // What processing comes to, in each of its three cases.
  lemma DiscardedIs(cfg: Config, w: World, item: QueueItem, answer: Answer)
    ensures VerdictOn(cfg, w, item, answer).Discard? ==>
              Processed(cfg, w, item, answer) == w.(hands := w.hands - multiset{item})
  {
    hide Allowed, Bumped, Added, EventsAfter, RowAfter, AfterSend;
  }

  lemma ThrottledIs(cfg: Config, w: World, item: QueueItem, answer: Answer)
    requires VerdictOn(cfg, w, item, answer).Throttle?
    ensures Processed(cfg, w, item, answer) ==
            w.(hands := w.hands - multiset{item}, retry := Added(w.retry, item, w.now + SECOND),
               counters := Bumped(w.counters, w.rows[item.id].channel, w.now, true),
               metrics := w.metrics + [Metric(RateLimitedCount, w.rows[item.id].channel)])
  {
  }

  lemma AttemptedIs(cfg: Config, w: World, item: QueueItem, answer: Answer)
    requires item.id in w.rows
    requires VerdictOn(cfg, w, item, answer) == AfterSend(cfg, w.rows[item.id], answer)
    ensures var n := w.rows[item.id]; var v := AfterSend(cfg, n, answer);
      Processed(cfg, w, item, answer) ==
      w.(hands := w.hands - multiset{item}, counters := Bumped(w.counters, n.channel, w.now, true),
         rows := w.rows[item.id := RowAfter(n, v, answer)],
         retry := if v.TryLater? then Added(w.retry, item, w.now + cfg.retryInterval) else w.retry,
         sends := w.sends + [CallFor(item.id, n, answer)],
         attempts := w.attempts + [Attempt(item.id, n.attempts + 1, answer)],
         dead := if v.GiveUp? && answer.Rejected? then [DeadLetter(item.id, answer.reason)] + w.dead else w.dead,
         events := w.events + EventsAfter(item.id, n, v),
         metrics := w.metrics + [Metric(MetricAfter(v).value, n.channel)])
  {
    hide AfterSend, Added, Bumped, Allowed, RowAfter, EventsAfter;
  }

  lemma ProcessedRows(cfg: Config, w: World, item: QueueItem, answer: Answer)
    ensures var v := VerdictOn(cfg, w, item, answer);
      Processed(cfg, w, item, answer).rows ==
      if item.id in w.rows && Sends(v) then w.rows[item.id := RowAfter(w.rows[item.id], v, answer)] else w.rows
  {
    hide RowAfter, EventsAfter, RetryAfter, VerdictOn, Bumped, MetricAfter;
  }

  // Processing either uses up the item's token or moves it to the retry set.
  predicate Keeps(v: Verdict) {
    v.Throttle? || v.TryLater?
  }

  // What processing does to the view of the item's id.
  function ProcessedView(v: View, id: Id, verdict: Verdict, answer: Answer): View {
    if v.row.None? then v
    else
      var n := v.row.value;
      v.(row := Some(if Sends(verdict) then RowAfter(n, verdict, answer) else n),
         tokens := if Keeps(verdict) || v.tokens == 0 then v.tokens else v.tokens - 1,
         records := if Sends(verdict) then v.records + [Attempt(id, n.attempts + 1, answer)] else v.records,
         sends := if Sends(verdict) then v.sends + 1 else v.sends,
         dead := if verdict.GiveUp? then v.dead + 1 else v.dead)
  }

  lemma RetryTokens(cfg: Config, w: World, item: QueueItem, v: Verdict)
    requires ValidPriority(item.priority) && item !in InSet(w.retry) && Ranked(w.retry)
    ensures InSet(RetryAfter(cfg, w, item, v)) == if Keeps(v) then InSet(w.retry) + multiset{item} else InSet(w.retry)
    ensures Ranked(RetryAfter(cfg, w, item, v))
  {
    hide InSet, Ranked, Added;
    AddTokens(w.retry, item, w.now + SECOND);
    AddTokens(w.retry, item, w.now + cfg.retryInterval);
    AddKeepsRanked(w.retry, item, w.now + SECOND);
    AddKeepsRanked(w.retry, item, w.now + cfg.retryInterval);
  }

  lemma ProcessedTokens(cfg: Config, w: World, item: QueueItem, answer: Answer)
    requires Inv(cfg, w) && item in w.hands
    ensures TokensIn(Processed(cfg, w, item, answer)) ==
            if Keeps(VerdictOn(cfg, w, item, answer)) then TokensIn(w) else TokensIn(w) - multiset{item}
    ensures Ranked(Processed(cfg, w, item, answer).retry)
  {
    hide InQueue, InSet, Ranked, Indexed, Sound, RetryAfter, TokensMatch, VerdictOn, Bumped;
    HeldItem(cfg, w, item);
    RetryTokens(cfg, w, item, VerdictOn(cfg, w, item, answer));
  }

  lemma ProcessedViews(cfg: Config, w: World, item: QueueItem, answer: Answer, id: Id)
    requires Inv(cfg, w) && item in w.hands
    ensures ViewOf(Processed(cfg, w, item, answer), id) ==
            if id == item.id then ProcessedView(ViewOf(w, id), id, VerdictOn(cfg, w, item, answer), answer)
            else ViewOf(w, id)
  {
    hide InQueue, InSet, Ranked, Indexed, Sound, RetryAfter, TokensMatch, TokensIn, Allowed, Bumped,
      RecordsOf, SendsOf, DeadOf, RowAfter;
    HeldItem(cfg, w, item);
    ProcessedTokens(cfg, w, item, answer);
    var n, v := w.rows[item.id], VerdictOn(cfg, w, item, answer);
    RecordsGrow(w.attempts, Attempt(item.id, n.attempts + 1, answer), id);
    SendsGrow(w.sends, CallFor(item.id, n, answer), id);
    if answer.Rejected? {
      DeadGrows(w.dead, DeadLetter(item.id, answer.reason), id);
    }
    RowKeepsPriority(n, v, answer);
  }

  lemma RowKeepsPriority(n: Notification, v: Verdict, answer: Answer)
    ensures RowAfter(n, v, answer).priority == n.priority && RowAfter(n, v, answer).key == n.key
    ensures Validates(RowAfter(n, v, answer)) == Validates(n)
  {
  }

  lemma ProcessedSound(cfg: Config, w: World, item: QueueItem, answer: Answer)
    requires Inv(cfg, w) && item in w.hands
    ensures forall id :: Sound(Cap(cfg.maxAttempts), ViewOf(Processed(cfg, w, item, answer), id))
  {
    hide Ranked, Indexed, TokensMatch, TokensIn, Processed, ViewOf, Allowed, Bumped;
    HeldItem(cfg, w, item);
    forall id ensures Sound(Cap(cfg.maxAttempts), ViewOf(Processed(cfg, w, item, answer), id)) {
      assert Sound(Cap(cfg.maxAttempts), ViewOf(w, id));
      ProcessedViews(cfg, w, item, answer, id);
      if id == item.id {
        HeldView(w, item);
      }
    }
  }

  lemma HeldView(w: World, item: QueueItem)
    requires item.id in w.rows && w.rows[item.id].priority == item.priority
    ensures ViewOf(w, item.id).row == Some(w.rows[item.id]) && ViewOf(w, item.id).tokens == TokensIn(w)[item]
  {
    hide TokensIn;
  }

  // A row may change freely but for its key and priority.
  lemma RowReplaced(rows: map<Id, Notification>, id: Id, n: Notification, index: map<Key, Id>,
                    tokens: multiset<QueueItem>, tokens': multiset<QueueItem>)
    requires id in rows && n.key == rows[id].key && n.priority == rows[id].priority
    requires tokens' <= tokens
    ensures Indexed(rows, index) ==> Indexed(rows[id := n], index)
    ensures TokensMatch(rows, tokens) ==> TokensMatch(rows[id := n], tokens')
  {
  }

  lemma FewerTokens(rows: map<Id, Notification>, tokens: multiset<QueueItem>, tokens': multiset<QueueItem>)
    requires tokens' <= tokens && TokensMatch(rows, tokens)
    ensures TokensMatch(rows, tokens')
  {
  }

  lemma ProcessKeepsInv(cfg: Config, w: World, item: QueueItem, answer: Answer)
    requires Inv(cfg, w) && item in w.hands
    ensures Inv(cfg, Processed(cfg, w, item, answer))
  {
    hide Ranked, Sound, TokensIn, ViewOf, Allowed, Bumped, RetryAfter, RowAfter, Validates, Indexed, TokensMatch;
    HeldItem(cfg, w, item);
    ProcessedTokens(cfg, w, item, answer);
    ProcessedSound(cfg, w, item, answer);
    var n', v := RowAfter(w.rows[item.id], VerdictOn(cfg, w, item, answer), answer), VerdictOn(cfg, w, item, answer);
    RowKeepsPriority(w.rows[item.id], v, answer);
    var tokens' := TokensIn(Processed(cfg, w, item, answer));
    RowReplaced(w.rows, item.id, n', w.index, TokensIn(w), tokens');
    FewerTokens(w.rows, TokensIn(w), tokens');
  }

  // ---- the other steps ----

  // A step that only moves tokens from one place to another keeps the invariant.
  lemma MovingTokens(cfg: Config, w: World, w': World)
    requires Inv(cfg, w)
    requires TokensIn(w') == TokensIn(w) && w'.rows == w.rows && w'.attempts == w.attempts
    requires w'.sends == w.sends && w'.dead == w.dead && w'.index == w.index && w'.keys == w.keys
    requires Ranked(w'.retry) && Ranked(w'.scheduled)
    ensures Inv(cfg, w') && forall id :: ViewOf(w', id) == ViewOf(w, id)
  {
    hide TokensIn, Ranked, Indexed, TokensMatch, Validates, Sound;
    forall id ensures ViewOf(w', id) == ViewOf(w, id) {
    }
  }

  lemma TakeKeepsInv(cfg: Config, w: World)
    requires Inv(cfg, w)
    ensures Inv(cfg, Taken(w))
    ensures TokensIn(Taken(w)) == TokensIn(w) && forall id :: ViewOf(Taken(w), id) == ViewOf(w, id)
  {
    hide Ranked, Sound, Indexed, InQueue, InSet, Validates, ViewOf;
    PopTokens(w.lists);
    assert TokensIn(Taken(w)) == TokensIn(w);
    MovingTokens(cfg, w, Taken(w));
  }

  lemma {:induction false} SuffixRanked(es: seq<Entry>, n: nat)
    requires n <= |es| && Ranked(es)
    ensures Ranked(es[n..])
  {
    hide Precedes;
  }

  lemma PromotedTokens(w: World, es: seq<Entry>, others: multiset<QueueItem>)
    requires Ranked(es) && TokensIn(w) == InQueue(w.lists) + InSet(es) + others && TokensMatch(w.rows, TokensIn(w))
    ensures var n := DueCount(es, w.now);
      InQueue(PushedAll(w.lists, Items(es[..n]))) + InSet(es[n..]) + others == TokensIn(w) && Ranked(es[n..])
  {
    hide Ranked, InQueue, InSet, PushedAll, DueCount, TokensIn;
    assert forall x :: x in InSet(es) ==> x in TokensIn(w);
    PromoteConserves(w.lists, es, DueCount(es, w.now));
    SuffixRanked(es, DueCount(es, w.now));
  }

  lemma PromoteRetryKeepsInv(cfg: Config, w: World)
    requires Inv(cfg, w)
    ensures Inv(cfg, RetryPromoted(w)) && TokensIn(RetryPromoted(w)) == TokensIn(w)
    ensures forall id :: ViewOf(RetryPromoted(w), id) == ViewOf(w, id)
  {
    hide Ranked, Sound, Indexed, InQueue, InSet, Validates, PushedAll, DueCount, TokensMatch, ViewOf;
    PromotedTokens(w, w.retry, InSet(w.scheduled) + w.hands);
    MovingTokens(cfg, w, RetryPromoted(w));
  }

  lemma PromoteScheduledKeepsInv(cfg: Config, w: World)
    requires Inv(cfg, w)
    ensures Inv(cfg, ScheduledPromoted(w)) && TokensIn(ScheduledPromoted(w)) == TokensIn(w)
    ensures forall id :: ViewOf(ScheduledPromoted(w), id) == ViewOf(w, id)
  {
    hide Ranked, Sound, Indexed, InQueue, InSet, Validates, PushedAll, DueCount, TokensMatch, ViewOf;
    assert TokensIn(w) == InQueue(w.lists) + InSet(w.scheduled) + (InSet(w.retry) + w.hands);
    PromotedTokens(w, w.scheduled, InSet(w.retry) + w.hands);
    assert TokensIn(ScheduledPromoted(w)) == TokensIn(w);
    MovingTokens(cfg, w, ScheduledPromoted(w));
  }

  lemma ClockKeepsTokens(w: World, w': World)
    requires w' == w.(now := w'.now)
    ensures TokensIn(w') == TokensIn(w)
  {
  }

  lemma PassKeepsInv(cfg: Config, w: World, time: nat)
    requires Inv(cfg, w)
    ensures Inv(cfg, w.(now := w.now + time)) && forall id :: ViewOf(w.(now := w.now + time), id) == ViewOf(w, id)
  {
    hide Ranked, Sound, Indexed, InQueue, InSet, Validates, ViewOf;
    MovingTokens(cfg, w, w.(now := w.now + time));
  }

  // Cancelling removes the id's tokens from the queue and the scheduled set; one
  // in the retry set or in a worker's hands remains.
  lemma CancelledTokens(w: World, id: Id, x: QueueItem)
    requires CancelError(w, id).None?
    ensures TokensIn(CancelledWorld(w, id))[x] ==
            if x.id == id then InSet(w.retry)[x] + w.hands[x] else TokensIn(w)[x]
  {
    hide InQueue, InSet, PQ.Purged, Kept;
    PurgeTokens(w.lists, id, x);
    KeptTokens(w.scheduled, id, x);
  }

  lemma CancelKeepsInv(cfg: Config, w: World, id: Id)
    requires Inv(cfg, w)
    ensures Inv(cfg, CancelledWorld(w, id))
  {
    hide Ranked, TokensIn, RecordsOf, SendsOf, DeadOf, Validates, Indexed, TokensMatch, PQ.Purged, Kept, InSet;
    if CancelError(w, id).None? {
      var w' := CancelledWorld(w, id);
      forall x ensures TokensIn(w')[x] <= TokensIn(w)[x] && (x.id != id ==> TokensIn(w')[x] == TokensIn(w)[x]) {
        CancelledTokens(w, id, x);
        AtLeast(w, x);
      }
      assert TokensIn(w') <= TokensIn(w);
      KeptIs(w.scheduled, id);
      RowReplaced(w.rows, id, w'.rows[id], w.index, TokensIn(w), TokensIn(w'));
      forall i ensures Sound(Cap(cfg.maxAttempts), ViewOf(w', i)) {
        assert Sound(Cap(cfg.maxAttempts), ViewOf(w, i));
      }
      assert Validates(w.rows[id]);
      StatusDoesNotMatter(w.rows[id], Cancelled, None, None, w.rows[id].attempts);
    }
  }

  lemma AtLeast(w: World, x: QueueItem)
    ensures TokensIn(w)[x] >= InSet(w.retry)[x] + w.hands[x]
  {
    hide InQueue, InSet;
  }

  lemma StatusDoesNotMatter(n: Notification, s: Status, e: Option<string>, p: Option<string>, attempts: nat)
    ensures Validates(WithStatus(n, s, e, p, attempts)) == Validates(n)
  {
  }

  // ---- creating ----

  // One token more in one of the four places.
  lemma OneToken(q: multiset<QueueItem>, r: multiset<QueueItem>, d: multiset<QueueItem>, h: multiset<QueueItem>,
                 x: QueueItem)
    ensures (q + multiset{x}) + r + d + h == (q + r + d + h) + multiset{x}
    ensures q + r + (d + multiset{x}) + h == (q + r + d + h) + multiset{x}
  {
  }

  lemma NoToken(rows: map<Id, Notification>, tokens: multiset<QueueItem>, x: QueueItem)
    requires TokensMatch(rows, tokens) && x.id !in rows
    ensures x !in tokens
  {
  }

  // What storing a row changes in the places of tokens.
  lemma StoredPlaces(w: World, id: Id, n: Notification)
    ensures var w', item := Stored(w, id, n), QueueItem(id, n.priority);
      && w'.retry == w.retry && w'.hands == w.hands
      && (if Deferred(w, n) then w'.lists == w.lists && w'.scheduled == Added(w.scheduled, item, n.scheduledAt.value)
          else w'.lists == PQ.Pushed(w.lists, item) && w'.scheduled == w.scheduled)
  {
    hide PQ.Pushed, Added, NewRow;
  }

  // A new row starts with one token and an empty trail.
  lemma StoredTokens(w: World, id: Id, n: Notification)
    requires TokensMatch(w.rows, TokensIn(w)) && Ranked(w.scheduled) && ValidPriority(n.priority) && id !in w.rows
    ensures TokensIn(Stored(w, id, n)) == TokensIn(w) + multiset{QueueItem(id, n.priority)}
    ensures Ranked(Stored(w, id, n).scheduled)
  {
    hide InQueue, InSet, PQ.Pushed, Added, Ranked, Stored, TokensMatch;
    var item := QueueItem(id, n.priority);
    NoToken(w.rows, TokensIn(w), item);
    StoredPlaces(w, id, n);
    OneToken(InQueue(w.lists), InSet(w.retry), InSet(w.scheduled), w.hands, item);
    if Deferred(w, n) {
      AddTokens(w.scheduled, item, n.scheduledAt.value);
      AddKeepsRanked(w.scheduled, item, n.scheduledAt.value);
    } else {
      PushTokens(w.lists, item);
    }
  }

  lemma StoredSound(cfg: Config, w: World, id: Id, n: Notification, i: Id)
    requires TokensMatch(w.rows, TokensIn(w)) && Ranked(w.scheduled) && ValidPriority(n.priority) && id !in w.rows
    requires Sound(Cap(cfg.maxAttempts), ViewOf(w, i))
    requires n.status == Pending && n.attempts == 0 && n.providerId.None?
    ensures Sound(Cap(cfg.maxAttempts), ViewOf(Stored(w, id, n), i))
  {
    hide TokensIn, Ranked, RecordsOf, SendsOf, DeadOf, PQ.Pushed, Added;
    StoredTokens(w, id, n);
    assert QueueItem(id, n.priority) !in TokensIn(w);
  }

  lemma NewRowIsNew(w: World, n: Notification)
    ensures NewRow(w, n).key == n.key && NewRow(w, n).priority == n.priority
    ensures Validates(NewRow(w, n)) == Validates(n)
  {
  }

  lemma RowAdded(rows: map<Id, Notification>, index: map<Key, Id>, id: Id, n: Notification)
    requires Indexed(rows, index) && id !in rows && (n.key.Some? ==> n.key.value !in index)
    ensures Indexed(rows[id := n], if n.key.Some? then index[n.key.value := id] else index)
  {
  }

  lemma TokenAdded(rows: map<Id, Notification>, tokens: multiset<QueueItem>, id: Id, n: Notification)
    requires TokensMatch(rows, tokens) && id !in rows && ValidPriority(n.priority)
    ensures TokensMatch(rows[id := n], tokens + multiset{QueueItem(id, n.priority)})
  {
  }

  lemma LeasesStay(rows: map<Id, Notification>, index: map<Key, Id>, keys: map<Key, Lease>, id: Id, n: Notification)
    requires Leases(rows, index, keys)
    ensures Leases(rows[id := n], index, keys)
  {
  }

  lemma LeaseAdded(rows: map<Id, Notification>, index: map<Key, Id>, keys: map<Key, Lease>, id: Id, n: Notification,
                   key: Key, lease: Lease)
    requires Leases(rows, index, keys) && lease.id == id && key !in index
    ensures Leases(rows[id := n], index[key := id], keys[key := lease])
  {
  }

  lemma StoredKeepsInv(cfg: Config, w: World, id: Id, n: Notification)
    requires Inv(cfg, w) && !Clashes(w, id, n) && Validates(n)
    requires n.status == Pending && n.attempts == 0 && n.providerId.None?
    ensures Inv(cfg, Stored(WithLease(w, n.key, id), id, n))
  {
    hide TokensIn, Ranked, Indexed, Sound, ViewOf, PQ.Pushed, Added, TokensMatch, NewRow, Leases;
    var w1 := WithLease(w, n.key, id);
    assert ValidPriority(n.priority);
    KeysDoNotMatter(w, w1);
    StoredTokens(w1, id, n);
    NewRowIsNew(w1, n);
    RowAdded(w.rows, w.index, id, NewRow(w1, n));
    TokenAdded(w.rows, TokensIn(w), id, NewRow(w1, n));
    if n.key.Some? {
      LeaseAdded(w.rows, w.index, w.keys, id, NewRow(w1, n), n.key.value, w1.keys[n.key.value]);
    } else {
      LeasesStay(w.rows, w.index, w.keys, id, NewRow(w1, n));
    }
    forall i ensures Sound(Cap(cfg.maxAttempts), ViewOf(Stored(w1, id, n), i)) {
      StoredSound(cfg, w1, id, n, i);
    }
  }

  lemma KeysDoNotMatter(w: World, w': World)
    requires w' == w.(keys := w'.keys)
    ensures TokensIn(w') == TokensIn(w) && forall id :: ViewOf(w', id) == ViewOf(w, id)
  {
  }

  lemma CreateKeepsInv(cfg: Config, w: World, input: Input, id: Id)
    requires Inv(cfg, w) && id !in w.rows
    ensures Inv(cfg, Created(cfg, w, input, id).0)
  {
    hide Sound, ViewOf, TokensMatch, Ranked, TokensIn, Stored, Validates, Content;
    if !(input.key.Some? && input.key.value in w.index) && Content(cfg, input).Ok? {
      var n := Draft(input, Content(cfg, input).value);
      if Validates(n) {
        StoredKeepsInv(cfg, w, id, n);
      }
    }
  }

  // ---- every run ----

  lemma NextKeepsInv(cfg: Config, w: World, step: Step)
    requires Inv(cfg, w)
    ensures Inv(cfg, Next(cfg, w, step))
  {
    hide Inv, Created, Processed, CancelledWorld, RetryPromoted, ScheduledPromoted, Taken;
    match step {
      case Create(input, id) =>
        if id !in w.rows {
          CreateKeepsInv(cfg, w, input, id);
        }
      case Take => TakeKeepsInv(cfg, w);
      case Process(item, answer) =>
        if item in w.hands {
          ProcessKeepsInv(cfg, w, item, answer);
        }
      case Cancel(id) => CancelKeepsInv(cfg, w, id);
      case PromoteRetry => PromoteRetryKeepsInv(cfg, w);
      case PromoteScheduled => PromoteScheduledKeepsInv(cfg, w);
      case Pass(time) => PassKeepsInv(cfg, w, time);
    }
  }

  lemma EmptyInv(cfg: Config, now: int)
    ensures Inv(cfg, Empty(now))
  {
    assert TokensIn(Empty(now)) == multiset{};
  }

  // Starting from empty stores, every run of use cases keeps the invariant.
  lemma {:induction false} RunKeepsInv(cfg: Config, w: World, steps: seq<Step>)
    requires Inv(cfg, w)
    ensures Inv(cfg, Run(cfg, w, steps))
  {
    hide Inv, Next;
    if steps != [] {
      RunKeepsInv(cfg, w, steps[..|steps| - 1]);
      NextKeepsInv(cfg, Run(cfg, w, steps[..|steps| - 1]), steps[|steps| - 1]);
    }
  }
}
