// The status hub: events fanned out to subscriber channels with room for eight
// (internal/adapter/ws/hub.go). Its methods hold the lock, so one is one step.

module Hub {
  import opened Domain
  import opened UseCases

  const ROOM: nat := 8

  // One call of deliver.
  datatype Delivery = Delivery(key: string, event: StatusEvent)

  // The events delivered to a key, in order.
  function EventsOf(log: seq<Delivery>, key: string): seq<StatusEvent> {
    if log == [] then []
    else
      var last := log[|log| - 1];
      EventsOf(log[..|log| - 1], key) + if last.key == key then [last.event] else []
  }

  // a is what is left of b when some of its elements are dropped.
  predicate Subsequence<T(==)>(a: seq<T>, b: seq<T>) {
    a == [] ||
    (b != [] &&
     (Subsequence(a, b[..|b| - 1])
      || (a[|a| - 1] == b[|b| - 1] && Subsequence(a[..|a| - 1], b[..|b| - 1]))))
  }

  lemma SubsequenceSnoc<T>(a: seq<T>, b: seq<T>, x: T)
    requires Subsequence(a, b)
    ensures Subsequence(a, b + [x]) && Subsequence(a + [x], b + [x])
  {
    assert (b + [x])[..|b|] == b && (a + [x])[..|a|] == a;
  }

  // Nothing dropped, nothing missing.
  lemma {:induction false} WholeSubsequence<T>(a: seq<T>, b: seq<T>)
    requires Subsequence(a, b)
    ensures |a| <= |b| && (|a| == |b| ==> a == b)
  {
    if a != [] {
      var front, last := b[..|b| - 1], b[|b| - 1];
      assert b == front + [last] && a == a[..|a| - 1] + [a[|a| - 1]];
      if Subsequence(a, front) {
        WholeSubsequence(a, front);
      }
      if a[|a| - 1] == last && Subsequence(a[..|a| - 1], front) {
        WholeSubsequence(a[..|a| - 1], front);
      }
    }
  }

  lemma EventsSnoc(log: seq<Delivery>, d: Delivery, key: string)
    ensures EventsOf(log + [d], key) == EventsOf(log, key) + if d.key == key then [d.event] else []
  {
    assert (log + [d])[..|log|] == log;
  }

  // How often publishing e delivers it to a key: the notification's and the batch's
  // key are both served, even if they are the same.
  function Deliveries(key: string, e: StatusEvent): nat {
    (if key == e.id then 1 else 0) + if e.batch == Some(key) then 1 else 0
  }

  // n times the same event.
  function Copies(e: StatusEvent, n: nat): (es: seq<StatusEvent>)
    ensures |es| == n && forall i :: 0 <= i < n ==> es[i] == e
  {
    seq(n, i => e)
  }

  // A buffered channel. Sending to a closed one, and closing one twice, would panic.
  class Chan {
    const key: string
    var buffer: seq<StatusEvent>
    var closed: bool
    ghost var offered: seq<StatusEvent> // every event it was sent, dropped or not
    ghost var received: seq<StatusEvent>
    ghost var dropped: nat
    ghost const since: nat // the deliveries before it was made
    ghost var until: nat   // the deliveries before it was closed

    ghost function Got(): seq<StatusEvent>
      reads this
    {
      received + buffer
    }

    // The events got are those offered, less the dropped ones.
    ghost predicate Valid()
      reads this
    {
      && |buffer| <= ROOM
      && Subsequence(Got(), offered)
      && |Got()| + dropped == |offered|
    }

    constructor (key: string, ghost since: nat)
      ensures Valid() && this.key == key && this.since == until == since
      ensures !closed && buffer == [] && received == [] && dropped == 0 && offered == []
    {
      this.key := key;
      this.since := since;
      buffer, closed, received, dropped, offered, until := [], false, [], 0, [], since;
    }

    method TrySend(e: StatusEvent)
      requires Valid() && !closed
      modifies this`buffer, this`offered, this`dropped
      ensures Valid() && offered == old(offered) + [e]
      ensures old(buffer) <= buffer && |old(buffer)| <= 8
      ensures if |old(buffer)| < 8 then buffer == old(buffer) + [e] && dropped == old(dropped)
              else buffer == old(buffer) && dropped == old(dropped) + 1
    {
      SubsequenceSnoc(Got(), offered, e);
      offered := offered + [e];
      if |buffer| < ROOM {
        buffer := buffer + [e];
        assert Got() == old(Got()) + [e];
      } else {
        dropped := dropped + 1;
      }
    }

    // What is in the buffer can be received even after the channel was closed.
    method Receive() returns (e: Option<StatusEvent>)
      requires Valid()
      modifies this`buffer, this`received
      ensures Valid() && Got() == old(Got())
      ensures if old(buffer) == [] then e == None && buffer == []
              else e == Some(old(buffer)[0]) && buffer == old(buffer)[1..]
    {
      if buffer == [] {
        return None;
      }
      e := Some(buffer[0]);
      received := received + [buffer[0]];
      buffer := buffer[1..];
      assert Got() == old(Got());
    }

    method Close(ghost now: nat)
      requires Valid() && !closed
      modifies this`closed, this`until
      ensures Valid() && closed && until == now
    {
      closed := true;
      until := now;
    }
  }

  lemma FewCopies(e: StatusEvent)
    ensures Copies(e, 0) == [] && Copies(e, 1) == [e] && Copies(e, 2) == [e, e]
  {
  }

  // A buffer with room takes the event, and one that is full stays as it is.
  predicate Took(before: seq<StatusEvent>, after: seq<StatusEvent>, dropped: nat, dropped': nat, e: StatusEvent) {
    if |before| < 8 then after == before + [e] && dropped' == dropped
    else after == before && dropped' == dropped + 1
  }

  lemma TookIs(before: seq<StatusEvent>, after: seq<StatusEvent>, dropped: nat, dropped': nat, e: StatusEvent)
    requires if |before| < 8 then after == before + [e] && dropped' == dropped
             else after == before && dropped' == dropped + 1
    ensures Took(before, after, dropped, dropped', e)
  {
  }

  // The loop of deliver: a non-blocking send to each channel, in any order.
  method FanOut(chans: set<Chan>, e: StatusEvent)
    requires forall ch :: ch in chans ==> ch.Valid() && !ch.closed
    modifies chans
    ensures forall ch :: ch in chans ==>
              && ch.Valid() && !ch.closed && ch.received == old(ch.received) && ch.until == old(ch.until)
              && ch.offered == old(ch.offered) + [e]
              && Took(old(ch.buffer), ch.buffer, old(ch.dropped), ch.dropped, e)
  {
    hide Subsequence, Took;
    var left := chans;
    while left != {}
      invariant left <= chans
      invariant forall ch :: ch in left ==> unchanged(ch)
      invariant forall ch :: ch in chans - left ==>
                  && ch.Valid() && !ch.closed && ch.received == old(ch.received) && ch.until == old(ch.until)
                  && ch.offered == old(ch.offered) + [e]
                  && Took(old(ch.buffer), ch.buffer, old(ch.dropped), ch.dropped, e)
      decreases |left|
    {
      var ch :| ch in left;
      ch.TrySend(e);
      assert Took(old(ch.buffer), ch.buffer, old(ch.dropped), ch.dropped, e) by {
        TookIs(old(ch.buffer), ch.buffer, old(ch.dropped), ch.dropped, e);
      }
      left := left - {ch};
    }
  }

  // The deliveries made while a channel was open.
  ghost function Window(log: seq<Delivery>, ch: Chan): seq<Delivery>
    reads ch
    requires ch.since <= ch.until && ch.since <= |log|
  {
    if ch.closed && ch.until <= |log| then log[ch.since..ch.until] else log[ch.since..]
  }

  // What a channel was offered is what was delivered to its key while it was open.
  ghost predicate Follows(ch: Chan, log: seq<Delivery>)
    reads ch
  {
    && ch.Valid() && ch.since <= ch.until && ch.since <= |log| && (ch.closed ==> ch.until <= |log|)
    && ch.offered == EventsOf(Window(log, ch), ch.key)
  }

  class Hub {
    var subs: map<string, set<Chan>>
    ghost var all: set<Chan>
    ghost var log: seq<Delivery>

    function Under(key: string): set<Chan>
      reads this`subs
    {
      if key in subs then subs[key] else {}
    }

    // No key holds an empty set, and the open channels are exactly those
    // subscribed, each under its own key only.
    ghost predicate Valid()
      reads this, all
    {
      Sorted() && forall ch :: ch in all ==> Follows(ch, log)
    }

    ghost predicate Sorted()
      reads this, all
    {
      && (forall k :: k in subs ==> subs[k] != {})
      && (forall k :: Under(k) <= all)
      && (forall k, ch :: ch in all ==> (ch in Under(k) <==> !ch.closed && ch.key == k))
    }

    constructor ()
      ensures Valid() && subs == map[] && all == {} && log == []
    {
      subs, all, log := map[], {}, [];
    }

    method Subscribe(key: string) returns (ch: Chan)
      requires Valid()
      modifies this
      ensures Valid() && fresh(ch) && all == old(all) + {ch} && log == old(log)
      ensures ch.key == key && !ch.closed && ch.Got() == [] && ch.since == |log|
      ensures subs == old(subs)[key := old(Under(key)) + {ch}]
    {
      hide Subsequence, EventsOf, Follows;
      ch := new Chan(key, |log|);
      NewFollows(ch, log);
      assert forall c :: c in all ==> c != ch && Follows(c, log);
      if key !in subs {
        subs := subs[key := {}];
      }
      subs := subs[key := subs[key] + {ch}];
      all := all + {ch};
      hide Follows;
      assert forall k :: Under(k) == if k == key then old(Under(key)) + {ch} else old(Under(k));
      forall k, c | c in all ensures c in Under(k) <==> !c.closed && c.key == k {
        assert c != ch ==> (c in old(Under(k)) <==> !c.closed && c.key == k);
      }
    }

    // Only a channel that is subscribed under the key is closed.
    method Unsubscribe(key: string, ch: Chan)
      requires Valid()
      modifies this`subs, ch`closed, ch`until
      ensures Valid()
      ensures if ch in old(Under(key))
              then ch.closed && ch.Got() == old(ch.Got())
                && subs == (if old(subs)[key] == {ch} then old(subs) - {key}
                            else old(subs)[key := old(subs)[key] - {ch}])
              else subs == old(subs) && unchanged(ch)
    {
      hide Subsequence, EventsOf, Follows;
      if key in subs {
        assert subs[key] == Under(key) <= all;
        if ch in subs[key] {
          assert ch in Under(key) && ch in all && Follows(ch, log);
          subs := subs[key := subs[key] - {ch}];
          OpenFollows(ch, log);
          ch.Close(|log|);
          ClosedFollows(ch, log);
        }
        if subs[key] == {} {
          subs := subs - {key};
        }
        assert forall k :: Under(k) == if k == key then old(Under(key)) - {ch} else old(Under(k));
        forall k, c | c in all ensures c in Under(k) <==> !c.closed && c.key == k {
          assert c in old(Under(k)) <==> !old(c.closed) && c.key == k;
        }
      }
    }

    // Every open channel gets the event once for each delivery to its key, as far as
    // it has room; nothing that was received or buffered is lost.
    method Publish(e: StatusEvent)
      requires Valid()
      modifies this`log, all
      ensures Valid()
      ensures log == old(log) + [Delivery(e.id, e)]
                     + if e.batch.Some? then [Delivery(e.batch.value, e)] else []
      ensures forall ch :: ch in all ==>
                var n := if ch.closed then 0 else Deliveries(ch.key, e);
                var taken := Min(n, 8 - |old(ch.buffer)|);
                && ch.closed == old(ch.closed) && ch.received == old(ch.received)
                && 0 <= taken && ch.buffer == old(ch.buffer) + Copies(e, taken)
                && ch.dropped == old(ch.dropped) + n - taken
    {
      hide Subsequence, EventsOf, Follows;
      assert forall ch :: ch in all ==> (ch in Under(e.id) <==> !ch.closed && ch.key == e.id);
      RoomLeft();
      Deliver(e.id, e);
      label First:
      RoomLeft();
      if e.batch.Some? {
        Deliver(e.batch.value, e);
      }
      forall ch | ch in all
        ensures var n := if ch.closed then 0 else Deliveries(ch.key, e);
          var taken := Min(n, 8 - |old(ch.buffer)|);
          && ch.closed == old(ch.closed) && ch.received == old(ch.received)
          && 0 <= taken && ch.buffer == old(ch.buffer) + Copies(e, taken)
          && ch.dropped == old(ch.dropped) + n - taken
      {
        FewCopies(e);
        assert e.batch.Some? ==> (ch in Under(e.batch.value) <==> !ch.closed && ch.key == e.batch.value);
        assert old(ch.buffer) + [e] + [e] == old(ch.buffer) + [e, e] && old(ch.buffer) + [] == old(ch.buffer);
      }
    }

    lemma RoomLeft()
      requires Valid()
      ensures forall ch :: ch in all ==> |ch.buffer| <= 8
    {
      hide Subsequence, EventsOf;
      forall ch | ch in all ensures |ch.buffer| <= 8 {
        assert Follows(ch, log);
      }
    }

    method Deliver(key: string, e: StatusEvent)
      requires Valid()
      modifies this`log, Under(key)
      ensures Valid() && log == old(log) + [Delivery(key, e)]
      ensures forall ch :: ch in Under(key) ==>
                && !ch.closed && ch.received == old(ch.received) && old(ch.buffer) <= ch.buffer
                && (if |old(ch.buffer)| < 8 then ch.buffer == old(ch.buffer) + [e] && ch.dropped == old(ch.dropped)
                    else ch.buffer == old(ch.buffer) && ch.dropped == old(ch.dropped) + 1)
    {
      hide Subsequence, EventsOf, Follows;
      forall ch | ch in Under(key)
        ensures ch in all && ch.Valid() && ch.key == key && !ch.closed && ch.since <= ch.until && ch.since <= |log|
        ensures ch.offered == EventsOf(log[ch.since..], key)
      {
        OpenFollows(ch, log);
      }
      FanOut(Under(key), e);
      forall ch | ch in all ensures Follows(ch, log + [Delivery(key, e)]) {
        if ch in Under(key) {
          OfferedFollows(ch, log, Delivery(key, e));
        } else {
          OthersFollow(ch, log, Delivery(key, e));
        }
      }
      assert forall c :: c in all ==> c.closed == old(c.closed);
      log := log + [Delivery(key, e)];
      assert forall k :: Under(k) == old(Under(k)) <= all;
      forall k, c | c in all ensures c in Under(k) <==> !c.closed && c.key == k {
        assert c in old(Under(k)) <==> !old(c.closed) && c.key == k;
      }
    }

    method Receive(ch: Chan) returns (e: Option<StatusEvent>)
      requires Valid() && ch in all
      modifies ch`buffer, ch`received
      ensures Valid() && ch.Got() == old(ch.Got())
      ensures if old(ch.buffer) == [] then e == None && ch.buffer == []
              else e == Some(old(ch.buffer)[0]) && ch.buffer == old(ch.buffer)[1..]
    {
      hide Subsequence, EventsOf;
      e := ch.Receive();
    }
  }

  lemma NewFollows(ch: Chan, log: seq<Delivery>)
    requires ch.Valid() && ch.since == ch.until == |log| && !ch.closed && ch.offered == []
    ensures Follows(ch, log)
  {
    assert Window(log, ch) == [];
  }

  lemma OpenFollows(ch: Chan, log: seq<Delivery>)
    requires Follows(ch, log) && !ch.closed
    ensures ch.Valid() && ch.since <= ch.until && ch.since <= |log| && ch.offered == EventsOf(log[ch.since..], ch.key)
  {
    hide Subsequence, EventsOf;
  }

  lemma ClosedFollows(ch: Chan, log: seq<Delivery>)
    requires ch.Valid() && ch.closed && ch.since <= |log| == ch.until && ch.offered == EventsOf(log[ch.since..], ch.key)
    ensures Follows(ch, log)
  {
    hide Subsequence, EventsOf;
    assert log[ch.since..|log|] == log[ch.since..];
  }

  // One more delivery reaches the window of an open channel of its key.
  lemma OfferedFollows(ch: Chan, log: seq<Delivery>, d: Delivery)
    requires ch.Valid() && !ch.closed && ch.key == d.key && ch.since <= ch.until && ch.since <= |log|
    requires ch.offered == EventsOf(log[ch.since..], ch.key) + [d.event]
    ensures Follows(ch, log + [d])
  {
    hide Subsequence, EventsOf;
    assert (log + [d])[ch.since..] == log[ch.since..] + [d];
    EventsSnoc(log[ch.since..], d, ch.key);
  }

  // It does not reach a channel that is closed or of another key.
  lemma OthersFollow(ch: Chan, log: seq<Delivery>, d: Delivery)
    requires Follows(ch, log) && (ch.closed || ch.key != d.key)
    ensures Follows(ch, log + [d])
  {
    hide Subsequence, EventsOf;
    if ch.closed {
      assert Window(log + [d], ch) == Window(log, ch);
    } else {
      assert (log + [d])[ch.since..] == log[ch.since..] + [d];
      EventsSnoc(log[ch.since..], d, ch.key);
    }
  }

  // What a subscriber got is a subsequence of the deliveries to its key while it
  // was subscribed, and all of them exactly when none met a full buffer.
  lemma SubscriberGets(hub: Hub, ch: Chan)
    requires hub.Valid() && ch in hub.all
    ensures Follows(ch, hub.log)
    ensures var due := EventsOf(Window(hub.log, ch), ch.key);
      Subsequence(ch.Got(), due) && (ch.dropped == 0 <==> ch.Got() == due)
  {
    WholeSubsequence(ch.Got(), ch.offered);
  }
}
