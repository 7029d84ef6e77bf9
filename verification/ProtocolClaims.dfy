// A creator that finds its key claimed: it answers with the notification the key
// was claimed for, if that has its row by then, and with an error otherwise.

module ProtocolClaims {
  import opened Domain
  import opened Protocol
  import opened ProtocolKeys
  import opened ProtocolRuns

  lemma ClaimTakenIs(m: int, s: State, t: ThreadId, req: Request, id: Id, now: int)
    requires t in s.threads && s.threads[t] == Creating(req, Claim(id, now)) && req.key.Some?
        && req.key.value in s.keys
    ensures Next(m, s, Advance(t, YES)) == s.(threads := s.threads[t := Creating(req, ReadClaim)])
  {
  }

  lemma ReadClaimIs(m: int, s: State, t: ThreadId, req: Request)
    requires t in s.threads && s.threads[t] == Creating(req, ReadClaim) && req.key.Some? && req.key.value in s.keys
    ensures Next(m, s, Advance(t, YES)) ==
            s.(threads := s.threads[t := Creating(req, FetchClaimed(s.keys[req.key.value]))])
  {
  }

  lemma FetchClaimedIs(m: int, s: State, t: ThreadId, req: Request, existing: Id)
    requires t in s.threads && s.threads[t] == Creating(req, FetchClaimed(existing))
    ensures Next(m, s, Advance(t, YES)) ==
            s.(threads := s.threads[t := if existing in s.rows then Creating(req, Returned(existing)) else Stopped])
  {
  }

  // The key expires between the refused claim and the read of it: an error.
  lemma ReadExpired(m: int, s: State, t: ThreadId, req: Request, c: Choice)
    requires t in s.threads && s.threads[t] == Creating(req, ReadClaim) && req.key.Some? && req.key.value !in s.keys
    ensures Next(m, s, Advance(t, c)) == s.(threads := s.threads[t := Stopped])
  {
  }

  // A row with the id or the key refuses the insert: an error, and no store changes.
  lemma InsertRefused(m: int, s: State, t: ThreadId, req: Request, id: Id, now: int, c: Choice)
    requires t in s.threads && s.threads[t] == Creating(req, Insert(id, now))
    requires id in s.rows || (req.key.Some? && exists i :: i in s.rows && s.rows[i].key == req.key)
    ensures Next(m, s, Advance(t, c)) == s.(threads := s.threads[t := Stopped])
  {
  }

  // An expired key is free, and nothing else happens.
  lemma ExpiryFrees(m: int, s: State, key: Key)
    ensures Next(m, s, ExpireKey(key)) == s.(keys := s.keys - {key})
  {
    assert (map k | k in s.keys && k != key :: s.keys[k]) == s.keys - {key};
  }

  // When the key of a row expires, a creator that came past the check before the row
  // was there claims the key anew, and the unique index stops it: no second row.
  lemma ExpiredClaimRefused(m: int, s: State, t: ThreadId, req: Request, id: Id, now: int)
    requires t in s.threads && s.threads[t] == Creating(req, Claim(id, now)) && req.key.Some?
    requires exists i :: i in s.rows && s.rows[i].key == req.key
    ensures Acts(m, s, [ExpireKey(req.key.value)] + [Advance(t, YES)] + [Advance(t, YES)]) ==
            s.(keys := s.keys[req.key.value := id], threads := s.threads[t := Stopped])
  {
    hide Acts, Next;
    var key, a := req.key.value, Advance(t, YES);
    ExpiryFrees(m, s, key);
    OneAct(m, s, ExpireKey(key));
    var s1 := Acts(m, s, [ExpireKey(key)]);
    ClaimIs(m, s1, t, req, id, now);
    OneAct(m, s1, a);
    ActsAppend(m, s, [ExpireKey(key)], [a]);
    var s2 := Acts(m, s1, [a]);
    InsertRefused(m, s2, t, req, id, now, YES);
    OneAct(m, s2, a);
    ActsAppend(m, s, [ExpireKey(key)] + [a], [a]);
    assert (s.keys - {key})[key := id] == s.keys[key := id];
  }

  // From any state: a creator whose key is claimed changes no store and answers
  // with the id the key was claimed for, or stops if that id has no row yet.
  lemma CreateClaimed(m: int, s: State, t: ThreadId, req: Request, id: Id, now: int) returns (actions: seq<Action>)
    requires t in s.threads && s.threads[t] == Creating(req, Claim(id, now)) && req.key.Some?
        && req.key.value in s.keys
    ensures TurnsOf(actions, t) && |actions| == 3
    ensures var existing := s.keys[req.key.value];
      Acts(m, s, actions) ==
      s.(threads := s.threads[t := if existing in s.rows then Creating(req, Returned(existing)) else Stopped])
  {
    hide Acts, Next;
    var a := Advance(t, YES);
    ClaimTakenIs(m, s, t, req, id, now);
    OneAct(m, s, a);
    var s1 := Acts(m, s, [a]);
    ReadClaimIs(m, s1, t, req);
    OneAct(m, s1, a);
    ActsAppend(m, s, [a], [a]);
    var s2 := Acts(m, s1, [a]);
    FetchClaimedIs(m, s2, t, req, s.keys[req.key.value]);
    OneAct(m, s2, a);
    ActsAppend(m, s, [a] + [a], [a]);
    actions := [a] + [a] + [a];
  }

  // In every run: a creator that finds its key claimed by an id with a row returns
  // the one row of its key, in three turns of its own that change no store.
  lemma ClaimedAnswersTheRow(m: int, run: seq<Action>, t: ThreadId, req: Request, id: Id, now: int)
    returns (more: seq<Action>)
    requires var s := After(m, run);
      && t in s.threads && s.threads[t] == Creating(req, Claim(id, now)) && req.key.Some?
      && req.key.value in s.keys && s.keys[req.key.value] in s.rows
    ensures TurnsOf(more, t) && |more| == 3
    ensures var s, s' := After(m, run), After(m, run + more);
      exists i: Id ::
        && i != id && i in s.rows && s.rows[i].key == req.key
        && (forall j :: j in s.rows && s.rows[j].key == req.key ==> j == i)
        && s' == s.(threads := s.threads[t := Creating(req, Returned(i))])
  {
    hide After, Acts;
    var s := After(m, run);
    var i := s.keys[req.key.value];
    ReachableKeys(m, run);
    assert ThreadKeyed(s.rows, s.issued, t, s.threads[t]);
    more := CreateClaimed(m, s, t, req, id, now);
    AfterActs(m, run, more);
    assert s.rows[i].key == req.key;
  }

  // Two creators with one key, both past the check for a row with it.
  lemma BothPrepared(m: int, s: State, t: ThreadId, u: ThreadId, req: Request, req': Request)
    returns (actions: seq<Action>)
    requires t !in s.threads && u !in s.threads && t != u
    requires !KeyTaken(s.rows, req.key) && req.key == req'.key
    ensures Acts(m, s, actions) == s.(threads := s.threads[t := Creating(req, Prepare)][u := Creating(req', Prepare)])
  {
    hide Acts, KeyTaken;
    var first := ToPrepare(m, s, t, req);
    var s1 := Acts(m, s, first);
    var second := ToPrepare(m, s1, u, req');
    actions := first + second;
    ActsAppend(m, s, first, second);
  }

  // The first of them has claimed the key and inserted its row, the second is about
  // to claim the key.
  function RacedState(s: State, t: ThreadId, u: ThreadId, req: Request, req': Request, i: Id, j: Id, now: int): State {
    s.(issued := s.issued[j := Origin(req'.key, u)][i := Origin(req.key, t)],
       keys := Claimed(s.keys, req.key, i),
       rows := s.rows[i := Row(req.key, req.priority, Pending, 0)],
       threads := s.threads[u := Creating(req', Claim(j, now))][t := Creating(req, Handover(i, now))])
  }

  lemma FirstInserts(m: int, s: State, t: ThreadId, req: Request, i: Id, now: int) returns (actions: seq<Action>)
    requires t in s.threads && s.threads[t] == Creating(req, Prepare) && i !in s.issued && i !in s.rows
    requires ValidPriority(req.priority) && !KeyTaken(s.rows, req.key) && req.key.Some? && req.key.value !in s.keys
    ensures Acts(m, s, actions) ==
            s.(issued := s.issued[i := Origin(req.key, t)], keys := Claimed(s.keys, req.key, i),
               rows := s.rows[i := Row(req.key, req.priority, Pending, 0)],
               threads := s.threads[t := Creating(req, Handover(i, now))])
  {
    hide Acts, Next, KeyTaken, ValidPriority, Claimed;
    var claim := ToInsert(m, s, t, req, i, now);
    var s1 := Acts(m, s, claim);
    var a := Advance(t, YES);
    InsertIs(m, s1, t, req, i, now);
    OneAct(m, s1, a);
    actions := claim + [a];
    ActsAppend(m, s, claim, [a]);
  }

  // Only the last point of each thread is kept.
  lemma SameThreads(threads: map<ThreadId, Thread>, t: ThreadId, u: ThreadId, a: Thread, b: Thread, b': Thread,
                    a': Thread)
    requires t != u
    ensures threads[t := a][u := b][u := b'][t := a'] == threads[u := b'][t := a']
  {
  }

  // From every state with a free key some interleaving of two creators of that key
  // takes the second to a claim that is refused for an id with a row.
  lemma TwoCreators(m: int, s: State, t: ThreadId, u: ThreadId, req: Request, req': Request, i: Id, j: Id, now: int)
    returns (actions: seq<Action>)
    requires t !in s.threads && u !in s.threads && t != u && req.key.Some? && req.key == req'.key
    requires !KeyTaken(s.rows, req.key) && req.key.value !in s.keys
    requires ValidPriority(req.priority) && ValidPriority(req'.priority)
    requires i !in s.issued && j !in s.issued && i != j && i !in s.rows
    ensures Acts(m, s, actions) == RacedState(s, t, u, req, req', i, j, now)
  {
    hide Acts, Next, KeyTaken, ValidPriority, Claimed;
    var begin := BothPrepared(m, s, t, u, req, req');
    var s1 := Acts(m, s, begin);
    var generate := Advance(u, Choice(true, j, now, []));
    PrepareIs(m, s1, u, req', j, now);
    OneAct(m, s1, generate);
    var s2 := Acts(m, s1, [generate]);
    var insert := FirstInserts(m, s2, t, req, i, now);
    actions := begin + [generate] + insert;
    ActsAppend(m, s, begin + [generate], insert);
    ActsAppend(m, s, begin, [generate]);
    SameThreads(s.threads, t, u, Creating(req, Prepare), Creating(req', Prepare), Creating(req', Claim(j, now)),
                Creating(req, Handover(i, now)));
  }

  lemma NothingRun(m: int)
    ensures After(m, []) == INIT
  {
  }

  // Such a race in a whole run: the second creator answers with the first one's id.
  lemma RaceAnswered(m: int, key: Key, now: int) returns (run: seq<Action>)
    ensures var s := After(m, run); var req := Request(Some(key), NORMAL, None);
      && s.rows == map["a" := Row(Some(key), NORMAL, Pending, 0)]
      && s.threads == map[0 := Creating(req, Handover("a", now)), 1 := Creating(req, Returned("a"))]
  {
    hide Acts, Next, After;
    var req := Request(Some(key), NORMAL, None);
    var race := TwoCreators(m, INIT, 0, 1, req, req, "a", "b", now);
    var s := RacedState(INIT, 0, 1, req, req, "a", "b", now);
    NothingRun(m);
    var answer := CreateClaimed(m, s, 1, req, "b", now);
    run := [] + race + answer;
    AfterActs(m, [], race);
    AfterActs(m, [] + race, answer);
  }
}
