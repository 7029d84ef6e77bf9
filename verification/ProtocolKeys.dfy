// Idempotency: all successful creations with one key return one id, whatever
// happens to the key in the store, and at most one send per key is accepted.

module ProtocolKeys {
  import opened Domain
  import opened Protocol
  import opened ProtocolTokens
  import opened ProtocolEnds

  ghost predicate RowOf(rows: map<Id, Row>, id: Id, key: Option<Key>) {
    id in rows && rows[id].key == key
  }

  // The id a creator works on was generated for it; the id it returns or is
  // about to return has a row under its own key.
  ghost predicate ThreadKeyed(rows: map<Id, Row>, issued: map<Id, Origin>, t: ThreadId, pc: Thread) {
    match pc
    case Creating(req, at) => (match at
      case Claim(id, _) => id in issued && issued[id] == Origin(req.key, t) && id !in rows
      case Insert(id, _) => id in issued && issued[id] == Origin(req.key, t) && id !in rows
      case Handover(id, _) => id in issued && issued[id] == Origin(req.key, t) && RowOf(rows, id, req.key)
      case MarkQueued(id) => id in issued && issued[id] == Origin(req.key, t) && RowOf(rows, id, req.key)
      case FetchClaimed(existing) => existing in issued && issued[existing].key == req.key
      case Returned(id) => RowOf(rows, id, req.key)
      case _ => true)
    case Working(item, at) => at.Fetch? || at.Requeue? || item.id in rows
    case _ => true
  }

  ghost predicate RowsKeyed(rows: map<Id, Row>, issued: map<Id, Origin>) {
    && (forall id :: id in rows ==> id in issued && rows[id].key == issued[id].key)
    && (forall i, j :: i in rows && j in rows && rows[i].key.Some? && rows[i].key == rows[j].key ==> i == j)
  }

  ghost predicate KeysInv(s: State) {
    && RowsKeyed(s.rows, s.issued)
    && (forall k :: k in s.keys ==> s.keys[k] in s.issued && s.issued[s.keys[k]].key == Some(k))
    && (forall t :: t in s.threads ==> ThreadKeyed(s.rows, s.issued, t, s.threads[t]))
    && (forall i :: 0 <= i < |s.log| && s.log[i].Sent? ==> s.log[i].id in s.rows)
  }

  // What the turn of a keyed thread may write.
  ghost predicate KeyedTurn(s: State, t: ThreadId, turn: Turn) {
    match turn.command
    case Generate(id, origin) => id !in s.issued
    case SetKey(key, id) => id in s.issued && s.issued[id].key == Some(key)
    case InsertRow(id, row) =>
      id in s.issued && s.issued[id] == Origin(row.key, t) && id !in s.rows && !KeyTaken(s.rows, row.key)
    case Say(Sent(id, _)) => id in s.rows
    case _ => true
  }

  ghost predicate StaysKeyed(s: State, t: ThreadId, turn: Turn) {
    && KeyedTurn(s, t, turn)
    && ThreadKeyed(RowsAfter(s.rows, turn.command), Exec(s, turn.command).issued, t, turn.next)
  }

  lemma CreatorKeyed(s: State, t: ThreadId, req: Request, at: CreatePoint, c: Choice)
    requires KeysInv(s) && t in s.threads && s.threads[t] == Creating(req, at)
    ensures StaysKeyed(s, t, CreatorTurn(s, t, req, at, c))
  {
    assert ThreadKeyed(s.rows, s.issued, t, s.threads[t]);
  }

  lemma WorkerKeyed(maxAttempts: int, s: State, t: ThreadId, item: QueueItem, at: WorkPoint, c: Choice)
    requires KeysInv(s) && t in s.threads && s.threads[t] == Working(item, at)
    ensures StaysKeyed(s, t, WorkerTurn(maxAttempts, s, item, at, c))
  {
    hide RowsKeyed;
    assert ThreadKeyed(s.rows, s.issued, t, s.threads[t]);
  }

  // A thread that begins, a promoter and a canceller write nothing that is keyed.
  lemma OtherKeyed(maxAttempts: int, s: State, a: Action)
    requires KeysInv(s) && !a.ExpireKey?
    requires a.t in s.threads ==> !a.Advance? || !(s.threads[a.t].Creating? || s.threads[a.t].Working?)
    ensures StaysKeyed(s, a.t, TurnOf(maxAttempts, s, a))
  {
    hide Lists, RowsKeyed, CreatorTurn, WorkerTurn, KeyTaken;
    if a.t in s.threads {
      assert ThreadKeyed(s.rows, s.issued, a.t, s.threads[a.t]);
    }
  }

  lemma TurnKeyed(maxAttempts: int, s: State, a: Action)
    requires KeysInv(s) && !a.ExpireKey?
    ensures StaysKeyed(s, a.t, TurnOf(maxAttempts, s, a))
  {
    hide KeysInv, StaysKeyed, CreatorTurn, WorkerTurn, PromoterTurn, CancellerTurn, FirstTurn;
    if a.Advance? && a.t in s.threads && s.threads[a.t].Creating? {
      CreatorKeyed(s, a.t, s.threads[a.t].req, s.threads[a.t].create, a.c);
    } else if a.Advance? && a.t in s.threads && s.threads[a.t].Working? {
      WorkerKeyed(maxAttempts, s, a.t, s.threads[a.t].item, s.threads[a.t].work, a.c);
    } else {
      OtherKeyed(maxAttempts, s, a);
    }
  }

  // Rows and origins only grow, and no command changes a row's key.
  lemma OthersStayKeyed(s: State, t: ThreadId, turn: Turn, u: ThreadId)
    requires KeysInv(s) && KeyedTurn(s, t, turn) && u in s.threads && u != t
    ensures var s' := Exec(s, turn.command); ThreadKeyed(s'.rows, s'.issued, u, s.threads[u])
  {
    hide KeyTaken;
  }

  lemma RowsStayKeyed(s: State, t: ThreadId, turn: Turn)
    requires KeysInv(s) && KeyedTurn(s, t, turn)
    ensures var s' := Exec(s, turn.command); RowsKeyed(s'.rows, s'.issued)
  {
  }

  lemma NextKeepsKeys(maxAttempts: int, s: State, a: Action)
    requires KeysInv(s)
    ensures KeysInv(Next(maxAttempts, s, a))
  {
    hide ThreadKeyed, RowsKeyed, TurnOf, KeyTaken;
    if !a.ExpireKey? {
      var turn := TurnOf(maxAttempts, s, a);
      TurnKeyed(maxAttempts, s, a);
      RowsStayKeyed(s, a.t, turn);
      forall u | u in s.threads && u != a.t
        ensures ThreadKeyed(Exec(s, turn.command).rows, Exec(s, turn.command).issued, u, s.threads[u])
      {
        OthersStayKeyed(s, a.t, turn, u);
      }
    }
  }

  lemma {:induction false} ReachableKeys(maxAttempts: int, run: seq<Action>)
    ensures KeysInv(After(maxAttempts, run))
  {
    hide Next;
    if run != [] {
      ReachableKeys(maxAttempts, run[..|run| - 1]);
      NextKeepsKeys(maxAttempts, After(maxAttempts, run[..|run| - 1]), run[|run| - 1]);
    }
  }

  // All calls with the same key that return without error return the same id,
  // and that id has the one row with the key. Keys may expire at any moment and
  // any caller may have stopped half-way.
  lemma SameKeySameId(maxAttempts: int, run: seq<Action>, t: ThreadId, u: ThreadId, req: Request, req': Request,
      i: Id, j: Id)
    requires var s := After(maxAttempts, run);
      && t in s.threads && s.threads[t] == Creating(req, Returned(i))
      && u in s.threads && s.threads[u] == Creating(req', Returned(j))
    requires req.key.Some? && req.key == req'.key
    ensures var rows := After(maxAttempts, run).rows;
      i == j && i in rows && rows[i].key == req.key && forall id :: id in rows && rows[id].key == req.key ==> id == i
  {
    hide After;
    ReachableKeys(maxAttempts, run);
    ReturnedIsOnly(After(maxAttempts, run), t, req, i);
    ReturnedIsOnly(After(maxAttempts, run), u, req', j);
  }

  lemma ReturnedIsOnly(s: State, t: ThreadId, req: Request, i: Id)
    requires KeysInv(s) && t in s.threads && s.threads[t] == Creating(req, Returned(i)) && req.key.Some?
    ensures i in s.rows && s.rows[i].key == req.key
    ensures forall id :: id in s.rows && s.rows[id].key == req.key ==> id == i
  {
    assert ThreadKeyed(s.rows, s.issued, t, s.threads[t]);
  }

  // Per idempotency key at most one send is ever accepted.
  lemma AtMostOneAcceptancePerKey(maxAttempts: int, run: seq<Action>, i: nat, j: nat)
    requires var log := After(maxAttempts, run).log;
      i < |log| && j < |log| && log[i].Sent? && log[i].accepted && log[j].Sent? && log[j].accepted
    ensures var s := After(maxAttempts, run);
      && s.log[i].id in s.rows && s.log[j].id in s.rows
      && (s.rows[s.log[i].id].key.Some? && s.rows[s.log[i].id].key == s.rows[s.log[j].id].key ==> i == j)
  {
    ReachableKeys(maxAttempts, run);
    var s := After(maxAttempts, run);
    if s.rows[s.log[i].id].key.Some? && s.rows[s.log[i].id].key == s.rows[s.log[j].id].key {
      AtMostOneAcceptance(maxAttempts, run, i, j, s.log[i].id);
    }
  }
}
