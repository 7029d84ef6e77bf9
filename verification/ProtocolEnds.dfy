// A provider's acceptance or a dead-letter push ends a notification: nothing is
// sent or dead-lettered for it afterwards.

module ProtocolEnds {
  import opened Domain
  import opened Protocol
  import opened ProtocolTokens

  predicate Ends(e: Event, id: Id) {
    e == Sent(id, true) || e == Dead(id)
  }

  predicate Ended(log: seq<Event>, id: Id) {
    exists i :: 0 <= i < |log| && Ends(log[i], id)
  }

  // A worker whose send was accepted or whose item was dead-lettered.
  predicate Spent(pc: Thread) {
    pc.Working? && (pc.work.RecordAccepted? || pc.work.MarkDelivered? || pc.work.PublishDelivered?
                    || pc.work.MarkFailed? || pc.work.PublishFailed?)
  }

  ghost predicate NotStored(s: State, id: Id) {
    && (forall x :: x in s.queue ==> x.id != id)
    && (forall x :: x in s.retry ==> x.id != id)
    && (forall x :: x in s.scheduled ==> x.id != id)
  }

  // An ended id has no token left, except in the hands of a worker that can no
  // longer send.
  ghost predicate EndsInv(s: State) {
    forall id :: Ended(s.log, id) ==>
      && id in s.issued
      && NotStored(s, id)
      && (forall t :: t in s.threads && Held(s.threads[t]) == Some(id) ==> Spent(s.threads[t]))
  }

  // No event about sending or dead-lettering an id follows one that ended it.
  ghost predicate EndsOnce(log: seq<Event>) {
    forall i, j, id :: 0 <= i < j < |log| && Ends(log[i], id) ==>
      log[j] != Sent(id, true) && log[j] != Sent(id, false) && log[j] != Dead(id)
  }

  function HeldBy(s: State, t: ThreadId): Option<Id> {
    if t in s.threads then Held(s.threads[t]) else None
  }

  // Only a thread that is not spent sends, dead-letters or stores a token, and a
  // spent thread stays so for as long as it holds its id.
  ghost predicate Proper(s: State, t: ThreadId, turn: Turn) {
    var spent := t in s.threads && Spent(s.threads[t]);
    && (match turn.command
        case Say(Sent(id, ok)) => HeldBy(s, t) == Some(id) && !spent && Held(turn.next) == Some(id) && (ok ==>
            Spent(turn.next))
        case Say(Dead(id)) => HeldBy(s, t) == Some(id) && !spent && Held(turn.next) == Some(id) && Spent(turn.next)
        case Push(_) => !spent
        case Add(_, _, _) => !spent
        case _ => true)
    && (spent && Held(turn.next).Some? ==> Spent(turn.next) && HeldBy(s, t) == Held(turn.next))
  }

  lemma TurnProper(maxAttempts: int, s: State, a: Action)
    requires !a.ExpireKey?
    ensures Proper(s, a.t, TurnOf(maxAttempts, s, a))
  {
    hide Lists, KeyTaken;
  }

  lemma EndedGrows(log: seq<Event>, e: Event, id: Id)
    ensures Ended(log + [e], id) <==> Ended(log, id) || Ends(e, id)
  {
    if Ended(log, id) {
      var i :| 0 <= i < |log| && Ends(log[i], id);
      assert (log + [e])[i] == log[i];
    }
    if Ends(e, id) {
      assert (log + [e])[|log|] == e;
    }
  }

  // The holder of an id is the only place its token is.
  lemma HolderIsAlone(s: State, t: ThreadId, id: Id, loc: map<Id, Place>)
    requires Owns(s, loc) && HeldBy(s, t) == Some(id)
    ensures id in s.issued && NotStored(s, id)
    ensures forall t' :: t' in s.threads && Held(s.threads[t']) == Some(id) ==> t' == t
  {
  }

  lemma SayKeepsEnds(s: State, t: ThreadId, turn: Turn, loc: map<Id, Place>)
    requires Owns(s, loc) && EndsInv(s) && EndsOnce(s.log) && turn.command.Say?
    requires Fits(s, t, turn) && Proper(s, t, turn)
    ensures var s' := Exec(s, turn.command).(threads := s.threads[t := turn.next]); EndsInv(s') && EndsOnce(s'.log)
  {
    hide Account;
    var e := turn.command.event;
    var s' := Exec(s, turn.command).(threads := s.threads[t := turn.next]);
    if e.Sent? || e.Dead? {
      HolderIsAlone(s, t, e.id, loc);
      assert !Ended(s.log, e.id);
    }
    forall id | Ended(s'.log, id)
      ensures id in s'.issued && NotStored(s', id)
      ensures forall u :: u in s'.threads && Held(s'.threads[u]) == Some(id) ==> Spent(s'.threads[u])
    {
      EndedGrows(s.log, e, id);
    }
    assert forall id :: Ends(e, id) ==> !Ended(s.log, id);
    assert EndsOnce(s'.log);
  }

  // What a command can add to the stores.
  lemma StoredAfter(s: State, c: Command)
    ensures forall x :: x in Exec(s, c).queue ==> x in s.queue || c == Push(x)
    ensures forall x :: x in Exec(s, c).retry || x in Exec(s, c).scheduled ==>
              x in s.retry || x in s.scheduled || (c.Add? && c.item == x)
    ensures forall id :: id in s.issued ==> id in Exec(s, c).issued
  {
  }

  // An id that is stored nowhere and held only by spent threads stays that way.
  lemma StaysUnstored(s: State, t: ThreadId, turn: Turn, id: Id)
    requires NotStored(s, id) && id in s.issued && (HeldBy(s, t) == Some(id) ==> Spent(s.threads[t]))
    requires !turn.command.Say? && Fits(s, t, turn) && Proper(s, t, turn)
    ensures var s' := Exec(s, turn.command).(threads := s.threads[t := turn.next]);
      NotStored(s', id) && id in s'.issued && (Held(turn.next) == Some(id) ==> Spent(turn.next))
  {
    hide Exec;
    StoredAfter(s, turn.command);
  }

  lemma StoresKeepEnds(s: State, t: ThreadId, turn: Turn)
    requires EndsInv(s) && !turn.command.Say? && Fits(s, t, turn) && Proper(s, t, turn)
    ensures EndsInv(Exec(s, turn.command).(threads := s.threads[t := turn.next]))
  {
    hide Fits, Proper, NotStored, Exec;
    var s' := Exec(s, turn.command).(threads := s.threads[t := turn.next]);
    forall id | Ended(s'.log, id)
      ensures id in s'.issued && NotStored(s', id)
      ensures forall u :: u in s'.threads && Held(s'.threads[u]) == Some(id) ==> Spent(s'.threads[u])
    {
      SameEnds(s, turn.command, id);
      StaysUnstored(s, t, turn, id);
    }
  }

  lemma SameEnds(s: State, c: Command, id: Id)
    requires !c.Say?
    ensures Ended(Exec(s, c).log, id) == Ended(s.log, id)
    ensures EndsOnce(s.log) ==> EndsOnce(Exec(s, c).log)
  {
    if c.UpdateRow? {
      EndedGrows(s.log, Wrote(c.id, c.status, c.writer), id);
    }
  }

  lemma NextKeepsEnds(maxAttempts: int, s: State, a: Action, loc: map<Id, Place>)
    requires Owns(s, loc) && EndsInv(s) && EndsOnce(s.log)
    ensures var s' := Next(maxAttempts, s, a); EndsInv(s') && EndsOnce(s'.log)
  {
    hide Account, Fits, Proper, TurnOf, EndsOnce;
    if !a.ExpireKey? {
      var turn := TurnOf(maxAttempts, s, a);
      TurnFits(maxAttempts, s, a);
      TurnProper(maxAttempts, s, a);
      if turn.command.Say? {
        SayKeepsEnds(s, a.t, turn, loc);
      } else {
        StoresKeepEnds(s, a.t, turn);
        SameEnds(s, turn.command, "");
      }
    }
  }

  lemma {:induction false} ReachableEnds(maxAttempts: int, run: seq<Action>) returns (loc: map<Id, Place>)
    ensures var s := After(maxAttempts, run); Owns(s, loc) && EndsInv(s) && EndsOnce(s.log)
  {
    hide Account, Next;
    if run == [] {
      loc := map[];
      InitOwns();
    } else {
      var before := ReachableEnds(maxAttempts, run[..|run| - 1]);
      loc := NextOwns(maxAttempts, After(maxAttempts, run[..|run| - 1]), run[|run| - 1], before);
      NextKeepsEnds(maxAttempts, After(maxAttempts, run[..|run| - 1]), run[|run| - 1], before);
    }
  }

  // In every run, once an id was accepted or dead-lettered nothing more is sent
  // or dead-lettered for it.
  lemma NothingAfterEnd(maxAttempts: int, run: seq<Action>, i: nat, j: nat, id: Id)
    requires i < j < |After(maxAttempts, run).log| && Ends(After(maxAttempts, run).log[i], id)
    ensures !(After(maxAttempts, run).log[j].Sent? && After(maxAttempts, run).log[j].id == id)
    ensures After(maxAttempts, run).log[j] != Dead(id)
  {
    hide After, Account, EndsInv;
    var _ := ReachableEnds(maxAttempts, run);
  }

  // Hence at most one send of an id is ever accepted, and an accepted id is
  // never dead-lettered.
  lemma AtMostOneAcceptance(maxAttempts: int, run: seq<Action>, i: nat, j: nat, id: Id)
    requires i < |After(maxAttempts, run).log| && Ends(After(maxAttempts, run).log[i], id)
    requires j < |After(maxAttempts, run).log| && Ends(After(maxAttempts, run).log[j], id)
    ensures i == j
  {
    if i < j {
      NothingAfterEnd(maxAttempts, run, i, j, id);
    } else if j < i {
      NothingAfterEnd(maxAttempts, run, j, i, id);
    }
  }
}
