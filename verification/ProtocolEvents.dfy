// The published events of one id: one `sending` per started send, then at most
// one `delivered` or `failed`, and nothing after that.

module ProtocolEvents {
  import opened Domain
  import opened Protocol
  import opened ProtocolTokens
  import opened ProtocolEnds

  function StatusesLogged(log: seq<Event>, id: Id): seq<Status> {
    if log == [] then []
    else
      var e := log[|log| - 1];
      StatusesLogged(log[..|log| - 1], id) + if e.Published? && e.id == id then [e.status] else []
  }

  function SendsLogged(log: seq<Event>, id: Id): nat {
    if log == [] then 0
    else
      var e := log[|log| - 1];
      SendsLogged(log[..|log| - 1], id) + if e.Sent? && e.id == id then 1 else 0
  }

  predicate AllSending(ss: seq<Status>) {
    forall i :: 0 <= i < |ss| ==> ss[i] == Sending
  }

  predicate CallsFor(pc: Thread, id: Id) {
    pc.Working? && pc.work.CallProvider? && pc.item.id == id
  }

  // A thread has announced a send of id and has not heard from the provider.
  ghost predicate Calling(s: State, id: Id) {
    exists t :: t in s.threads && CallsFor(s.threads[t], id)
  }

  predicate AfterSend(pc: Thread) {
    pc.Working? && (pc.work.RecordAccepted? || pc.work.MarkDelivered? || pc.work.PublishDelivered?
                    || pc.work.RecordRejected? || pc.work.PushDead? || pc.work.MarkFailed? || pc.work.PublishFailed?)
  }

  predicate OpenStory(ss: seq<Status>, sends: nat, calling: bool) {
    AllSending(ss) && |ss| == sends + if calling then 1 else 0
  }

  predicate ClosedStory(ss: seq<Status>, sends: nat) {
    && 1 <= sends && |ss| == sends + 1
    && AllSending(ss[..sends])
    && (ss[sends] == Delivered || ss[sends] == Failed)
  }

  ghost predicate NoToken(s: State, id: Id) {
    id in s.issued && NotStored(s, id) && forall t :: t in s.threads ==> Held(s.threads[t]) != Some(id)
  }

  ghost predicate Story(s: State, id: Id) {
    var ss := StatusesLogged(s.log, id);
    var sends := SendsLogged(s.log, id);
    OpenStory(ss, sends, Calling(s, id)) || (ClosedStory(ss, sends) && NoToken(s, id))
  }

  ghost predicate StoriesInv(s: State) {
    && (forall id :: Story(s, id))
    && (forall t :: t in s.threads && AfterSend(s.threads[t]) ==> SendsLogged(s.log, s.threads[t].item.id) >= 1)
  }

  // How the events of a turn go with the thread's position.
  ghost predicate StoryTurn(s: State, t: ThreadId, turn: Turn) {
    var pc := if t in s.threads then s.threads[t] else Stopped;
    match turn.command
    case Say(Published(id, Sending)) => Held(pc) == Some(id) && !CallsFor(pc, id) && CallsFor(turn.next, id)
    case Say(Sent(id, _)) => CallsFor(pc, id) && AfterSend(turn.next) && turn.next.item.id == id
    case Say(Published(id, status)) =>
      AfterSend(pc) && Held(pc) == Some(id) && (status == Delivered || status == Failed) && Held(turn.next) == None
    case _ =>
      && (AfterSend(turn.next) ==> AfterSend(pc) && pc.item == turn.next.item)
      && (turn.next.Working? && turn.next.work.CallProvider? ==> turn.next == pc)
      && (pc.Working? && pc.work.CallProvider? ==> turn.next == pc)
  }

  lemma TurnStory(maxAttempts: int, s: State, a: Action)
    requires !a.ExpireKey?
    ensures StoryTurn(s, a.t, TurnOf(maxAttempts, s, a))
  {
    hide Lists, KeyTaken;
  }

  // What a command adds to the story of id.
  lemma StoryAfter(log: seq<Event>, c: Command, id: Id)
    ensures StatusesLogged(LogAfter(log, c), id) ==
            StatusesLogged(log, id) + if c.Say? && c.event.Published? && c.event.id == id then [c.event.status] else []
    ensures SendsLogged(LogAfter(log, c), id) ==
            SendsLogged(log, id) + if c.Say? && c.event.Sent? && c.event.id == id then 1 else 0
  {
    var log' := LogAfter(log, c);
    if |log'| > |log| {
      assert log'[..|log'| - 1] == log;
    }
  }

  lemma NoTokenStays(s: State, t: ThreadId, turn: Turn, id: Id)
    requires NoToken(s, id) && Fits(s, t, turn)
    ensures NoToken(Exec(s, turn.command).(threads := s.threads[t := turn.next]), id)
  {
    hide Exec;
    StoredAfter(s, turn.command);
    ThreadsUntouched(s, turn.command);
  }

  lemma ThreadsUntouched(s: State, c: Command)
    ensures Exec(s, c).threads == s.threads
  {
  }

  // Only thread t's own position matters to whether its id is being sent.
  lemma CallingAfter(s: State, s': State, t: ThreadId, pc': Thread, loc: map<Id, Place>, id: Id)
    requires Owns(s, loc) && s'.threads == s.threads[t := pc']
    ensures HeldBy(s, t) == Some(id) ==>
              (Calling(s, id) <==> CallsFor(s.threads[t], id)) && (Calling(s', id) <==> CallsFor(pc', id))
    ensures HeldBy(s, t) != Some(id) && !CallsFor(pc', id) ==> (Calling(s', id) <==> Calling(s, id))
  {
    hide Account;
    if HeldBy(s, t) == Some(id) {
      HolderIsAlone(s, t, id, loc);
      assert t in s'.threads;
    } else if Calling(s, id) {
      var u :| u in s.threads && CallsFor(s.threads[u], id);
      assert u != t && CallsFor(s'.threads[u], id);
    }
  }

  lemma LastTokenGone(s: State, t: ThreadId, turn: Turn, loc: map<Id, Place>, id: Id)
    requires Owns(s, loc) && HeldBy(s, t) == Some(id) && Held(turn.next) == None && turn.command.Say?
    ensures NoToken(Exec(s, turn.command).(threads := s.threads[t := turn.next]), id)
  {
    hide Account;
    HolderIsAlone(s, t, id, loc);
  }

  lemma NoTokenNotHeld(s: State, t: ThreadId, id: Id)
    requires NoToken(s, id)
    ensures HeldBy(s, t) != Some(id)
  {
  }

  lemma StoryGrows(ss: seq<Status>, sends: nat, status: Status)
    ensures OpenStory(ss, sends, false) ==> OpenStory(ss + [Sending], sends, true)
    ensures OpenStory(ss, sends, true) ==> OpenStory(ss, sends + 1, false)
    ensures OpenStory(ss, sends, false) && 1 <= sends && (status == Delivered || status == Failed) ==>
              ClosedStory(ss + [status], sends)
    ensures ss + [] == ss
  {
    assert |ss| == sends ==> (ss + [status])[..sends] == ss;
  }

  lemma OpenStoryKept(s: State, t: ThreadId, turn: Turn, loc: map<Id, Place>, id: Id)
    requires Owns(s, loc) && StoriesInv(s) && Fits(s, t, turn) && StoryTurn(s, t, turn)
    requires OpenStory(StatusesLogged(s.log, id), SendsLogged(s.log, id), Calling(s, id))
    ensures Story(Exec(s, turn.command).(threads := s.threads[t := turn.next]), id)
  {
    hide Account, NoToken, Calling, Fits, QueueAfter, MembersAfter, RowsAfter, LogAfter, OpenStory, ClosedStory,
      StatusesLogged, SendsLogged, Story;
    var s' := Exec(s, turn.command).(threads := s.threads[t := turn.next]);
    StoryAfter(s.log, turn.command, id);
    CallingAfter(s, s', t, turn.next, loc, id);
    var status := if turn.command.Say? && turn.command.event.Published? then turn.command.event.status else Sending;
    StoryGrows(StatusesLogged(s.log, id), SendsLogged(s.log, id), status);
    if turn.command.Say? && turn.command.event.id == id && status != Sending {
      LastTokenGone(s, t, turn, loc, id);
      assert ClosedStory(StatusesLogged(s'.log, id), SendsLogged(s'.log, id));
    } else {
      assert OpenStory(StatusesLogged(s'.log, id), SendsLogged(s'.log, id), Calling(s', id));
    }
    StoryIs(s', id);
  }

  lemma StoryIs(s: State, id: Id)
    ensures Story(s, id) <==>
      || OpenStory(StatusesLogged(s.log, id), SendsLogged(s.log, id), Calling(s, id))
      || (ClosedStory(StatusesLogged(s.log, id), SendsLogged(s.log, id)) && NoToken(s, id))
  {
  }

  lemma TurnKeepsStory(s: State, t: ThreadId, turn: Turn, loc: map<Id, Place>, id: Id)
    requires Owns(s, loc) && StoriesInv(s) && Fits(s, t, turn) && StoryTurn(s, t, turn)
    ensures Story(Exec(s, turn.command).(threads := s.threads[t := turn.next]), id)
  {
    hide Account, NoToken, Calling, Fits, QueueAfter, MembersAfter, RowsAfter, LogAfter, OpenStory, ClosedStory,
      StatusesLogged, SendsLogged;
    assert Story(s, id);
    if NoToken(s, id) && ClosedStory(StatusesLogged(s.log, id), SendsLogged(s.log, id)) {
      StoryAfter(s.log, turn.command, id);
      StoryGrows(StatusesLogged(s.log, id), SendsLogged(s.log, id), Sending);
      NoTokenNotHeld(s, t, id);
      NoTokenStays(s, t, turn, id);
    } else {
      OpenStoryKept(s, t, turn, loc, id);
    }
  }

  lemma SendsKept(s: State, t: ThreadId, turn: Turn)
    requires StoriesInv(s) && StoryTurn(s, t, turn)
    ensures var s' := Exec(s, turn.command).(threads := s.threads[t := turn.next]);
      forall u :: u in s'.threads && AfterSend(s'.threads[u]) ==> SendsLogged(s'.log, s'.threads[u].item.id) >= 1
  {
    hide Story;
    var s' := Exec(s, turn.command).(threads := s.threads[t := turn.next]);
    forall u | u in s'.threads && AfterSend(s'.threads[u])
      ensures SendsLogged(s'.log, s'.threads[u].item.id) >= 1
    {
      StoryAfter(s.log, turn.command, s'.threads[u].item.id);
    }
  }

  lemma NextKeepsStories(maxAttempts: int, s: State, a: Action, loc: map<Id, Place>)
    requires Owns(s, loc) && StoriesInv(s)
    ensures StoriesInv(Next(maxAttempts, s, a))
  {
    hide Account, Fits, StoryTurn, TurnOf;
    if a.ExpireKey? {
      forall id ensures Story(Next(maxAttempts, s, a), id) {
        assert Story(s, id);
      }
    } else {
      TurnFits(maxAttempts, s, a);
      TurnStory(maxAttempts, s, a);
      var turn := TurnOf(maxAttempts, s, a);
      SendsKept(s, a.t, turn);
      forall id ensures Story(Next(maxAttempts, s, a), id) {
        TurnKeepsStory(s, a.t, turn, loc, id);
      }
    }
  }

  lemma {:induction false} ReachableStories(maxAttempts: int, run: seq<Action>) returns (loc: map<Id, Place>)
    ensures Owns(After(maxAttempts, run), loc) && StoriesInv(After(maxAttempts, run))
  {
    hide Account, Next;
    if run == [] {
      loc := map[];
      InitOwns();
    } else {
      var before := ReachableStories(maxAttempts, run[..|run| - 1]);
      loc := NextOwns(maxAttempts, After(maxAttempts, run[..|run| - 1]), run[|run| - 1], before);
      NextKeepsStories(maxAttempts, After(maxAttempts, run[..|run| - 1]), run[|run| - 1], before);
    }
  }

  // In every run the events of an id are `sending` once per started send, one
  // more if a send is announced and unanswered; or, for an id that no thread and
  // no store can bring back, once per send followed by one `delivered` or `failed`.
  lemma EventGrammar(maxAttempts: int, run: seq<Action>, id: Id)
    ensures var s := After(maxAttempts, run);
      var ss := StatusesLogged(s.log, id);
      var sends := SendsLogged(s.log, id);
      || (AllSending(ss) && |ss| == sends + if Calling(s, id) then 1 else 0)
      || (1 <= sends && |ss| == sends + 1 && AllSending(ss[..sends])
          && (ss[sends] == Delivered || ss[sends] == Failed)
          && forall p :: !TokenAt(s, id, p))
  {
    hide Account, StatusesLogged, SendsLogged, Calling;
    var _ := ReachableStories(maxAttempts, run);
    var s := After(maxAttempts, run);
    assert Story(s, id);
    if NoToken(s, id) {
      forall p ensures !TokenAt(s, id, p) {
        if p.InQueue? {
          assert QueueItem(id, p.priority) !in s.queue;
        }
      }
    }
  }
}
