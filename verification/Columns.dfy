// What is stored in a row and sent from it: a create fills the columns from its
// input and the rendered template, no later step changes them, and they are what
// every provider call and every published event of the notification carries.

module Columns {
  import opened Domain
  import opened DelayedSet
  import opened UseCases
  import opened Lifecycle
  import opened Guarantees
  import opened Observed
  import PQ = PriorityQueue
  import T = Template

  // ---- a new row ----

  // The content is the input's or what the template renders to.
  ghost predicate IsContent(cfg: Config, input: Input, content: string) {
    match input.template
    case None => content == input.content
    case Some(t) => t in cfg.templates && T.Render(cfg.templates[t], input.variables) == T.Text(content)
  }

  // The row has what the input asks for in every column that it fills.
  ghost predicate FromInput(cfg: Config, input: Input, n: Notification) {
    && n.channel == input.channel && n.recipient == input.recipient && IsContent(cfg, input, n.content)
    && n.priority == (if input.priority == "" then "normal" else input.priority)
    && n.template == input.template && n.key == input.key
    && n.scheduledAt == input.scheduledAt && n.batch == input.batch
  }

  lemma DraftIs(cfg: Config, input: Input)
    ensures Content(cfg, input).Ok? ==>
              var n := Draft(input, Content(cfg, input).value);
              FromInput(cfg, input, n) && n.status == Pending && n.attempts == 0
              && n.lastError == None && n.providerId == None
  {
    hide T.Render;
  }

  // The item waits for its second or is queued behind those of its priority.
  predicate HandedOver(w: World, w': World, id: Id, n: Notification) {
    if n.scheduledAt.Some? && w.now < n.scheduledAt.value then
      && n.status == Pending && w'.lists == w.lists
      && Entry(Unix(n.scheduledAt.value), n.priority + "|" + id) in w'.scheduled
    else
      && n.status == Queued && w'.scheduled == w.scheduled
      && w'.lists == w.lists[n.priority := [id] + PQ.ListOf(w.lists, n.priority)]
  }

  lemma StoredIs(w: World, id: Id, n: Notification)
    requires Ranked(w.scheduled) && n.status == Pending && n.attempts == 0 && n.lastError == None
    ensures var w' := Stored(w, id, n);
      && id in w'.rows && w'.rows == w.rows[id := w'.rows[id]]
      && w'.rows[id] == n.(status := w'.rows[id].status) && HandedOver(w, w', id, w'.rows[id])
      && w'.keys == w.keys
  {
    hide Ranked, Added;
    if Deferred(w, n) {
      AddKeepsRanked(w.scheduled, QueueItem(id, n.priority), n.scheduledAt.value);
    }
  }

  // A create that adds a row answers with it and leases its key for a day; the row has
  // every column from the input, no attempts, error or provider id, and no other row
  // is touched.
  lemma CreateStores(cfg: Config, w: World, input: Input, id: Id)
    requires Ranked(w.scheduled) && id !in w.rows && id in Created(cfg, w, input, id).0.rows
    ensures var (w', r) := Created(cfg, w, input, id); var n := w'.rows[id];
      && r == Ok((id, n)) && w'.rows == w.rows[id := n]
      && FromInput(cfg, input, n) && n.attempts == 0 && n.lastError == None && n.providerId == None
      && HandedOver(w, w', id, n)
      && w'.keys == (if input.key.Some? then w.keys[input.key.value := Lease(id, w.now + 86_400 * SECOND)] else w.keys)
  {
    hide Ranked, Content, Draft, Validates, Stored, FromInput;
    DraftIs(cfg, input);
    var n := Draft(input, Content(cfg, input).value);
    StoredIs(WithLease(w, n.key, id), id, n);
    StoredAnswers(WithLease(w, n.key, id), id, n);
    FromInputKept(cfg, input, n, w, id);
    KeyOfDraft(input);
  }

  lemma StoredAnswers(w: World, id: Id, n: Notification)
    ensures id in Stored(w, id, n).rows && Stored(w, id, n).rows[id] == NewRow(w, n)
  {
  }

  lemma FromInputKept(cfg: Config, input: Input, n: Notification, w: World, id: Id)
    requires FromInput(cfg, input, n)
    ensures FromInput(cfg, input, NewRow(WithLease(w, n.key, id), n))
  {
    hide T.Render;
  }

  // ---- which inputs are accepted ----

  // The length a content may have.
  function Limit(channel: Channel): nat
    requires channel in {"sms", "email", "push"}
  {
    if channel == "sms" then 1600 else if channel == "email" then 100000 else 4000
  }

  ghost predicate Acceptable(cfg: Config, input: Input) {
    && input.channel in {"sms", "email", "push"}
    && input.priority in {"", "high", "normal", "low"}
    && input.recipient != ""
    && (input.template.None? ==> input.content != "")
    && exists content :: IsContent(cfg, input, content) && |content| <= Limit(input.channel)
  }

  lemma ContentIs(cfg: Config, input: Input)
    ensures match Content(cfg, input)
      case Ok(content) =>
        && (forall other :: IsContent(cfg, input, other) <==> other == content)
        && (input.template.Some? ==> input.template.value in cfg.templates)
      case Err(e) =>
        && (forall other :: !IsContent(cfg, input, other))
        && input.template.Some? && e == if input.template.value in cfg.templates then Invalid else NotFound
  {
    hide T.Render;
  }

  lemma ValidatesIs(cfg: Config, input: Input)
    requires Content(cfg, input).Ok?
    ensures Validates(Draft(input, Content(cfg, input).value)) <==> Acceptable(cfg, input)
  {
    hide Content, IsContent;
    ContentIs(cfg, input);
    var content := Content(cfg, input).value;
    assert IsContent(cfg, input, content);
    ContentOfInput(cfg, input, content);
  }

  lemma ContentOfInput(cfg: Config, input: Input, content: string)
    requires IsContent(cfg, input, content)
    ensures input.template.None? ==> content == input.content
  {
  }

  // Without a row under its key, a create is accepted exactly when its fields are in
  // range and its content can be had and is not too long; an unknown template is
  // not found, anything else is invalid.
  lemma CreateAccepts(cfg: Config, w: World, input: Input, id: Id)
    requires Inv(cfg, w) && id !in w.rows
    requires forall i :: i in w.rows && w.rows[i].key.Some? ==> w.rows[i].key != input.key
    ensures var (w', r) := Created(cfg, w, input, id);
      && (r.Ok? <==> Acceptable(cfg, input))
      && (r.Ok? ==> id in w'.rows)
      && (r.Err? ==> r.error == if input.template.Some? && input.template.value !in cfg.templates
                                then NotFound else Invalid)
  {
    hide Content, Draft, Validates, Stored, Acceptable, IsContent, Inv;
    NoLease(cfg, w, input);
    ContentIs(cfg, input);
    KeyOfDraft(input);
    if Content(cfg, input).Ok? {
      ValidatesIs(cfg, input);
      var n := Draft(input, Content(cfg, input).value);
      StoredAnswers(WithLease(w, n.key, id), id, n);
    } else {
      NotAcceptable(cfg, input);
    }
  }

  // In any state, consistent or not: a create whose key no row has but whose lease is
  // live answers the leased id's row, or not-found if it has none, and changes
  // nothing. Once the lease has run out, at its last instant, the create goes on.
  lemma CreateLeased(cfg: Config, w: World, input: Input, id: Id)
    requires Acceptable(cfg, input) && input.key.Some? && input.key.value in w.keys
    requires input.key.value !in w.index && id !in w.rows
    ensures var lease := w.keys[input.key.value]; var (w', r) := Created(cfg, w, input, id);
      if w.now < lease.expires then
        && w' == w
        && r == if lease.id in w.rows then Ok((lease.id, w.rows[lease.id])) else Err(NotFound)
      else id in w'.rows && r == Ok((id, w'.rows[id]))
  {
    hide Content, Draft, Validates, Stored, Acceptable, IsContent;
    ContentIs(cfg, input);
    KeyOfDraft(input);
    if Content(cfg, input).Ok? {
      ValidatesIs(cfg, input);
      var n := Draft(input, Content(cfg, input).value);
      StoredAnswers(WithLease(w, n.key, id), id, n);
    } else {
      NotAcceptable(cfg, input);
    }
  }

  lemma KeyOfDraft(input: Input)
    ensures forall content :: Draft(input, content).key == input.key
  {
  }

  lemma NotAcceptable(cfg: Config, input: Input)
    requires forall content :: !IsContent(cfg, input, content)
    ensures !Acceptable(cfg, input)
  {
    hide IsContent;
  }

  // A key that no row has is neither in the index nor leased.
  lemma NoLease(cfg: Config, w: World, input: Input)
    requires Inv(cfg, w)
    requires forall i :: i in w.rows && w.rows[i].key.Some? ==> w.rows[i].key != input.key
    ensures input.key.Some? ==> input.key.value !in w.index && input.key.value !in w.keys
  {
    hide TokensIn, ViewOf, Sound, Ranked, TokensMatch, Validates;
  }

  // ---- columns over time ----

  // Only status, attempts, error and provider id may differ.
  predicate SameColumns(n: Notification, n': Notification) {
    && n'.channel == n.channel && n'.recipient == n.recipient && n'.content == n.content
    && n'.template == n.template && n'.priority == n.priority && n'.key == n.key
    && n'.scheduledAt == n.scheduledAt && n'.batch == n.batch
  }

  predicate RowsKeep(w: World, w': World) {
    forall id :: id in w.rows ==> id in w'.rows && SameColumns(w.rows[id], w'.rows[id])
  }

  lemma ProcessKeepsColumns(cfg: Config, w: World, item: QueueItem, answer: Answer)
    ensures RowsKeep(w, Processed(cfg, w, item, answer))
  {
    hide VerdictOn, Processed;
    ProcessedRows(cfg, w, item, answer);
  }

  lemma NextKeepsColumns(cfg: Config, w: World, step: Step)
    ensures RowsKeep(w, Next(cfg, w, step))
  {
    hide Created, Processed, PQ.Purged, Kept, PQ.Front, PQ.Popped, PushedAll, DueCount;
    if step.Create? {
      CreatedRows(cfg, w, step.input, step.id);
    } else if step.Process? {
      ProcessKeepsColumns(cfg, w, step.item, step.answer);
    }
  }

  // Whatever runs, a row stays and keeps all columns that its create filled.
  lemma {:induction false} RunKeepsColumns(cfg: Config, w: World, steps: seq<Step>)
    ensures RowsKeep(w, Run(cfg, w, steps))
  {
    hide Next;
    if steps != [] {
      RunKeepsColumns(cfg, w, steps[..|steps| - 1]);
      NextKeepsColumns(cfg, Run(cfg, w, steps[..|steps| - 1]), steps[|steps| - 1]);
    }
  }

  // The notification a step is about.
  function Subject(step: Step): Option<Id> {
    match step
    case Create(_, id) => Some(id)
    case Process(item, _) => Some(item.id)
    case Cancel(id) => Some(id)
    case _ => None
  }

  // A step leaves the rows of all other notifications as they are.
  lemma OtherRowsStay(cfg: Config, w: World, step: Step, id: Id)
    requires id in w.rows && Subject(step) != Some(id)
    ensures id in Next(cfg, w, step).rows && Next(cfg, w, step).rows[id] == w.rows[id]
  {
    hide Created, PQ.Purged, Kept, PQ.Front, PQ.Popped, PushedAll, DueCount, Processed, VerdictOn, RowAfter;
    if step.Create? {
      CreatedRows(cfg, w, step.input, step.id);
    } else if step.Process? && step.item in w.hands {
      ProcessedRows(cfg, w, step.item, step.answer);
    }
  }

  // ---- provider calls and events carry the columns ----

  predicate Carries(rows: map<Id, Notification>, c: ProviderCall) {
    && c.id in rows && c.channel == rows[c.id].channel
    && c.recipient == rows[c.id].recipient && c.content == rows[c.id].content
  }

  predicate Names(rows: map<Id, Notification>, e: StatusEvent) {
    e.id in rows && e.batch == rows[e.id].batch
  }

  predicate LogsCarry(w: World) {
    && (forall i :: 0 <= i < |w.sends| ==> Carries(w.rows, w.sends[i]))
    && (forall i :: 0 <= i < |w.events| ==> Names(w.rows, w.events[i]))
  }

  lemma RowsStillCarry(w: World, w': World)
    requires LogsCarry(w) && RowsKeep(w, w') && w'.sends == w.sends && w'.events == w.events
    ensures LogsCarry(w')
  {
  }

  lemma ProcessedLogs(cfg: Config, w: World, item: QueueItem, answer: Answer)
    ensures var w', v := Processed(cfg, w, item, answer), VerdictOn(cfg, w, item, answer);
      if item.id in w.rows && Sends(v) then
        && w'.sends == w.sends + [CallFor(item.id, w.rows[item.id], answer)]
        && w'.events == w.events + EventsAfter(item.id, w.rows[item.id], v)
      else w'.sends == w.sends && w'.events == w.events
  {
    hide VerdictOn, RetryAfter, MetricAfter, EventsAfter, RowAfter, CallFor, RateLimit.Bumped;
  }

  lemma ProcessCarries(cfg: Config, w: World, item: QueueItem, answer: Answer)
    requires LogsCarry(w)
    ensures LogsCarry(Processed(cfg, w, item, answer))
  {
    hide VerdictOn, Processed;
    ProcessedLogs(cfg, w, item, answer);
    ProcessKeepsColumns(cfg, w, item, answer);
  }

  lemma NextCarries(cfg: Config, w: World, step: Step)
    requires LogsCarry(w)
    ensures LogsCarry(Next(cfg, w, step))
  {
    hide LogsCarry, RowsKeep, Processed;
    if step.Process? {
      if step.item in w.hands {
        ProcessCarries(cfg, w, step.item, step.answer);
      }
    } else {
      hide Next;
      OthersSilent(cfg, w, step);
      NextKeepsColumns(cfg, w, step);
      RowsStillCarry(w, Next(cfg, w, step));
    }
  }

  // Every provider call of a run carries its row's channel, recipient and content,
  // and every published event its row's batch.
  lemma {:induction false} RunCarries(cfg: Config, w: World, steps: seq<Step>)
    requires LogsCarry(w)
    ensures LogsCarry(Run(cfg, w, steps))
  {
    hide Next, LogsCarry;
    if steps != [] {
      RunCarries(cfg, w, steps[..|steps| - 1]);
      NextCarries(cfg, Run(cfg, w, steps[..|steps| - 1]), steps[|steps| - 1]);
    }
  }

  lemma ReachedCarries(cfg: Config, w: World)
    requires Reached(cfg, w)
    ensures LogsCarry(w)
  {
    hide Run;
    var now, steps :| w == Run(cfg, Empty(now), steps);
    RunCarries(cfg, Empty(now), steps);
  }

  // From the create to the provider: after any run, each call for the notification
  // goes to the input's recipient on its channel, with its content or what the
  // template rendered to, and each event names the input's batch.
  lemma SentAsCreated(cfg: Config, w: World, input: Input, id: Id, steps: seq<Step>)
    requires Reached(cfg, w) && id !in w.rows && id in Created(cfg, w, input, id).0.rows
    ensures var w' := Run(cfg, Created(cfg, w, input, id).0, steps);
      && id in w'.rows && FromInput(cfg, input, w'.rows[id])
      && (forall i :: 0 <= i < |w'.sends| && w'.sends[i].id == id ==>
            && w'.sends[i].channel == input.channel && w'.sends[i].recipient == input.recipient
            && IsContent(cfg, input, w'.sends[i].content))
      && (forall i :: 0 <= i < |w'.events| && w'.events[i].id == id ==> w'.events[i].batch == input.batch)
  {
    hide Inv, Ranked, Created, Run, Reached, IsContent;
    ReachedInv(cfg, w);
    InvRanked(cfg, w);
    CreateStores(cfg, w, input, id);
    CreateIsNext(cfg, w, input, id);
    NextReached(cfg, w, Create(input, id));
    ReachedCarries(cfg, w);
    NextCarries(cfg, w, Create(input, id));
    hide Next;
    var w1 := Created(cfg, w, input, id).0;
    RunKeepsColumns(cfg, w1, steps);
    RunCarries(cfg, w1, steps);
  }

  lemma CreateIsNext(cfg: Config, w: World, input: Input, id: Id)
    requires id !in w.rows
    ensures Next(cfg, w, Create(input, id)) == Created(cfg, w, input, id).0
  {
  }

  // ---- settled rows ----

  lemma ProcessLeavesSettled(cfg: Config, w: World, item: QueueItem, answer: Answer, id: Id)
    requires Inv(cfg, w) && item in w.hands && id in w.rows && w.rows[id].status.Settled()
    ensures Processed(cfg, w, item, answer).rows[id] == w.rows[id]
  {
    hide Inv, RetryAfter, EventsAfter, MetricAfter, RateLimit.Bumped, VerdictOn, RowAfter;
    HeldItem(cfg, w, item);
    HeldVerdict(cfg, w, item, answer);
  }

  lemma NextLeavesSettled(cfg: Config, w: World, step: Step, id: Id)
    requires Inv(cfg, w) && id in w.rows && w.rows[id].status.Settled()
    ensures id in Next(cfg, w, step).rows && Next(cfg, w, step).rows[id] == w.rows[id]
  {
    hide Inv, Created, Processed, PQ.Purged, Kept, PQ.Front, PushedAll, DueCount;
    NextKeepsColumns(cfg, w, step);
    if step.Create? {
      CreatedRows(cfg, w, step.input, step.id);
    } else if step.Process? && step.item in w.hands {
      ProcessLeavesSettled(cfg, w, step.item, step.answer, id);
    }
  }

  // A delivered, failed or cancelled row never changes again in any column.
  lemma {:induction false} SettledRowFrozen(cfg: Config, w: World, steps: seq<Step>, id: Id)
    requires Inv(cfg, w) && id in w.rows && w.rows[id].status.Settled()
    ensures id in Run(cfg, w, steps).rows && Run(cfg, w, steps).rows[id] == w.rows[id]
  {
    hide Inv, Next;
    if steps != [] {
      var before := steps[..|steps| - 1];
      SettledRowFrozen(cfg, w, before, id);
      RunKeepsInv(cfg, w, before);
      NextLeavesSettled(cfg, Run(cfg, w, before), steps[|steps| - 1], id);
    }
  }
}
