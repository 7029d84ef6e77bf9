# Notifier delivery: a verified model

The notifier accepts notifications, keeps them in Postgres, passes their ids
through Redis lists and sorted sets, and lets workers send them to a provider
with a rate limit, retries and a dead-letter list. This project models that
protocol and the data structures it runs on, and proves what they guarantee.

## How the model is laid out

The protocol is modelled twice.

*One use case, one step* (`UseCases`, `Stores`, `Services`). Creating,
dequeuing, processing, cancelling and promoting are atomic and no store call
fails; between dequeuing and processing a worker holds an item in its hands.
`Services.Notifier` has the stores as objects and issues their commands in the
order of the original; each method is proved to do what a function of `UseCases`
says (`State()` before and after), and everything else is proved of those
functions: one invariant over all runs (`Lifecycle`), the promises that follow
from it (`Guarantees`), what rows are made of and what is sent from them
(`Columns`), what the provider's answers leave behind (`Answers`), the order in
which items are served (`Order`), time (`Timing`), published events and the rate
of sends (`Observed`), counters (`Metrics`), draining (`Drain`) and batches
(`Batches`).

*One store command, one step* (`Protocol`). Any number of creators, workers,
promoters and cancellers are threads that issue one command at a time and may
stop for good at any point; keys of the idempotency store expire at will; where
the original drops an error, the command may or may not have been applied. A
state is reachable when it is `After(m, run)` for some run. `ProtocolTokens`,
`ProtocolEnds`, `ProtocolKeys`, `ProtocolEvents` and `ProtocolBound` prove what
holds in every reachable state, and `ProtocolTight` that the bound on sends is
attained; `ProtocolCalm`, `ProtocolCancel`, `ProtocolDue` and `ProtocolLoss` say
exactly when a cancel stands, what it may overwrite, when an item is promoted
early and when a token is lost, and `ProtocolCauses` which steps can leave an
unsettled notification without one that leads anywhere. `ProtocolRate` puts the
limiter's counters behind the workers' calls of it. `ProtocolRuns` describes what
one thread does on its own, `ProtocolClaims` what a creator does that finds its key
claimed, and `ProtocolFailures` how threads go on when commands fail or others have
done their work.

`Grains` and `GrainsRuns` connect the two: every run of use cases is mirrored,
store for store, by a run of single store commands in which each step is the
uninterrupted run of one thread of the right kind: a creator or a canceller that
is refused runs to its refusal, and processing is the rest of the run of the
worker that dequeued the item.

Beside the protocol stand the three-list queue (`PriorityQueue`), the delayed
sets (`DelayedSet`), the tokens both of them hold (`Tokens`), the rate limiter
(`RateLimit`), the template renderer (`Template`), the limit on contents
(`ContentLimit`) and the status hub (`Hub`).

A *token* of a notification is one occurrence of its item in the queue, in the
retry set, in the scheduled set or in the hands of a thread. Most of the protocol
is about there being at most one.

## Main results

- With commands interleaved in any way, a notification has at most one token; at
  most one of its sends is ever accepted; nothing is sent for it after an
  acceptance or a dead-letter push; all creates with one idempotency key that
  return without error return the same id, and one that loses the race for the key
  returns the winner's id as soon as the winner has its row; its published events
  are `sending` for each send and then at most one `delivered` or `failed`.
- Once the provider has answered, a worker ends as it should whichever of its
  later commands fail, and so does a canceller whose removals fail.
- The number of sends of a notification is bounded by `max(1, MaxAttempts)`, plus
  `MaxAttempts - 1` if the creator's late write of `queued` reset the count, plus
  one for each failed send whose row update was lost. Without such a loss the
  bound of `2 * max(1, MaxAttempts) - 1` is attained for every `MaxAttempts`.
- A row has a token exactly as long as no cancel has removed it and no thread has
  let it go. An unsettled row has one that leads somewhere unless a cancel took it,
  a put-back or a last write was dropped, or the creator wrote `queued` too late.
- However commands interleave, the rate tokens given per channel and second are
  `min(calls, max(0, limit))`, and each send uses one.
- With use cases as steps, nothing is lost or doubled, rows, attempt records,
  provider calls, dead letters, events and metrics agree, settled notifications
  stay settled, per channel and second no more is granted than the limit allows,
  nothing is sent before its scheduled second, and a throttled item waits for a
  later rate window.
- From the create to the provider: what is sent for a notification is what its
  create asked for, with the template rendered, and the provider's answers to its
  sends determine its attempts, error, provider id and dead letter.
- In every run the three lists behave as one stable priority queue, to which
  promotion adds what is due in order of due time.
- Every run of use cases is mirrored by a run of single commands, so the coarse
  model adds no behaviour to the fine one.
- Without new creates and cancels the system drains, whatever the provider
  answers; this needs a positive rate, and with none nothing is ever sent.

## Where the code and its description differ

Each of these is shown by a run or an input, with the exact condition under which
the code does what is described.

- The README of the notifier says that a notification is cancelled only from
  `pending` or `queued`. Cancelling reads the status and then writes it
  (`internal/usecase/cancel_notification.go:21-30`), so it can write `cancelled`
  over `sending`, `delivered` or `failed` (`ProtocolCancel.CancelOverwrites`).
  After it has read the row, this is ruled out if and only if the notification
  has no token left that could still be used
  (`ProtocolCancel.CancelsOnlyFromCancellable`).
- A cancelled notification is said not to be sent, and a delivered one to be
  done. A worker that has already fetched the row still sends it
  (`ProtocolCalm.CancelThenSend`), and the creator's write at
  `internal/usecase/create_notification.go:109` can undo either status
  (`ProtocolCalm.LateQueued`). Whatever runs later, the row stays cancelled or
  delivered and is not sent if and only if no creator still holds the id, unless
  to put it off, and no worker is between its fetch and its last write, unless
  the provider has accepted its send (`ProtocolCalm.StandsIffQuiet`).
- Promotion is said to move what is due. A promoter works through a list it took
  before (`internal/adapter/queue/redis/zset.go:42-57`), so it can enqueue a
  retried item that another promoter moved and a worker put back for later in the
  meantime (`ProtocolDue.PromotedEarly`). For an item that it has listed this is
  ruled out, whatever runs later, if and only if the set is the scheduled one, or
  the notification is cancelled, delivered or missing and no creator is about to
  write `queued` for it (`ProtocolDue.OnTimeIff`). A scheduled item is never
  promoted before its second (`ProtocolDue.ScheduledNeverEarly`).
- The limit on contents is described as a number of characters
  (`internal/domain/validation.go:5`); the code compares the number of bytes, so
  801 accented letters are too long for an SMS (`ContentLimit.AccentsRefused`).
  The two agree for every limit if and only if the text is ASCII
  (`ContentLimit.LimitsAgreeIffAscii`).

## Assumptions

- A store command that is issued takes effect at most once; there are no
  client-level retries of commands and no failover of the stores.
- Generated ids are new.
- All processes share one clock, which does not go back. `time.Time.Unix` rounds
  to whole seconds; scores are whole numbers small enough for a float64.
- A provider call is accepted when `Send` returns no error. A provider that acts
  on a request and then fails to answer is a provider matter.
- Strings are sequences of bytes, one `char` each; sorted-set members of equal
  score come in byte order.
- `Allow` is atomic; its `EXPIRE` may be lost. The rate limit is a bound on the
  rate tokens it grants: with use cases as steps a send is counted in the second
  of its token, and with commands as steps `ProtocolRate.SendsInStretch` relates
  the sends of any stretch of a run to its grants.
- The hub's methods hold its lock, and one of them is one step.

## Model

| member | source | states |
|---|---|---|
| ProtocolTokens.ReachableOwns | internal/usecase/process_notification.go:35-99 | in every reachable state all tokens of all ids are accounted for by one place per id, through every command of every thread |
| ProtocolTokens.AtMostOneToken | internal/adapter/queue/redis/zset.go:52-63 | two places that hold a token of the same id are the same place, so no two threads ever work on one notification and each member is enqueued by one promoter at most |
| ProtocolEnds.NothingAfterEnd | internal/usecase/process_notification.go:58-99 | after an accepted send or a dead-letter push of an id no send and no dead-letter push of it follows, in any run |
| ProtocolEnds.AtMostOneAcceptance | internal/usecase/process_notification.go:58-99 | at most one event of a run accepts or dead-letters a given id |
| ProtocolKeys.ReachableKeys | internal/adapter/idempotency/redis/store.go:26-39 | in every reachable state rows, leases and creators agree on which id a key stands for, even when keys expire in the middle of a call |
| ProtocolKeys.SameKeySameId | internal/usecase/create_notification.go:42-95 | any two creates with one key that return without error return the same id, whose row is the only one with that key |
| ProtocolClaims.CreateClaimed | internal/usecase/create_notification.go:84-90 | from any state, a creator that finds its key claimed takes three turns that change no store, and returns the claimed id if that has a row and stops if it has none |
| ProtocolClaims.ClaimedAnswersTheRow | internal/usecase/create_notification.go:84-90 | in every run, a creator that finds its key claimed for an id with a row returns the one row that has the key, which is not its own, and changes no store |
| ProtocolClaims.TwoCreators | internal/usecase/create_notification.go:42-94 | from every state with a free key, two creators of it interleave so that the second finds the key claimed by the first, whose row is there |
| ProtocolClaims.RaceAnswered | internal/usecase/create_notification.go:42-94 | a whole run of such a race, in which the second creator returns the id of the first |
| ProtocolClaims.ReadExpired | internal/adapter/idempotency/redis/store.go:34-37 | a key that expires between the refused claim and its read stops the creator, and no store changes |
| ProtocolClaims.InsertRefused | internal/adapter/repository/postgres/notification_repo.go:36-43 | a row with the id or the key stops the creator at its insert, and no store changes |
| ProtocolClaims.ExpiredClaimRefused | migrations/0001_init.up.sql:29 | when the key of a row expires, a creator that came past the check before the row was there claims the key anew and is stopped by the unique index, without a second row |
| ProtocolKeys.AtMostOneAcceptancePerKey | migrations/0001_init.up.sql:29 | two accepted sends for notifications with the same key are one and the same |
| ProtocolEvents.EventGrammar | internal/usecase/process_notification.go:56-102 | the published events of an id are one `sending` per started send and then at most one `delivered` or `failed`, after which the id has no token |
| ProtocolBound.ForeignWriteKeeps | internal/usecase/cancel_notification.go:30 | the stale write of a canceller, and the one late write of a creator, never let more sends happen than the bound allows |
| ProtocolBound.WorkKeeps | internal/usecase/process_notification.go:58-98 | every single command of a worker keeps the count of sends within the attempts column and the bound |
| ProtocolBound.SendBound | internal/usecase/process_notification.go:58-98 | in every run an id is sent at most max(1, MaxAttempts) times, plus MaxAttempts - 1 if the creator's late write landed, plus the number of lost retry writes |
| ProtocolTight.BoundAttained | internal/usecase/create_notification.go:105-111 | for every MaxAttempts some run in which no write is lost sends a notification 2 * max(1, MaxAttempts) - 1 times |
| ProtocolTight.Rejections | internal/usecase/process_notification.go:68-98 | rejected attempts, each followed by a promotion, can follow one another until the attempts are used up |
| ProtocolCalm.StandsIffQuiet | internal/usecase/cancel_notification.go:20-31 | for a cancelled or delivered row of a reachable state: in every continuation it stays cancelled or delivered and is not sent, if and only if no creator holds the id but to put it off and no worker is between its fetch and its last write with its send not accepted |
| ProtocolCalm.WorkerWrites | internal/usecase/process_notification.go:55-98 | a worker in the middle of an attempt reaches sending, delivered, failed or queued in turns of its own, whatever the row says |
| ProtocolCalm.LoudThread | internal/usecase/process_notification.go:55-98 | any other thread can undo the status or send in turns of its own |
| ProtocolCalm.FetchedIsSent | internal/usecase/process_notification.go:36-62 | a worker that has fetched the row can go on to send whatever has been written to the row since |
| ProtocolCalm.CancelThenSend | internal/usecase/cancel_notification.go:21-30 | from every reachable state with such a worker and a row that can be cancelled, a cancel runs to its successful end and a send follows |
| ProtocolCalm.LateQueued | internal/usecase/create_notification.go:105-111 | a creator that has enqueued its item next writes `queued` and zero attempts over whatever the row says |
| ProtocolCalm.Start | internal/usecase/create_notification.go:96-105 | a run that reaches a state to which both of these apply |
| ProtocolCancel.CancelsOnlyFromCancellable | internal/usecase/cancel_notification.go:21-30 | after a cancel has read a row that can be cancelled, no continuation has its write land on sending, delivered or failed if and only if the row had no token that can still be used |
| ProtocolCancel.CancelOverwrites | internal/usecase/cancel_notification.go:21-30 | a worker that has fetched a row that can be cancelled takes it to any of sending, delivered and failed in the middle of a cancel, which then writes cancelled and returns without an error |
| ProtocolCancel.TokenRuns | internal/usecase/process_notification.go:35-98 | wherever a token is that can still be used, some run takes a row that can be cancelled to sending, delivered or failed without the canceller |
| ProtocolCancel.ReachableServed | internal/domain/validation.go:18-20 | every token of a reachable state has a priority that is served |
| ProtocolDue.OnTimeIff | internal/adapter/queue/redis/zset.go:42-57 | for a reachable state and an item a promoter has listed in it: in no continuation does that promoter come to remove the item before it is due by the promoter's listing time, if and only if the set is the scheduled one, or the row is cancelled, delivered or missing and no creator is about to write queued for it |
| ProtocolDue.ScheduledNeverEarly | internal/adapter/queue/redis/scheduled.go:33-35 | whatever interleaves, no promoter comes to remove a scheduled item that was not due when it listed the set |
| ProtocolDue.NeverAdded | internal/usecase/create_notification.go:96-102 | once no creator holds an id, and for the retry set no worker gets past its fetch, no actions add an item of it to the set |
| ProtocolDue.EarlyIffReadded | internal/adapter/queue/redis/zset.go:42-57 | read back from a run: the item a promoter removes next is not due by its listing time if and only if the actions since then added it again, last for a later second |
| ProtocolDue.ScoreIsLastAdd | internal/adapter/queue/redis/zset.go:35-37 | after any actions a member's score is that of its last addition |
| ProtocolDue.PromotedEarly | internal/adapter/queue/redis/zset.go:42-57 | a promoter with any listing of the retry set comes to enqueue any listed item whose row is neither cancelled nor delivered after it was put back for a second later |
| ProtocolDue.StartPutBack | internal/usecase/process_notification.go:48-52 | a run that reaches a state with such an item |
| ProtocolLoss.RowHasTokenUnlessLost | internal/usecase/process_notification.go:35-98 | in every run a row has a token if and only if no step has lost it: a cancel removed it; a worker discarded it for a row that was missing, cancelled or delivered, failed to put it back, or published its last event; a creator found its key claimed or its row refused |
| ProtocolLoss.OnlyTheseRelease | internal/usecase/process_notification.go:36-50 | those are all the ways in which a thread's turn gives up the id it holds without storing it |
| ProtocolLoss.NextKeepsToken | internal/usecase/cancel_notification.go:28-29 | a step keeps a token exactly if it is none of these, and brings none back |
| ProtocolLoss.QueuedForNothing | internal/usecase/create_notification.go:105-111 | without an error or a stopped thread, a cancel between enqueuing and marking leaves a queued row without a token |
| ProtocolCauses.UnsettledHasToken | internal/usecase/process_notification.go:48-98 | in a run in which no cancel takes a token of the id, no put-back or last write of its workers is dropped, and no creator writes queued when no usable token is left, an unsettled row has a usable token |
| ProtocolCauses.NextCared | internal/usecase/cancel_notification.go:25-30 | every step that is none of these keeps a usable token with every unsettled row |
| ProtocolCauses.HarmLeavesNone | internal/usecase/create_notification.go:105-111 | and after each of these there is none |
| ProtocolRate.GrantsPerSlot | internal/adapter/ratelimit/redis/limiter.go:28-40 | in every run in which the limiter's counters decide who is given a rate token, the tokens given on a channel in one second are min(calls, max(0, limit)) |
| ProtocolRate.SendsUseGrants | internal/usecase/process_notification.go:44-62 | in every run the sends of a channel and the workers about to send on it are as many as the rate tokens given on it |
| ProtocolRate.SendsInStretch | internal/usecase/process_notification.go:44-62 | the sends of any stretch of a run are its grants, plus those pending when it begins, less those pending when it ends |
| Grains.WorkerAlone | internal/usecase/process_notification.go:35-99 | a worker thread that runs its commands in order ends with the row, retry set and events of its verdict and changes nothing else |
| Grains.ProcessMirrored | internal/usecase/process_notification.go:35-99 | processing as one step and the worker's commands one by one leave the same rows, queue, sets, sends, events, dead letters and attempt records |
| Grains.TakeMirrored | internal/adapter/queue/redis/queue.go:39-51 | the same for dequeuing |
| GrainsRuns.PassAlone | internal/adapter/queue/redis/zset.go:41-66 | the uninterrupted run of one new promoter thread, which lists what is due and then removes and enqueues item by item, moves exactly the due items and stops |
| GrainsRuns.PromoteAligned | internal/adapter/queue/redis/zset.go:41-66 | promotion as one step and the uninterrupted run of one promoter thread that lists at the current time leave the same stores |
| ProtocolRuns.CancelAlone | internal/usecase/cancel_notification.go:20-31 | the uninterrupted run of one canceller thread purges the three lists and the scheduled set, writes the status and returns |
| ProtocolRuns.CancelRefused | internal/usecase/cancel_notification.go:21-27 | a canceller of a row that is missing or cannot be cancelled stops at once and changes no store |
| GrainsRuns.CancelAligned | internal/usecase/cancel_notification.go:20-31 | cancelling as one step and the uninterrupted run of one canceller thread leave the same stores, and the thread returns or stops as the cancel succeeds or is refused |
| ProtocolRuns.CreateAlone | internal/usecase/create_notification.go:42-112 | the uninterrupted run of one creator thread claims the key, inserts the row, hands the item over, marks it queued unless it is for later, and returns its id |
| ProtocolRuns.CreateFound | internal/usecase/create_notification.go:42-45 | a creator whose key one row has returns that row's id and changes no store |
| ProtocolRuns.CreateRefused | internal/usecase/create_notification.go:50-82 | a creator whose template or validation fails stops and changes no store |
| ProtocolFailures.FetchSkips | internal/usecase/process_notification.go:36-42 | a worker whose row is missing, cancelled or delivered drops its item and changes no store |
| ProtocolFailures.ThrottledEnds | internal/usecase/process_notification.go:48-52 | without a rate token the item goes to the retry set for the next second, or is dropped if that fails, and the worker ends |
| ProtocolFailures.CalledAnyway | internal/usecase/process_notification.go:55-62 | whether or not the write of `sending` is applied, the provider is called, and its answer alone decides how the worker goes on |
| ProtocolFailures.AnsweredFinishes | internal/usecase/process_notification.go:65-99 | once the provider has answered, the worker ends in three or four turns of its own whichever commands are applied: it publishes `delivered` or `failed` last, or puts the item back |
| ProtocolFailures.CancelDespiteErrors | internal/usecase/cancel_notification.go:28-31 | a canceller whose removals all fail leaves queue and scheduled set as they are, writes cancelled and returns |
| ProtocolFailures.RemovalFails | internal/usecase/cancel_notification.go:28-29 | wherever a removal fails, the canceller changes no store and goes on with what follows that removal |
| ProtocolFailures.PromoteSkips | internal/adapter/queue/redis/zset.go:52-64 | a promoter with any list, run alone from any state, removes and enqueues exactly those items of it that are still in the set, once each, and skips the others |
| GrainsRuns.CreateAligned | internal/usecase/create_notification.go:37-113 | creating as one step, be it new, answered by an existing row or refused, and the uninterrupted run of one creator thread leave the same stores, and the thread returns the id the create answers or stops |
| GrainsRuns.ProcessAligned | internal/usecase/process_notification.go:35-99 | processing as one step and the worker thread that holds the item running to its end leave the same stores |
| GrainsRuns.RunMirrored | internal/usecase/process_notification.go:35-99 | every run of use cases reaches stores that a run of single store commands reaches too, made of one uninterrupted run of one thread of the right kind per step |
| PriorityQueue.Queue.Enqueue | internal/adapter/queue/redis/queue.go:31-33 | the id goes to the head of its priority's list and nothing else changes |
| PriorityQueue.Queue.Dequeue | internal/adapter/queue/redis/queue.go:39-51 | answers and removes the last item of the first non-empty list in drain order, or answers none and changes nothing |
| PriorityQueue.Queue.Remove | internal/adapter/queue/redis/queue.go:54-61 | every occurrence of the id leaves all three lists |
| PriorityQueue.PushRefines | internal/adapter/queue/redis/queue.go:31-33 | enqueuing appends to the one sequence of waiting items that the lists stand for |
| PriorityQueue.PopRefines | internal/adapter/queue/redis/queue.go:39-51 | dequeuing serves the oldest waiting item of the highest priority, and none exactly when no item can be served |
| PriorityQueue.RemoveRefines | internal/adapter/queue/redis/queue.go:54-61 | removing is a filter by id that keeps the order of the others |
| PriorityQueue.ListsRefineStableQueue | internal/adapter/queue/redis/queue.go:24-61 | over every run of enqueue, dequeue and remove the lists answer as one stable priority queue |
| PriorityQueue.ReferenceIsDeterministic | internal/adapter/queue/redis/queue.go:35-38 | the stable priority queue has one possible outcome per run, so that refinement fixes every answer |
| PriorityQueue.DepthCounts | internal/adapter/queue/redis/queue.go:64-66 | the length of a list is the number of waiting items of its priority |
| DelayedSet.DecodeEncode | internal/adapter/queue/redis/zset.go:16-26 | decoding an encoded item gives the item back if and only if its priority has no bar |
| DelayedSet.EncodeDecode | internal/adapter/queue/redis/zset.go:16-26 | encoding a decoded member gives the member back if and only if it has a bar |
| DelayedSet.ValidPrioritySurvives | internal/domain/validation.go:18-20 | every priority that validation lets through survives a trip through a delayed set |
| DelayedSet.NoBarIsNormal | internal/adapter/queue/redis/zset.go:20-25 | a member without a bar is read as an id of normal priority |
| DelayedSet.LessIs | internal/adapter/queue/redis/zset.go:42-47 | members of equal score are in dictionary order of their bytes |
| DelayedSet.AddKeepsRanked | internal/adapter/queue/redis/zset.go:35-37 | adding replaces the item's entry, if any, keeps all others, and keeps the order by score and member |
| DelayedSet.DueIsPrefix | internal/adapter/queue/redis/zset.go:42-47 | the entries listed as due are exactly those whose score is no later than the current second |
| DelayedSet.PromotedWhenDue | internal/adapter/queue/redis/zset.go:35-47 | an item added for a time is promoted exactly when its whole second has come: always if it is due, never a second or more too early |
| DelayedSet.PushAllRefines | internal/adapter/queue/redis/zset.go:52-63 | items enqueued one by one wait behind what was waiting, in their order |
| DelayedSet.PromotionRefines | internal/adapter/queue/redis/zset.go:41-66 | promotion appends exactly the members that are due to the waiting items, by score and then by member, and leaves the others in the set |
| DelayedSet.ZSet.Add | internal/adapter/queue/redis/zset.go:35-37 | the set becomes the old one with the item at its new score |
| DelayedSet.ZSet.DuePromote | internal/adapter/queue/redis/zset.go:41-66 | the due prefix leaves the set, its decoded items are enqueued one by one from the earliest on (`DelayedSet.PromotionRefines` says where they then wait), and the answer is their number |
| DelayedSet.ZSet.RemoveByID | internal/adapter/queue/redis/zset.go:72-87 | exactly the members that decode to the id leave the set |
| DelayedSet.KeptIs | internal/adapter/queue/redis/zset.go:72-87 | an entry is kept if and only if it was there and does not name the id |
| Tokens.PushTokens | internal/adapter/queue/redis/queue.go:31-33 | enqueuing an item of a valid priority adds one token |
| Tokens.PopTokens | internal/adapter/queue/redis/queue.go:39-51 | dequeuing takes away the token it answers, and answers none exactly when the queue has no token |
| Tokens.PurgeTokens | internal/adapter/queue/redis/queue.go:54-61 | removing an id takes away its tokens and no others |
| Tokens.AddTokens | internal/adapter/queue/redis/retry.go:21-23 | scheduling an item that is not in the set adds one token |
| Tokens.KeptTokens | internal/adapter/queue/redis/scheduled.go:28-30 | removing an id from the scheduled set takes away its tokens and no others |
| Tokens.PromoteConserves | internal/adapter/queue/redis/zset.go:41-66 | promotion conserves the tokens of the set and the queue together |
| RateLimit.Limiter.Allow | internal/adapter/ratelimit/redis/limiter.go:28-40 | counts the call in its channel's second, sets the expiry of a new counter, and allows the call if the count is within the limit |
| RateLimit.Limiter.Incr | internal/adapter/ratelimit/redis/limiter.go:31-34 | an expired or missing counter starts again at one without an expiry, another goes up by one and keeps its expiry |
| RateLimit.CountersAreExact | internal/adapter/ratelimit/redis/limiter.go:28-40 | under a clock that does not go back, each counter equals the calls of its channel and second and outlives that second |
| RateLimit.ExpiryIsFirst | internal/adapter/ratelimit/redis/limiter.go:35-38 | only the first call of a slot sets its counter's expiry, two seconds after that call, and no later call puts it off |
| RateLimit.AllowedIffBelowLimit | internal/adapter/ratelimit/redis/limiter.go:28-40 | a call is allowed if and only if fewer than the limit came before it in its channel and second |
| RateLimit.GrantsPerSecond | internal/adapter/ratelimit/redis/limiter.go:28-40 | per channel and second exactly min(calls, max(0, limit)) calls are allowed |
| RateLimit.SpanBound | internal/adapter/ratelimit/redis/limiter.go:26-29 | any span of one second sees at most twice the limit |
| RateLimit.LiveKeys | internal/adapter/ratelimit/redis/limiter.go:35-38 | when every expiry was set, at most three counters per channel are alive at any time |
| ContentLimit.LimitsAgreeIffAscii | internal/domain/validation.go:5-10 | counting bytes and counting characters agree for every limit if and only if the text is ASCII |
| ContentLimit.AcceptedAsDescribed | internal/domain/validation.go:27-29 | a text is accepted as the limit in characters says if and only if it is over that limit anyway or its continuation bytes fit below it |
| ContentLimit.AccentsRefused | internal/domain/validation.go:27-29 | 801 two-byte characters are refused on a channel described to hold 1600 |
| Template.HoleAtIsMatch | internal/domain/template.go:8 | the scanner finds a placeholder at a position if and only if the pattern matches there, and then in one way only |
| Template.MatchesDisjoint | internal/domain/template.go:8 | two different matches never overlap |
| Template.HolesAreMatches | internal/domain/template.go:12-14 | a scan from left to right visits exactly the matches |
| Template.FilledIsSpliced | internal/domain/template.go:14-21 | the text produced is the body with the matches replaced by values and all else copied |
| Template.RenderBody | internal/domain/template.go:12-27 | the one-pass loop that notes missing names computes the rendering function |
| Template.FailsIffMissing | internal/domain/template.go:16-25 | rendering fails if and only if some matched name has no value |
| Template.ReportsLastMissing | internal/domain/template.go:16-25 | the name reported is that of the last match without a value |
| Template.SuccessIsSubstitution | internal/domain/template.go:12-27 | a successful rendering replaces exactly the matches, each by its value, and does not scan values again |
| Template.OnlyMatchedNamesMatter | internal/domain/template.go:14-21 | the result depends on the values of the matched names only |
| Template.NormalIsStable | internal/domain/template.go:8-21 | rewriting every placeholder with bare braces is idempotent and keeps the names in order |
| Template.RenderIsIdempotent | internal/domain/template.go:12-27 | rendering with each name mapped to its own placeholder gives a normal form that rendering leaves unchanged |
| Stores.NotificationRepo.Create | internal/adapter/repository/postgres/notification_repo.go:33-48 | refuses exactly an id or a key that a row already has, and otherwise adds the row |
| Stores.NotificationRepo.GetByIdempotencyKey | internal/adapter/repository/postgres/notification_repo.go:82-85 | answers the only row with the key, and not-found exactly when no row has it |
| Stores.NotificationRepo.UpdateStatus | internal/adapter/repository/postgres/notification_repo.go:88-96 | overwrites status, error and attempts, keeps the provider id unless a new one is given, touches no other column or row, and does nothing without a row |
| Stores.IdempotencyStore.Remember | internal/adapter/idempotency/redis/store.go:26-39 | claims the key exactly when no live lease exists; a lease that expires before it is read is an error and never a second claim |
| Services.Notifier.Execute | internal/usecase/process_notification.go:35-99 | the sequence of store commands does what the processing step says to every store, and answers rate-limited exactly when throttled |
| Services.Notifier.Dispatch | internal/usecase/process_notification.go:44-62 | throttles the item into the retry set or makes the attempt, exactly as the limiter decides |
| Services.Notifier.Attempt | internal/usecase/process_notification.go:55-85 | marks sending, calls the provider, records the attempt and its outcome in rows, retry set, dead letters, events and metrics; which values that stores is said by `Answers.AcceptanceStores` and `Answers.RejectionStores` |
| Services.Notifier.HandleFailure | internal/usecase/process_notification.go:87-99 | the last attempt dead-letters and fails, any other goes back to queued and to the retry set |
| Services.Notifier.Create | internal/usecase/create_notification.go:37-113 | the sequence of reads, claim, insert and hand-over does what the creation step says to every store, and gives its answer; what a new row then holds is said by `Columns.CreateStores` |
| Services.Notifier.Store | internal/usecase/create_notification.go:92-112 | inserts the row and then schedules or enqueues its item, or refuses a duplicate and changes nothing |
| Services.Notifier.Text | internal/usecase/create_notification.go:50-61 | the content is the input's or the rendered template; a missing template or name is an error |
| Services.Notifier.Cancel | internal/usecase/cancel_notification.go:20-31 | does what the cancelling step says to every store; answers not-found exactly for an id without a row, and not-cancellable exactly for a row that is neither pending nor queued |
| Services.Notifier.Take | internal/adapter/queue/redis/queue.go:39-51 | moves the item served from the queue into the worker's hands |
| Services.Notifier.Round | internal/worker/loop.go:34-52 | one turn of the worker loop dequeues and processes, dropping the answer |
| Services.Notifier.Work | internal/worker/loop.go:34-52 | the loop is its turns one after the other |
| Guarantees.RoundsInTurn | internal/worker/loop.go:34-52 | rounds of the loop follow one another in the order of the answers, and from a reached world they reach one |
| Services.Notifier.PromoteRetry | internal/adapter/queue/redis/retry.go:26-28 | moves what is due from the retry set into the queue and answers how much |
| Services.Notifier.PromoteScheduled | internal/adapter/queue/redis/scheduled.go:33-35 | moves what is due from the scheduled set into the queue and answers how much |
| Lifecycle.HeldItem | internal/usecase/process_notification.go:35-42 | an item in a worker's hands is its notification's only token, carries the row's priority, and its row is pending, queued or cancelled |
| Lifecycle.ProcessedTokens | internal/usecase/process_notification.go:48-98 | processing uses up the token, or moves it to the retry set when throttled or to be retried |
| Lifecycle.ProcessKeepsInv | internal/usecase/process_notification.go:35-99 | processing keeps the invariant of all stores |
| Lifecycle.CancelledTokens | internal/usecase/cancel_notification.go:28-29 | cancelling leaves at most the token in the retry set or in a worker's hands |
| Lifecycle.CancelKeepsInv | internal/usecase/cancel_notification.go:20-31 | cancelling keeps the invariant of all stores |
| Lifecycle.CreateKeepsInv | internal/usecase/create_notification.go:37-113 | creating keeps the invariant of all stores |
| Lifecycle.TakeKeepsInv | internal/adapter/queue/redis/queue.go:39-51 | dequeuing moves a token and changes nothing else about any notification |
| Lifecycle.PromoteRetryKeepsInv | internal/adapter/queue/redis/zset.go:41-66 | promoting retries moves tokens and changes nothing else about any notification |
| Lifecycle.PromoteScheduledKeepsInv | internal/adapter/queue/redis/zset.go:41-66 | promoting scheduled items moves tokens and changes nothing else about any notification |
| Lifecycle.RunKeepsInv | internal/usecase/process_notification.go:35-109 | every run of creates, dequeues, processing, cancels, promotions and passing time keeps the invariant of all stores |
| Guarantees.NoLoss | internal/usecase/process_notification.go:40-98 | a pending or queued notification has exactly one token, a delivered or failed one none, a cancelled one at most one, under its row's priority; `sending` is never left behind |
| Guarantees.AuditAgreement | internal/usecase/process_notification.go:58-98 | the attempts column, the attempt records numbered from one and the provider calls agree and stay within max(1, MaxAttempts); failed means dead-lettered once with all attempts used; delivered means the last record is a delivery and a provider id is stored |
| Guarantees.NextMoves | internal/domain/enums.go:53-57 | one step moves a status at most from pending or queued to queued or a settled status |
| Guarantees.RunMoves | internal/domain/enums.go:53-57 | the same over every run |
| Guarantees.SettledForever | internal/usecase/process_notification.go:40-42 | a delivered, failed or cancelled notification stays so and is never sent, recorded or dead-lettered again |
| Guarantees.CancelStopsSends | internal/usecase/cancel_notification.go:25-30 | after a successful cancel no send of the notification ever starts, although its token may remain in the retry set or in hands |
| Guarantees.HeldVerdict | internal/usecase/process_notification.go:40-42 | an item in hands is discarded exactly when its row is cancelled |
| Guarantees.CreateAnswers | internal/usecase/create_notification.go:42-95 | a create that fails changes nothing; one that succeeds answers the stored row under its key, and either the row is new or nothing changed |
| Guarantees.CreateOncePerKey | internal/usecase/create_notification.go:42-48 | after an accepted create with a key, every later create with it, after any run, answers the same notification and changes nothing, expired lease or not |
| Guarantees.KeysAreUnique | migrations/0001_init.up.sql:29 | two rows never share a key |
| Guarantees.MetricsTally | internal/usecase/process_notification.go:80-98 | per channel, accepted calls equal the delivered counter and rejected calls equal the failed and retried counters |
| Metrics.CountersMatchRows | internal/usecase/process_notification.go:80-95 | in every run, per channel, the delivered counter is the number of delivered rows and the failed counter that of failed rows |
| Columns.CreateStores | internal/usecase/create_notification.go:50-112 | a create that adds a row fills every column from the input, the content with the rendered template if there is one, leases the key for a day, puts the item into the scheduled set or behind its priority in the queue, answers with the row and touches no other |
| Columns.CreateAccepts | internal/domain/validation.go:6-31 | without a row under its key a create is accepted if and only if channel, priority and recipient are in range, there is a content, and it is within 1600, 100000 or 4000; an unknown template is not found and all else invalid |
| Columns.CreateLeased | internal/usecase/create_notification.go:84-90 | in any state, a live lease is answered by its row or not-found and nothing changes, and an expired one lets the create go on |
| Columns.RunKeepsColumns | internal/adapter/repository/postgres/notification_repo.go:88-96 | whatever runs, a row stays, and channel, recipient, content, template, priority, key, schedule and batch never change |
| Columns.OtherRowsStay | internal/adapter/repository/postgres/notification_repo.go:94 | a step leaves the rows of all notifications but its own exactly as they are |
| Columns.RunCarries | internal/adapter/provider/webhook/client.go:37-38 | over every run each provider call carries its row's channel, recipient and content, and each event its row's batch |
| Columns.SentAsCreated | internal/usecase/create_notification.go:50-79 | after any run, whatever is sent for a notification goes to the recipient of its create with the rendered content, and its events name the batch of its create |
| Columns.SettledRowFrozen | internal/usecase/process_notification.go:40-42 | a delivered, failed or cancelled row never changes again in any column |
| Answers.AcceptanceStores | internal/usecase/process_notification.go:74-85 | an accepted send makes the row delivered with its message id and no error, counts the attempt, logs call and record with the answer, and changes no retry or dead letter |
| Answers.RejectionStores | internal/usecase/process_notification.go:68-99 | a rejected send stores its reason; without attempts left the row fails and is dead-lettered with that reason, else it is queued and its item put off by the retry interval |
| Answers.ThrottleStores | internal/usecase/process_notification.go:48-52 | without a rate token nothing is sent, written or published, and the item is put off to the next second |
| Answers.SkippedChangesNothing | internal/usecase/process_notification.go:36-42 | in any state, an item whose row is missing, cancelled or delivered is dropped and nothing else changes |
| Answers.AnswersDetermineTheRow | internal/usecase/process_notification.go:64-99 | in every reached world the answers to a notification's sends give one record each, in order; only the last can be an acceptance, which is when the row is delivered and whose message id is the one stored; the error is the last reason unless it was delivered or cancelled; failed means dead-lettered once with that reason |
| Order.RunWaits | internal/adapter/queue/redis/queue.go:24-61 | over every run of use cases the lists are one queue: creating appends, promotion appends what is due by score and member, dequeuing takes the oldest item of the best priority into the worker's hands, cancelling removes |
| Observed.EventsTellTheStory | internal/usecase/process_notification.go:56-102 | in every run a notification's events are `sending` once per send, then `delivered` or `failed` exactly when that is its status |
| Observed.StatusesAfter | internal/usecase/process_notification.go:101-103 | an attempt adds `sending` and, if it is final, its outcome to the events of its own notification only |
| Observed.StepAsks | internal/usecase/process_notification.go:44-62 | a step asks the limiter at most once, and sends exactly if it was allowed |
| Observed.CallsInRuns | internal/adapter/ratelimit/redis/limiter.go:28-40 | the limiter calls of a run are in order of time and leave the run's counters, and as many are granted in each slot as are sent in it |
| Observed.CallsDecideSends | internal/usecase/process_notification.go:44-62 | call by call, the limiter allows exactly those whose step then sends |
| Observed.RateInRuns | internal/adapter/ratelimit/redis/limiter.go:26-40 | with use cases as steps, of the items that ask for a rate token on a channel in one second exactly min(items, max(0, limit)) are sent |
| Observed.RefusalsAreCounted | internal/usecase/process_notification.go:48-52 | in every run, per channel, each question to the limiter is a provider call or one more on the rate-limited counter |
| Timing.PutOffWaits | internal/usecase/process_notification.go:48-52 | a throttled or failed item cannot be dequeued or held again before the second it was put off to, which for a throttled one is a later rate window |
| Timing.NeverEarly | internal/usecase/create_notification.go:96-102 | no run sends a notification, or has it in the queue or in a worker's hands, before its scheduled second, cancelled or not |
| Drain.WorkedBelow | internal/worker/loop.go:34-52 | a worker round brings the system closer to being drained and pays for each send with an attempt |
| Drain.AdvancedBelow | internal/adapter/queue/redis/zset.go:41-66 | moving the clock to the next due second and promoting brings the system closer to being drained |
| Drain.Drain | internal/worker/loop.go:34-52 | whatever the provider answers, the loop ends, in a state some run of use cases reaches, with no token anywhere, every row settled, and no more sends than attempts were left |
| Drain.ReachedIdle | internal/worker/loop.go:34-52 | draining can start from every reachable state in which no worker holds an item |
| Drain.Starved | internal/adapter/ratelimit/redis/limiter.go:39 | with a limit of zero or less no run sends anything, and what is not cancelled stays as it is |
| Batches.CreateBatch | internal/usecase/create_batch.go:24-44 | writes the batch row, gives the batch id in place to the items up to and including the first that fails, and creates those before it in order |
| Batches.FailedBatchKeepsPrefix | internal/usecase/create_batch.go:37-42 | a batch that fails at an item leaves exactly what a batch of the items before it would |
| Batches.BatchCount | internal/usecase/create_batch.go:31-43 | a new batch never has more rows than items, and exactly as many if it succeeds and no item has an idempotency key |
| Batches.BatchRowsFollow | internal/usecase/create_batch.go:37-42 | each new row of a batch has the batch id and otherwise the columns of the item it was created for |
| Batches.BatchRepo.StatusCounts | internal/adapter/repository/postgres/batch_repo.go:41-61 | a status is in the answer if and only if a row of the batch has it, with the number of those rows |
| Batches.CountsAddUp | internal/adapter/repository/postgres/batch_repo.go:41-61 | the numbers per status add up to the rows of the batch |
| Hub.Hub.Subscribe | internal/adapter/ws/hub.go:25-34 | a new open channel joins those of its key |
| Hub.Hub.Unsubscribe | internal/adapter/ws/hub.go:37-49 | exactly a channel subscribed under the key is removed and closed, and a key without channels goes |
| Hub.Hub.Publish | internal/adapter/ws/hub.go:53-60 | every open channel gets the event once for each delivery to its key, as far as eight unread events leave room; what was received or buffered stays in front, and only what found no room counts as dropped |
| Hub.Hub.Deliver | internal/adapter/ws/hub.go:62-69 | every channel under the key gets the event if it has room, and no other channel changes |
| Hub.Hub.Receive | internal/adapter/ws/hub.go:26 | the oldest buffered event is received, also from a closed channel |
| Hub.Chan.TrySend | internal/adapter/ws/hub.go:64-67 | an open channel with fewer than eight unread events takes the event at the end, and one with eight stays as it is and counts one drop |
| Hub.Chan.Close | internal/adapter/ws/hub.go:43 | only an open channel is closed |
| Hub.SubscriberGets | internal/adapter/ws/hub.go:51-69 | what a subscriber received and has buffered is a subsequence of the deliveries to its key while it was subscribed, and all of them if and only if none met a full buffer |

## Left out

- HTTP handlers, routing, WebSocket upgrade, health, Swagger: transport.
- SQL text, row scanning, JSON and the migrations runner; the tables are maps with the constraints the schema declares.
- `List`, its filters and its paging: query building.
- Listing and creating templates; the templates are a map.
- The provider's HTTP transport, tracing and logging; a provider call records what is sent and has an arbitrary answer.
- The Redis pub/sub bridge to the hub; delivery starts at `Publish`.
- Latency observations, and the times kept in rows and events, except due times.
- Tickers, shutdown and configuration; when a promoter runs is an arbitrary choice.
- Variables stored with a row, which nothing reads back.
- Recipients, contents, batches, error texts, provider ids and metrics in `Protocol`: its rows keep key, priority, status and attempts, and `GrainsRuns.RunMirrored` compares those, the sets, the queue's tokens, sends, events, dead letters and records.
- Priority order of the queue in `Protocol`: a worker there may take any item in the queue, which allows more than the three lists do.
- Concurrent publishers in `Hub`: they share a read lock in the original and may interleave between channels, while each channel still sees one event after the other.
- Services.Notifier.Execute: store errors are not modelled here; `Protocol` has them.
- Drain.Drain: the loop itself is a schedule of worker and promoter turns, which the original leaves to its processes.
