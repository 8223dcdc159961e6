# Verified model of the stick service

This project models the coordination core of the stick service and proves what it keeps
over every run. A *stick* is a token that one person at a time may hold. Clients create,
rename, archive, claim and release sticks and subscribe to their release; a release closes
the holder's session and writes one outbox row for each subscriber; workers claim outbox
rows under a lease, notify, and mark the rows succeeded or failed.

Check it with `dafny verify dfyconfig.toml`.

## How the model is built

* `Core.dfy`: sticks, holders, sessions and the pure transitions.
* `Database.dfy`: the tables `sticks`, `sessions`, `subscriptions` and `notification_outbox`,
  and each statement the adapters run, as a function from tables to tables.
* `Protocol.dfy`: one transaction or worker statement is an operation. A *log* is a sequence of
  operations, accepted or refused, of any number of clients and workers. A log is a *valid
  run* when the environment keeps its part: sequences give unused ids, UUIDs never repeat
  (version 7, section 5.7 of RFC 9562), a claim picks an eligible row or none, and a worker
  marks only deliveries it was given. Requests are arbitrary.
* `Consistency.dfy`, `Replies.dfy`, `History.dfy`, `Fencing.dfy`, `Conservation.dfy`, `Generations.dfy`,
  `Eligibility.dfy`: what holds in every valid run.
* `Intervals.dfy`, `Timing.dfy`, `Guessing.dfy`: when the sessions of a stick run forwards in
  time, given that clients take their timestamps before their transactions.
* `Storage.dfy`, `Application.dfy`: the store and the use cases as classes that change their tables
  step by step and roll back. A ghost log ties each method call to exactly one operation, so
  every theorem about runs holds of these objects.
* `Interleaving.dfy`, `Reordering.dfy`, `Serializability.dfy`, `Progress.dfy`, `Realtime.dfy`:
  PostgreSQL transactions statement by statement, with row locks, SKIP LOCKED and sequences
  that do not roll back, and the proof that every interleaving is a valid run in some order
  that agrees with real time. A release takes its place in that order where it enqueues, not
  where it commits: a worker may delete a subscription in between.
* `MongoTransactions.dfy`, `MongoSerializability.dfy`, `MongoWriteSkew.dfy`: MongoDB transactions
  statement by statement, on snapshots, where the first of two to write a document wins. Reading
  a stick inside a transaction increments its version by zero; that makes every interleaving
  serial, and without it one is not.
* `Lease.dfy`, `Durations.dfy`, `Outbox.dfy`, `Notifiers.dfy`, `Attempts.dfy`, `Backlog.dfy`: workers
  in time, the worker loop, backoff, notification call by call, and how long a row waits behind
  others that keep failing.
* `Discovery.dfy`, `SharedHandler.dfy`: the lazy discovery of the OpenID provider, for any number
  of callers, as a state machine and as an object whose ghost history is an execution of it.
* `MongoStick.dfy`, `Migrations.dfy`, `Paging.dfy`, `Listings.dfy`: the partial update of a stick
  document, the shared migration history, and the paged history.

The clock, UUIDs, the answers of notifiers, the outcome of a discovery, transient store failures
and what other processes do meanwhile are parameters or actions. Some results say where the
code's promise ends. Lease exclusion and the absence of lost claims hold exactly under a
relation between options that the worker does not enforce (`ExclusionIff`, `NoClaimLostIff`).
Rows that keep failing starve those behind them exactly when the attempts on them do not fit
into the longest pause (`NobodyStarvesIff`). The history can be read in full exactly up to 5001
pages (`AllShownIff`). The SQL adapters sort it by claim time alone, so a session can be shown
on two pages exactly where the two next to the boundary have the same claim time
(`NoRepeatsIff`). The page links show the page asked for exactly when a subtraction does not
overflow or there are at most seven pages (`HistoryPageLinks`). Sessions run forwards exactly
when each handover is stamped no earlier than the last stamp its stick records
(`SessionsForwardIff`); clients that read the version they send keep to that
(`SessionIntervals`), and one that guesses it can break it (`GuessedVersionRunsBackwards`),
exactly from a bound on that version which the state it saw determines (`GuessIff`).

## Model

| member | source | states |
|---|---|---|
| Core.TransitionContract | internal/core/stick.go:17-98 | exactly when a well-formed stick accepts a change; the row constraints are kept, the version grows by one, and each other field moves only as the change says |
| Core.ValidTexts | internal/core/validation.go:9-39 | a name has at most 100 characters, letters, digits, hyphens and spaces, and a reason at most 500, and neither is blank |
| Consistency.TransitionWrites | internal/application/service.go:181-216 | once the version check and the transition pass, the whole transaction succeeds and the tables are given outright: the stick, one session opened or closed, the new rows, nothing else |
| Consistency.NoLateFailure | internal/application/service.go:189-211 | a transition is accepted if and only if stick, version and domain rule allow it, and never fails for a storage reason after that |
| Replies.TransitionReplies | internal/application/service.go:181-216 | which error each refused change gets, from the stick's own fields: missing before stale, then the change's own errors in their order, the exhausted version last; and the stick an accepted one returns, every field given |
| Replies.TransitionSessions | internal/application/service.go:107-143 | an accepted claim adds one session with the claimant's data, an accepted release sets the release time of the one open session of stick and subject, no other change touches sessions, and the stick returned is the stick stored |
| Replies.SubscriptionReplies | internal/application/service.go:151-177 | in a valid run subscribing and unsubscribing are refused exactly when the stick is missing or the version stale, each with its error, and otherwise change that one subscription and nothing else |
| Generations.SchemaHolds | internal/adapters/persistence/sqlite/migrations/001_baseline.sql:7-72 | every valid run keeps the declared CHECK, UNIQUE and foreign key constraints, those on generation tokens included, and the agreement of holders with open sessions |
| Consistency.HeldIffOneOpenSession | internal/application/service.go:107-143 | a stick is held if and only if it has exactly one open session, whose subject, name, email, reason and claim time are the holder's |
| Consistency.StorageFailuresUnreachable | internal/adapters/persistence/sqlite/transaction.go:39-134 | in no run do the monotonicity check, the unique index on active sessions, the one-row check of CloseSession, the holder check of the enqueue or the unique generation index refuse an operation |
| History.VersionsCountChanges | internal/core/stick.go:92-98 | versions are 1, 2, 3, ... with no gap or reuse, and the k-th accepted change expected version k |
| History.AcceptedChange | internal/application/service.go:188-215 | an accepted change takes the stick from the version it expected to the next, and the stick returned is the stick stored |
| History.OneChangePerVersion | internal/adapters/persistence/sqlite/transaction.go:51-65 | at most one change succeeds per stick and expected version |
| History.NextChangeUndoes | internal/core/stick.go:29-90 | in every run a release that is the next change after a claim was made by the claimant and gives back the stick as it was before the claim, two versions on; unarchiving undoes archiving the same way |
| History.ClaimsAndReleasesAlternate | internal/application/service.go:107-143 | accepted claims and releases of a stick strictly alternate with the same subject on both sides, the holder is the last claimant, and completed sessions number the accepted releases |
| Fencing.RowsPersist | internal/adapters/persistence/sqlite/outbox.go:42-94 | no outbox row is deleted, no snapshot field changes, and a succeeded row never changes again |
| Fencing.AttemptsCountClaims | internal/adapters/persistence/sqlite/outbox.go:40-47 | the attempts of a row are the claims of that row that took effect |
| Fencing.RowShowsLastStep | internal/adapters/persistence/sqlite/outbox.go:42-94 | status, token, times and error of a row are those left by the last worker operation that took effect on it; a row never claimed is pending |
| Fencing.OneMarkPerClaim | internal/adapters/persistence/sqlite/outbox.go:64-113 | at most one mark takes effect per claim, whatever workers repeat |
| Fencing.StaleMarkRefused | internal/adapters/persistence/sqlite/outbox.go:104-113 | a worker whose row was claimed again gets ErrClaimLost and changes nothing |
| Fencing.SucceededHasDelivery | internal/adapters/persistence/sqlite/outbox.go:64-86 | a succeeded row was marked by the delivery of its last claim |
| Conservation.ReleaseNotifiesEachSubscriberOnce | internal/adapters/persistence/sqlite/transaction.go:97-120 | a committed release adds exactly one pending row per subscription live at that point, with stick, holder and recipient as they were before it, spelled out field by field, and nothing else; the rows keep those snapshots |
| Conservation.OnlyReleasesEnqueue | internal/adapters/persistence/postgres/transaction.go:86-105 | no other operation adds a row |
| Conservation.OutboxHoldsEveryPromise | internal/application/service.go:133-143 | the outbox always holds as many rows as there were subscribers at all committed releases together |
| Conservation.NeverStuck | internal/adapters/persistence/sqlite/outbox.go:22-47 | a row not yet succeeded stays claimable exactly from its retry time, or the end of its claim, until a worker takes effect on it |
| Backlog.NobodyStarvesIff | internal/outbox/worker.go:107-138 | with one worker, a row that can be claimed and has so many unsuccessful rows of lower id is claimed within a bounded number of rounds, whatever notifiers answer and others do, if and only if there is none of lower id, or the longest attempts on all of them but one, each with its mark, and one mark more together take less than the maximal backoff |
| Backlog.DefaultsStarveFromTen | internal/outbox/worker.go:16-24 | with the default timing and claims that take no time, if and only if at most nine rows have a lower id |
| Generations.IssuedOnce | internal/application/service.go:160-161 | no generation token is issued twice |
| Generations.LiveWasIssued | internal/adapters/persistence/sqlite/transaction.go:122-134 | a live subscription carries the generation, name and address of a Subscribe by that user for that stick |
| Generations.RowWasIssued | internal/adapters/persistence/sqlite/transaction.go:105-115 | so does every outbox row, whatever became of the subscription |
| Generations.GenerationAccounting | internal/adapters/persistence/sqlite/outbox.go:76-79 | an issued generation is live if and only if it was not replaced by a later Subscribe, not withdrawn by Unsubscribe, and not delivered |
| Generations.OldDeliveryKeepsResubscription | internal/adapters/persistence/postgres/outbox.go:65-70 | marking an old delivery never removes a newer subscription |
| Timing.VersionCheckOrdersStamps | internal/application/service.go:116-134 | a claim or release that passed the version check carries a timestamp after every earlier change of the stick, although it was taken before the transaction |
| Intervals.SessionsForwardIff | internal/application/service.go:107-143 | in every valid run the sessions of a stick, in the order they were opened, are never negative and each begins no earlier than the one before it ended, if and only if each accepted claim or release of it is stamped no earlier than the last stamp the stick had recorded |
| Timing.SessionIntervals | internal/application/service.go:107-143 | given that each version was observed before the timestamp was taken, the sessions of a stick run forwards: none is negative and the one opened later is the later interval |
| Realtime.SessionsRunForwards | internal/application/service.go:107-143 | so they do under any interleaving of PostgreSQL transactions whose clients read the version they send before taking the timestamp |
| Guessing.GuessedVersionRunsBackwards | internal/application/service.go:133-136 | without that observation they need not: a run whose session ends before it begins |
| Guessing.GuessIff | internal/application/service.go:107-143 | when all others observe, a claim or release stamped now is harmless in every continuation if and only if the version it sends is below a bound known from the state it was stamped at, or it can never be accepted; the bound is one above the current version for a release of a free stick and two above it for one of any other, and one above it for a claim of a held stick, two for one of a free and three for one of an archived or absent stick |
| Storage.Store.Rollback | internal/adapters/persistence/sqlite/store.go:33-37 | restores all four tables and both sequences, and records one refused operation |
| Storage.Store.SaveStick | internal/adapters/persistence/sqlite/transaction.go:39-67 | the compare-and-swap as a change of the store, with its three outcomes |
| Storage.Store.CloseSession | internal/adapters/persistence/sqlite/transaction.go:80-95 | closes the open sessions of stick and subject and fails unless that was one |
| Storage.Store.EnqueueReleaseNotifications | internal/adapters/persistence/mongodb/transaction.go:158-206 | the loop over subscriptions, in any order, gives each one exactly one new row under an unused id |
| Storage.Store.ClaimNotification | internal/adapters/persistence/sqlite/outbox.go:14-61 | claims the eligible row with the lowest id, or none when none is eligible; the row is in progress under the new token with one attempt more, and nothing else changes |
| Storage.Store.MarkNotificationSucceeded | internal/adapters/persistence/sqlite/outbox.go:64-86 | if the row is in progress under this token, every column of it after the mark, and the subscription deleted if and only if it has the delivered generation; otherwise ErrClaimLost and no change |
| Storage.Store.MarkNotificationFailed | internal/adapters/persistence/sqlite/outbox.go:89-102 | if the row is in progress under this token, every column of it after the mark and nothing else changed; otherwise ErrClaimLost and no change |
| Application.Service.Callback | internal/application/service.go:189-211 | the callback's ordered writes amount to one atomic operation, or to its error; a missing stick gives ErrNotFound and a stale version ErrVersionConflict |
| Application.Service.TransitionStick | internal/application/service.go:181-216 | the store goes through exactly one operation of a valid run and the caller gets its reply, ErrNotFound for a missing stick and ErrVersionConflict for a stale version before anything else |
| Application.Service.TransitionStickRetrying | internal/adapters/persistence/mongodb/store.go:45-73 | attempts given up leave no trace, the operation happens once, after whatever operations of others came between the attempts, and the stick returned is the one its own attempt wrote; only an error of the callback ends it before the failures do |
| Application.Service.CreateStick | internal/application/service.go:54-68 | authorization and validation fail without touching the store; otherwise one creation, of a free stick of that name at version 1, or ErrAlreadyExists |
| Application.Service.RenameStick | internal/application/service.go:71-86 | likewise for renaming |
| Application.Service.ArchiveStick | internal/application/service.go:89-96 | likewise for archiving |
| Application.Service.UnarchiveStick | internal/application/service.go:99-104 | likewise for unarchiving |
| Application.Service.ClaimStick | internal/application/service.go:107-129 | an invalid reason fails without touching the store; otherwise one claim with its session |
| Application.Service.ReleaseStick | internal/application/service.go:133-143 | one release with its session closed and its notifications enqueued |
| Application.Service.Subscribe | internal/application/service.go:151-163 | one subscription under a fresh generation, accepted if and only if the stick exists at that version; otherwise ErrNotFound or ErrVersionConflict and no change |
| Application.Service.Unsubscribe | internal/application/service.go:166-177 | one withdrawal, accepted under the same condition with the same two errors |
| Application.Service.GetHistory | internal/application/service.go:41-51 | the completed sessions of a stick the user may see, each where the number of those before it puts it, and their count, which is that of the stick's accepted releases in the run |
| Reordering.InsertRelease | internal/adapters/persistence/postgres/transaction.go:86-105 | a release can be put back to the point where it enqueued: every operation committed meanwhile replies the same, one by one, and the tables differ by the release's writes alone |
| Serializability.Serializable | internal/adapters/persistence/postgres/transaction.go:19-22 | any interleaving of statements, commits, rollbacks and worker steps is strictly serializable: the committed tables are those of a valid run whose operations are, one by one, the completed ones with the replies given, each at an instant between its first statement and its commit, so in real-time order |
| MongoSerializability.SnapshotsSerializable | internal/adapters/persistence/mongodb/transaction.go:23-45 | with the increment of zero, so is any interleaving of MongoDB transactions that read their snapshots and are given up when they meet another write; a release takes effect where its snapshot was taken, all else at its commit |
| MongoWriteSkew.SerialIff | internal/adapters/persistence/mongodb/transaction.go:28-37 | every interleaving of MongoDB transactions is serial if and only if reading a stick writes it |
| MongoWriteSkew.WithoutReserveNotSerial | internal/adapters/persistence/mongodb/transaction.go:158-231 | without it a subscription and a release of the same version can both commit, nobody being notified, which no valid run of these operations explains |
| Progress.NoFailureNoDeadlock | internal/adapters/persistence/postgres/outbox.go:51-74 | every transaction in flight can run its next statement or its commit without error now, or waits for the lock on the one subscription that statement needs, whose holder can commit at once and thereby lets it run |
| Progress.StartGoesOn | internal/adapters/persistence/postgres/transaction.go:19-22 | a first statement runs, or waits for the stick's lock, whose holder goes on in that sense |
| Progress.MarkGoesOn | internal/adapters/persistence/postgres/outbox.go:50-91 | a mark's UPDATE runs, or waits for the row's lock, whose holder goes on in that sense |
| Progress.TakeNeverWaits | internal/adapters/persistence/postgres/outbox.go:14-48 | a claim can always be made at once: it skips locked rows |
| Progress.AllCanFinish | internal/adapters/persistence/postgres/store.go:28-41 | from every state reached, all transactions in flight can be run to their commits, none failing and nothing else happening |
| Lease.ExclusionIff | internal/outbox/worker.go:107-119 | no two workers ever notify for the same row, in any run, if and only if claim latency plus attempt timeout stays below the claim's time to live |
| Lease.NoClaimLostIff | internal/outbox/worker.go:121-137 | no mark ever gets ErrClaimLost if and only if these plus the result timeout do |
| Lease.DefaultsAreSafe | internal/outbox/worker.go:16-24 | with the default timing this means a latency below 30 and below 25 seconds |
| Eligibility.RoundsBounded | internal/outbox/worker.go:80-105 | while the clock stands still, all workers together are given at most as many deliveries as rows were eligible or have been enqueued since, whatever notifiers, marks and clients do |
| Outbox.DelayGrows | internal/outbox/worker.go:156-168 | delays start at InitialBackoff, are positive, bounded by the cap and monotone, and each is twice the last or the cap |
| Outbox.DelaySaturates | internal/outbox/worker.go:156-168 | the cap is reached by attempt 64, whatever the options |
| Outbox.Worker.constructor | internal/outbox/worker.go:47-76 | every option comes out positive, the backoffs in order; options that already are stay as given |
| Outbox.Worker.Backoff | internal/outbox/worker.go:156-168 | the doubling loop equals min(MaxBackoff, InitialBackoff times 2^(attempt-1)) and leaves the 64-bit range nowhere |
| Outbox.Worker.ProcessOne | internal/outbox/worker.go:107-139 | the row and the subscriptions after a round, outright: succeeded, with the delivered generation dropped, if every call was accepted; failed with the truncated error and the capped power-of-two delay if some was refused; still in progress if the result could not be recorded; each backend is called once and exactly this row leaves the eligible set |
| Outbox.Worker.RunUntilIdle | internal/outbox/worker.go:80-105 | with the clock standing still Run reaches its idle wait after exactly as many rounds as there were eligible rows |
| Notifiers.Multi | internal/application/notification.go:68-83 | nil exactly when nothing is configured; otherwise all that is, at its place in the order, a single one unwrapped |
| Notifiers.Notify | internal/application/notification.go:48-96 | one call for each path through the tree of notifiers to a backend, in lexicographic order of the paths, past any failure, and exactly the refusing ones are reported |
| Notifiers.NotifyConfigured | cmd/stickd/main.go:175-209 | whatever backends are configured, under whatever names, a notification makes exactly one call to each, in order, and those that refuse are the ones reported |
| Notifiers.PathsExist | internal/application/notification.go:48-96 | the backends that are called are those at the ends of all paths through the tree, in lexicographic order |
| Notifiers.NoneRefused | internal/application/notification.go:88-96 | no failure is reported exactly when every backend accepted |
| Attempts.SucceededMeansAllAccepted | internal/outbox/worker.go:117-127 | with any number of workers, a row is succeeded only if under one single claim every configured backend was called once, in order, and accepted |
| Discovery.BackoffStep | internal/web/auth/handler.go:304-315 | repeated backoff follows min(30 s, initial times 2^(k-1)) without overflow |
| SharedHandler.Callers.ProviderConfig | internal/web/auth/handler.go:238-283 | the loop over the shared fields, with anything others do while the mutex is free: a provider it returns is the one every later state has, a refusal is the failure of its own discovery or repeats the last one before its pause is over, a caller that arrives when a discovery is due makes it and gets what it found, it gives up only when cancelled, and discoveries stay single and paced |
| Discovery.LockMeets | internal/web/auth/handler.go:240-263 | in every reachable state what a caller meets follows from the discoveries made so far: it makes the next one if there was none or the pause after the last failure is over, is refused with that failure during the pause, waits for the one under way, or gets the provider |
| Discovery.DiscoveryIsSingleFlight | internal/web/auth/handler.go:238-283 | at most one caller discovers at a time, a waiter's channel is closed or owned by a live discoverer, all who get a provider get the same, and a refusal carries the error of a discovery that failed |
| Discovery.NobodyIsStuck | internal/web/auth/handler.go:251-259 | whoever has not returned can go on, or waits for a discoverer whose completion, whatever it finds, lets it go on |
| Discovery.ProviderIsFinal | internal/web/auth/handler.go:267-272 | the provider is written once |
| Discovery.DiscoveriesArePaced | internal/web/auth/handler.go:246-276 | after k failures the next discovery starts no earlier than the k-th pause after the last failure was over; after a success none starts |
| MongoStick.ReadBack | internal/adapters/persistence/mongodb/model.go:71-93 | reading a saved stick back gives that stick, whatever else the document holds |
| MongoStick.StoredFields | internal/adapters/persistence/mongodb/model.go:86-94 | what is stored for a stick, field by field, with no holder fields for a free one and no date for one not archived; foreign fields stay |
| MongoStick.UpdateIsReplacement | internal/adapters/persistence/mongodb/transaction.go:75-96 | the partial update equals replacing the document by the stick's own if and only if the old one had no field outside the schema |
| MongoStick.Transaction.GetStick | internal/adapters/persistence/mongodb/transaction.go:23-45 | the locking no-op update changes no document that has a version |
| MongoStick.Transaction.SaveStick | internal/adapters/persistence/mongodb/transaction.go:65-109 | the set and unset halves turn any document of that id and version into the stick's own plus what was foreign to it |
| MongoStick.SaveRefines | internal/adapters/persistence/mongodb/transaction.go:97-108 | through these documents saving accepts, refuses and writes what the SQL statement does |
| MongoStick.CreateRefines | internal/adapters/persistence/mongodb/transaction.go:47-63 | so does creating |
| Migrations.ValidateMigrations | internal/adapters/persistence/mongodb/db.go:221-234 | accepts exactly the non-empty lists numbered from 1 without a gap and fully named |
| Migrations.ValidateHistory | internal/adapters/persistence/mongodb/db.go:236-261 | accepts exactly the prefixes of the release's own list |
| Migrations.EnsureMigrationHistory | internal/adapters/persistence/mongodb/db.go:191-219 | with others writing between any two statements, success means the whole list is recorded and refusal that a newer release has recorded more |
| Migrations.HistoryIsAlwaysAPrefix | internal/adapters/persistence/mongodb/db.go:191-261 | for any number of starting processes, of the same or older releases, with crashes: the history is always a prefix of the list and only grows |
| Paging.ListingIsUnique | internal/adapters/persistence/mongodb/queries.go:94-96 | the sort order is total, so all queries agree on one listing |
| Paging.GetHistory | internal/adapters/persistence/mongodb/queries.go:66-118 | every session on a page is a completed one of that stick, latest claim first and at equal times highest id first, and a completed session is on the page exactly when the number of those before it lies in the window; the count is that of all of them; negative bounds are refused |
| Listings.OneListingIff | internal/adapters/persistence/sqlite/history.go:21-26 | sorted by claim time alone, the completed sessions have one listing if and only if their claim times differ |
| Listings.NoRepeatsIff | internal/adapters/persistence/postgres/queries.go:38-41 | two queries sorted so can show a session both before and after a page boundary if and only if the two sessions next to the boundary have the same claim time |
| Paging.ParseClamps | internal/web/sticks/pagination.go:12-21 | a page number comes back from its own link, clamped to 1..5001, and what is no number, is negative or does not fit 64 bits gives page 1 |
| Paging.ParseReads | internal/web/sticks/pagination.go:12-21 | the digits count in tens |
| Paging.PagesPartition | internal/web/sticks/handler.go:109-120 | pages 1 to totalPages, one after the other, are the whole history in order, and only the last is short |
| Paging.AllShownIff | internal/web/sticks/pagination.go:5-21 | every session is on a page that can be asked for if and only if there are at most 5001 pages |
| Paging.HistoryPageLinks | internal/web/sticks/pagination.go:26-56 | for any 64-bit arguments the links are consecutive existing pages, min(7, totalPages) of them; they include the clamped page if and only if the subtraction does not overflow or all pages fit the window |

## Left out

- ValidStickName: letters and spaces are the ASCII and Latin-1 ones; the Unicode tables behind the
  source's validators are library code.
- Interleaving: SQLite runs its transactions one at a time, which the store class models. The
  creation of a stick is one action, although it is a transaction with one insert.
- MongoTransactions: one node, majority commits. That an attempt is made again is a new
  transaction; nothing bounds how often it meets a conflict.
- TransitionStick: a commit that takes effect while its caller gets an error is not modelled.
- Backlog: one worker, whose marks are recorded, and rows enqueued later have higher ids.
- Truncated: counts characters; the source cuts after 4096 bytes and can split a character.
- Store: its methods run one at a time; what happens between their statements is the subject of
  the interleaved model.
- ProcessOne: the attempts counter and instants are unbounded integers; durations are 64-bit.
- RunUntilIdle: the clock stands still during the burst, and cancellation comes between rounds.
- Lease: a notifier returns by its deadline, and a store call by its own; an unresponsive one is
  not modelled.
- NobodyIsStuck: a discovery returns, as its timeout makes it; a panic inside it is not modelled.
- UUIDs are values that never repeat, not 128-bit numbers.
- Rounding of timestamps by the engines, the column created_at, and 64-bit row ids.
- The composition of the notification text: rounding of the duration, time zones, formats.
- Error texts, logging, and which sentinel an adapter error is wrapped in.
- Read-only queries other than the history.
- MongoDB session, subscription and outbox documents, which are inserted whole or updated field by
  field like the SQL rows.
- HTTP handlers, cookies, tokens, templates, mail and webhook transports, configuration, and the
  engines and drivers themselves.
