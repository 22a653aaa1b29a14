# AgentMsg: message delivery, verified

This project models the message delivery pipeline of AgentMsg and the smaller components it leans on,
and proves properties of the models with Dafny 4.11. `dafny verify dfyconfig.toml` checks all of it.
Nothing of the original program was executed.

## What is modelled

**The delivery pipeline.** `Pipeline.dfy` is one concurrent step system. Senders insert a row and push a
payload; workers pop it, publish it to its recipients in order and write `sent`, or write `dead_letter`
and create a dead-letter entry; retry loops list entries, publish again and update the entry;
acknowledgement handlers insert an acknowledgement and overwrite the row's status. Every store call is
one step. Each can succeed, take effect although the caller sees an error (`Lost`), or do nothing and
report an error (`Refused`), and any thread may take the next step. The deployment runs six engines, each
with a retry loop of its own. Results that need one loop say so; where the code breaks a promise with
several, a run shows it and a theorem says exactly when the promise holds.

- `Conservation`, `Ledger`, `Soundness`, `Entries`, `Accounting`, `Overwrites`, `Reopening` and `Exposure`
  (with `Drive`), `TwoLoops`: any number of threads and any failures.
- `OneLoop`, `Fairness` (with `Turns`): one retry loop.
- `Agreement`, `Termination` (with `Sums`), `Settling`: one retry loop and no failed database write.

**The same pipeline as the program has it.** `Stores` is a class whose fields are the tables and the Redis
list, with one method per store call. `Engine` and `Service` hold the loops and branches of the workers,
the dead-letter queue and the message service. Before every store call, `Others` lets other threads take
any number of steps, so that the methods are proved under interference. Their contracts say that the
stores stay in a reachable state of the step system and which steps, in which order, the call has taken
(`Calls`); all results about the step system therefore apply to them.

**Expiring stores.** `RateLimit` and `RateBounds` are the fixed-window rate limiter, `KeyStore` and `Dedup`
the two deduplication checks. Any number of gateways and engines share the stores: before every store call,
`Others` lets them make any calls of their own. Both stores are compared with plain functions of the history
of these calls.

**Migrations.** `Migrations` is the migration runner: any number of runners, each ending anywhere, and the
runner's own loop as a method among them.

**Texts.** `UuidText`, `Utf8`, `Json`, `Base64`, `Recipients`, `Channels`, `Tokens` and `Keys` are the printers,
parsers and key texts that the pipeline relies on.

## Findings

- The status of a message does not only move forward: `sent` can replace `delivered` while the message is
  still with its worker (`Overwrites.SentHidesDelivered`). In every reachable state, with any number of
  workers and loops, `delivered` or `processed` can still be replaced by something that is no
  acknowledgement exactly if the message is still to be pushed, queued or held by a worker, or its entry
  decodes and some loop can list it or has it ahead (`Exposure.CanBeReplacedIff`). A single step replaces it
  exactly if it is an applied status write of the worker holding the message or of a loop at its entry
  (`Overwrites.ReplacedIff`).
- With two retry loops, an entry that was processed can become retryable again
  (`TwoLoops.TerminalIsNotAbsorbing`). In every reachable state, with any number of loops, a terminal entry
  can still change exactly if some loop has it ahead in its batch and is not bound to write the values that
  it has (`Reopening.TerminalCanChangeIff`).
- With two retry loops, a message can be published more often than its limit allows
  (`TwoLoops.BoundNeedsOneLoop`). The number of publications is known exactly, with any number of loops
  (`Accounting.PublicationsAccountedFor`), and so is when it stays within the limit
  (`Accounting.BoundHoldsIff`); with one loop it always does (`Accounting.SingleLoopBound`).
- Two calls that look up the same idempotency key both take it exactly if between the two look-ups nobody
  has written it or its last write has expired (`Dedup.BothTakeIff`). A call that ends in an error can leave
  the key set for good (`Dedup.FailedCallLeaves`).
- A deduplication window below one second, and not zero, makes marks stay for good
  (`Dedup.MarkExpires`), and an idempotency time below one second makes a key be forgotten at once
  (`Dedup.TakenIsRemembered`).
- A token that expires at time zero is rejected whatever the clock says (`Tokens.TokenRoundTrip`).
- A message without a task has the deduplication text of one with a task when its content spells out
  that task and content (`Keys.SameDedupText`).

## Model

| member | source | states |
|---|---|---|
| Conservation.MessagesConserved | internal/engine/engine.go:113-152 | with any number of threads and any failures, a message whose `Send` succeeded is in exactly one place: once in the list, with exactly one worker, routed without an entry, dead-lettered with exactly one entry, or given up on |
| Conservation.PoppedInPushOrder | internal/repository/redis.go:58-64 | payloads leave the list in the order of their pushes, and none twice |
| Conservation.EntriesReferToMessages | internal/repository/migrations/002_billing_schema.sql:63-73 | every entry, and every message a worker holds, has a row, so the foreign key holds |
| Ledger.EarlierRecipientsFirst | internal/engine/engine.go:171-183 | a message has been published to each recipient at least as often as to the next one on its list, and only to the listed ones |
| Soundness.StatusIsSound | internal/engine/engine.go:154-201 | a row marked `sent` has been published to every recipient; one marked `delivered` or `processed` has a persisted acknowledgement with that status by a recipient |
| Soundness.AckMovesRow | internal/service/service.go:581-592 | in every run, an applied update by an acknowledgement moves its row, and no other: to `delivered` exactly for `received`, to `processed` exactly for `processed`, to `failed` exactly for `rejected` and `failed`, to `pending` exactly for any other text |
| Soundness.NonceMovesOnce | internal/repository/migrations/001_initial_schema.sql:65-75 | nonces being unique, one nonce moves a row's status at most once, and only after it was persisted |
| Overwrites.SentHidesDelivered | internal/engine/engine.go:185-191 | a run in which the write of `sent` lands after an acknowledgement and replaces `delivered` |
| Overwrites.ReplacedIff | internal/engine/engine.go:185-191 | in every reachable state, a step that is no acknowledgement replaces `delivered` or `processed` exactly if it is an applied status write of the worker holding the message or of a loop at its entry |
| Overwrites.OnlyAcksChangeUnexposed | internal/service/service.go:405-411 | with any number of workers and loops, only acknowledgements change the status of a message that is not to be pushed, queued or held and whose entry no loop can list or has ahead |
| Overwrites.OnlyAcksChangeRouted | internal/service/service.go:405-411 | in particular, of a message that has been routed |
| Exposure.CanBeReplacedIff | internal/engine/engine.go:185-191 | in every reachable state, some continuation without acknowledgements replaces `delivered` or `processed` exactly if the message is still to be pushed, queued or held, or its entry decodes and some loop can list it or has it ahead |
| Entries.EntriesStaySane | internal/engine/engine.go:359-433 | under any number of loops with stale snapshots, retry counts stay within 0 and the limit, exhausted entries have used all retries, pending ones have some left or never had any, and processed_at is set exactly on terminal entries |
| OneLoop.MarkForwardIffCurrent | internal/engine/engine.go:419-433 | with any number of loops, an applied update moves its entry forward exactly if the entry says already what is written, or it still waits and, if it decodes, the snapshot has its current retry count; it leaves the entry alone exactly if it writes what the entry says |
| OneLoop.EntriesMoveForward | internal/engine/engine.go:359-394 | with one loop, every step leaves an entry alone or adds exactly one retry to a pending one, or exhausts an undecodable one |
| Reopening.TerminalCanChangeIff | internal/engine/engine.go:419-433 | in every reachable state with any number of loops, a processed or exhausted entry can still change exactly if some loop has it ahead and is not bound to write the values it has |
| Reopening.TerminalIsAbsorbing | internal/engine/engine.go:419-433 | after a run with one loop, nothing changes a processed or exhausted entry, not even loops that begin later |
| TwoLoops.TerminalIsNotAbsorbing | deployments/k8s/message-engine.yaml:5-10 | with two loops, a processed entry can become retryable again |
| TwoLoops.BoundNeedsOneLoop | deployments/k8s/message-engine.yaml:5-10 | with two loops, a message can be published more often than one loop's bound allows, with no update refused |
| Accounting.AttemptsAccountedFor | internal/engine/engine.go:374-392 | with any number of loops, publishing attempts are one per popped message plus, if its entry decodes, one per counted retry, refused update, retry that stale updates set the count back by, and retry under way |
| Accounting.PublicationsAccountedFor | internal/engine/engine.go:396-417 | with any number of loops, the publications to a recipient position are exactly the attempts accounted for less those that stopped at or before it |
| Accounting.PublicationsBounded | internal/engine/engine.go:396-417 | with any number of loops, each recipient position is published at most 1 + max_retries times, plus once per refused update, retry set back by stale updates and retry under way |
| Accounting.BoundHoldsIff | internal/engine/engine.go:396-417 | with any number of loops, 1 + max_retries + refused updates bounds the publications exactly if retries counted, set back and under way exceed the limit by no more than the attempts that stopped at or before the position |
| Accounting.SingleLoopBound | internal/engine/engine.go:396-417 | with one loop the bound always holds |
| Agreement.StoresAgree | internal/engine/engine.go:138-148 | with no failed database write and one loop, an unacknowledged message's status is the one that queue, workers, entries and loop imply, at every step |
| Agreement.StatusAtBoundary | internal/engine/engine.go:374-392 | at step boundaries `pending`, `dead_letter`, `failed` and `sent` are each equivalent to where the message is and how its entry stands |
| Termination.RunPays | internal/engine/engine.go:113-152 | without sends, every step of a worker or the loop is paid for by what is left to do |
| Settling.BacklogBoundsWork | internal/engine/engine.go:302-316 | messages popped and retries completed number at most queued * (1 + limit) + held * limit + the retries left of pending entries |
| Settling.EngineComesToRest | internal/engine/engine.go:288-300 | all steps of workers and loop together are bounded, and until everything is idle one of them is possible |
| Settling.RestSettlesAll | internal/engine/engine.go:359-394 | at rest, with a positive limit, every unacknowledged accepted message is `sent` or `failed` |
| Fairness.RetriedInTurn | internal/repository/postgres.go:88-105 | with one loop, started anywhere, an entry with r older retryable ones of at most M retries each is taken for a retry after at most floor(r / 100) * M + 1 more listings, before the next one and before the loop is idle, while newer entries keep arriving |
| Fairness.LeftOutByHundred | internal/repository/postgres.go:88-105 | a listing has at most 100 entries, all different and retryable, and leaves another retryable one out only if it has 100, none of them newer |
| Turns.LineIsShort | internal/repository/postgres.go:93-100 | choosing always the oldest candidates, at most q * M rounds pass one over that has fewer than (q + 1) * size older ones |
| Threads.OthersKeepPosition | internal/engine/engine.go:82-89 | no step of another thread moves a worker, a loop, a handler or a sender |
| Stores.SharedStores.Others | internal/engine/engine.go:82-89 | interference: any steps of other threads, leaving the stores reachable and the caller where it was |
| Stores.SharedStores.Commit | internal/engine/engine.go:113-152 | a store call whose effect shows is a step of the step system |
| Stores.SharedStores.CreateMessage | internal/repository/postgres.go:382-399 | inserts a pending row, unless the key exists or the call fails |
| Stores.SharedStores.UpdateMessageStatus | internal/repository/postgres.go:61-74 | overwrites the status of an existing row and nothing else |
| Stores.SharedStores.CreateDeadLetterEntry | internal/repository/postgres.go:76-86 | inserts a waiting entry, if its key is new and its message exists |
| Stores.SharedStores.ListRetryableDeadLetterEntries | internal/repository/postgres.go:88-105 | returns the up to 100 oldest retryable entries, ties in any order, or an error, and records the answer |
| Stores.SharedStores.UpdateDeadLetterEntry | internal/repository/postgres.go:107-115 | overwrites status, retry count and processed_at of an existing entry |
| Stores.SharedStores.CreateAcknowledgement | internal/repository/postgres.go:501-510 | inserts an acknowledgement, unless its nonce exists |
| Stores.SharedStores.GetByIDForTenant | internal/repository/postgres.go:417-431 | the row if it exists and belongs to the tenant, that there is none, or an error |
| Stores.SharedStores.LPush | internal/repository/redis.go:58-60 | puts a payload in front of the list |
| Stores.SharedStores.RPop | internal/repository/redis.go:62-64 | takes the last payload of the list, answers that there is none exactly if the list is empty, or reports an error; the answer is recorded |
| Stores.SharedStores.Publish | internal/repository/redis.go:50-52 | a message published on a channel reaches the agent that listens on it, and nobody on a channel that is no agent's |
| Engine.RouteTo | internal/engine/engine.go:263-272 | one route per recipient, in order, with the recipient's channel |
| Channels.ChannelInjective | internal/engine/engine.go:266-269 | different recipients have different channels |
| Channels.ChannelText | internal/engine/engine.go:266-269 | a channel is `agent:`, the text of the agent's UUID, and `:queue` |
| Channels.OneListener | internal/engine/engine.go:266-269 | exactly one agent listens on its channel, and nobody on any other |
| Engine.MessageEngine.RouteMessage | internal/engine/engine.go:154-201 | publishes in order up to the first error and then marks the message sent; the message ends routed or about to be dead-lettered |
| Engine.MessageEngine.ProcessOne | internal/engine/engine.go:122-150 | one turn of a worker: nothing is done exactly if the pop reported an error or found the list empty; a popped message ends routed, dead-lettered or given up on, by exactly the calls of `Calls.IsHandling` |
| Engine.MessageEngine.GiveUpOn | internal/engine/engine.go:138-148 | `dead_letter`, then an entry and, if that reported an error, `failed` |
| Engine.DeadLetterQueue.Enqueue | internal/engine/engine.go:318-343 | creates an entry with no retries used and the configured limit |
| Engine.DeadLetterQueue.Process | internal/engine/engine.go:302-316 | one pass retries every listed entry once, in the order of the listing; it does nothing exactly if the listing failed or was empty, and it was empty only if no entry could be retried |
| Engine.DeadLetterQueue.RetryEntry | internal/engine/engine.go:359-394 | one retry: publish, status, one update of the entry; an undecodable entry is only updated |
| Engine.DeadLetterQueue.PublishMessage | internal/engine/engine.go:396-417 | publishes in order up to the first error; no recipients is an error |
| Engine.DeadLetterQueue.Settle | internal/engine/engine.go:374-392 | after publishing, the message becomes `sent`, or `failed` when no retry is left, and the entry processed, exhausted or pending with one retry more |
| Engine.DeadLetterQueue.MarkEntry | internal/engine/engine.go:419-433 | one update of the entry; an error is passed over |
| Service.MessageService.SendMessage | internal/service/service.go:200-272 | refuses a message without recipients or content; accepts it exactly after row and push both succeeded |
| Service.MessageService.AcknowledgeForTenant | internal/service/service.go:358-424 | checks, inserts and updates in this order; each error has its exact cause in the fields given and in what the look-up found; success means a recorded acknowledgement of a listed agent and, on the row, the status that it says |
| Service.MessageService.LookUp | internal/service/service.go:365-391 | only complete acknowledgements by listed agents of the tenant's message go on; each refusal exactly for missing fields, a failed look-up, no such row, or an agent that is not listed |
| Service.MessageService.MessageHasRecipient | internal/service/service.go:561-571 | true exactly for the agents in the row's list, read back from its text |
| Recipients.Message.SetRecipients | internal/model/message.go:40-53 | leaves the text `[`, the UUIDs in quotation marks with commas between them, `]`, which decodes to the list |
| Recipients.Message.ScanRecipients | internal/model/message.go:32-38 | restores the list from the text, or reports an error; null stands for an empty list or leaves an element as it was |
| Recipients.Message.HasRecipient | internal/service/service.go:561-571 | finds an agent exactly if it is listed |
| Recipients.RoundTrip | internal/model/message.go:32-53 | every recipient list reads back from its stored text as it was |
| Recipients.DecodeIff | internal/model/message.go:32-38 | exactly which texts are read as which lists: arrays of UUID texts, with nulls where the list keeps what it held, and null |
| Recipients.StoreAndCheck | internal/service/service.go:235-391 | a list that is stored and read back lets exactly its own agents through |
| UuidText.RoundTrip | internal/service/service.go:475-479 | a UUID reads back from its text |
| UuidText.OtherForms | internal/service/service.go:540-548 | so it does from its URN, its braced form and its bare digits |
| UuidText.TextLayout | internal/service/service.go:475-479 | the text of a UUID, character by character |
| UuidText.ParseIff | internal/service/service.go:540-548 | exactly which texts are read as a UUID: its digits in either case, in groups, alone, behind a URN prefix, or between two characters |
| Json.RoundTrip | internal/service/service.go:467-481 | every JSON value of UTF-8 texts, whole numbers, booleans and nulls reads back from its text, with the escapes the encoder writes |
| Json.WriterTable | internal/service/service.go:467-481 | which characters the encoder escapes, and how |
| Base64.RoundTrip | internal/service/service.go:486-487 | decoding gives back what was encoded |
| Base64.SplitBits | internal/service/service.go:486-487 | the groups are the bits of the bytes in their order |
| Base64.DigitTable | internal/service/service.go:486-487 | the digits are those of the standard's table |
| Base64.DecodeIff | internal/service/service.go:519-530 | exactly which texts are decoded to which bytes: the digits of their groups of six bits, up to line breaks and the bits left over in the last group |
| Base64.EncodeIsPlain | internal/service/service.go:486-488 | the encoder never writes a dot |
| Tokens.TokenRoundTrip | internal/service/service.go:461-559 | a token is accepted with the identities and times of its issue exactly while the clock is at most issue + 86400 in 64-bit arithmetic, unless it expires at time zero |
| Tokens.IssuedToken | internal/service/service.go:461-497 | the token issued: the texts of header and claims, each in base64url, and the signature of both |
| Tokens.AcceptedIff | internal/service/service.go:499-559 | exactly which tokens are accepted, and for what: header naming HS256 and JWT, claims naming both identities and both times, the secret's signature of both, an expiry time that is not zero and has not passed |
| Tokens.AcceptedIsSigned | internal/service/service.go:503-558 | whatever is accepted is header, claims and the signature of both, is accepted for what its claims say, and has not expired |
| Tokens.JoinOfSplit | internal/service/service.go:503-506 | splitting a token at its dots loses nothing |
| Keys.RateLimitKeyInjective | internal/middleware/middleware.go:203-209 | two rate-limit keys are equal only if tenant, agent, route and window are, although routes contain colons |
| Keys.SameDedupText | internal/engine/exactly_once.go:99-108 | exactly when two messages are hashed from the same text |
| Keys.IdempotencyBytesInjective | internal/service/billing.go:181-184 | the hashed bytes determine sender, recipient and content |
| RateLimit.Middleware.constructor | internal/middleware/middleware.go:32-39 | 600 requests and one minute stand in for missing settings; the store may hold whatever other gateways have counted |
| RateLimit.WindowSeconds | internal/middleware/middleware.go:197-200 | the window in whole seconds, or 60 if it is shorter than one |
| RateLimit.Middleware.RateLimit | internal/middleware/middleware.go:183-240 | whatever other gateways count before and between its store calls, the verdict is that of a plain counter per client and window that never expires; an admission reports what is left of the limit, a rejection none and the window; the first request of a window sets the expiry time |
| RateLimit.RemainingIsExact | internal/middleware/middleware.go:219-236 | whatever happens in between, a later error-free request in the window is admitted exactly if no more than the reported number have been counted since |
| RateLimit.Counters.Others | deployments/k8s/api-gateway.yaml:5-10 | interference: any increments and expiries by other gateways, which only add to the history |
| RateLimit.Counters.Count | internal/middleware/middleware.go:211 | the count returned is the plain count of the client and window over the requests of all gateways |
| RateLimit.Counters.Limit | internal/middleware/middleware.go:212-214 | an expiry, however late, keeps the counters equal to the plain ones |
| RateLimit.IncrementKeepsAgreement | internal/middleware/middleware.go:202-214 | the increment of any request finds the plain count and keeps the expiring counters equal to the plain ones |
| RateLimit.ExpiryKeepsAgreement | internal/middleware/middleware.go:211-214 | so does the expiry of any request of a window that has begun, whether or not it takes effect |
| RateLimit.CurrentIsLive | internal/middleware/middleware.go:202-214 | no key expires while its window is current |
| RateLimit.Counters.Incr | internal/repository/redis.go:90-92 | increments a live counter or starts a new one without expiry |
| RateLimit.Counters.Expire | internal/repository/redis.go:86-88 | gives a live counter an expiry time |
| RateBounds.SlidingBound | internal/middleware/middleware.go:197-238 | any L consecutive seconds admit at most limit * (floor((L + W - 2) / W) + 1) requests of a client |
| RateBounds.TwiceTheLimit | internal/middleware/middleware.go:197-238 | any W consecutive seconds let through at most twice the limit, plus the requests whose increment failed |
| RateBounds.FirstOnesAdmitted | internal/middleware/middleware.go:219-236 | a window of n error-free requests admits min(n, limit), and these are the first |
| RateBounds.TwiceIsReached | internal/middleware/middleware.go:202-238 | twice the limit within W seconds does occur, for every limit and every W of two seconds or more |
| KeyStore.Keys.Others | deployments/k8s/message-engine.yaml:5-10 | interference: any writes by other clients, which only add to the history |
| KeyStore.Keys.Exists | internal/repository/redis.go:134-137 | whether a key is live, which is whether the writes so far say that it is remembered |
| KeyStore.Keys.Get | internal/repository/redis.go:70-72 | the value of a live key |
| KeyStore.Keys.SetWithExpiry | internal/repository/redis.go:139-141 | sets a key, with an expiry time if one above zero is given |
| KeyStore.Keys.Expire | internal/repository/redis.go:86-88 | gives a live key an expiry time; zero removes it |
| KeyStore.Keys.Del | internal/repository/redis.go:74-76 | removes a key |
| Dedup.ExactlyOnceEngine.IsDuplicate | internal/engine/exactly_once.go:60-85 | whatever other clients write before and between its store calls, the answer is that of the writes seen by the check, and a key not remembered is marked; which store calls are made, and what each error leads to |
| Dedup.ExactlyOnceEngine.KeyIff | internal/engine/exactly_once.go:99-108 | two messages have the same key exactly if they are alike |
| Dedup.ExactlyOnceEngine.MarkedIff | internal/engine/exactly_once.go:87-108 | until the mark of one message expires, another one counts as a duplicate exactly if it is alike or was remembered before |
| Dedup.FoundIffAlike | internal/engine/exactly_once.go:60-108 | if the hash differs on different texts, a message counts as a duplicate exactly if one of the same sender and conversation, with the same task and content or spelling them out, was marked within the effective expiry time |
| Dedup.ExactlyOnceEngine.MarkAsProcessed | internal/engine/exactly_once.go:87-97 | sets the mark for the effective window |
| Dedup.ExactlyOnceEngine.CheckInDB | internal/engine/exactly_once.go:110-120 | whether the message has a row, or an error |
| Dedup.MarkExpires | internal/engine/exactly_once.go:90-96 | a mark expires exactly if the window is zero or at least a second |
| Dedup.FoundIffMarked | internal/engine/exactly_once.go:60-97 | however calls interleave, a call reports a duplicate exactly if some call marked the key before, within the effective expiry time |
| Dedup.AcceptedTwiceOverlapped | internal/engine/exactly_once.go:60-97 | two calls that accept the same key closer than the expiry time have overlapped |
| Dedup.OverlappedAcceptTwice | internal/engine/exactly_once.go:60-97 | for every key and window, two calls that both check before either marks do both accept |
| Dedup.IdempotencyService.CheckAndSet | internal/service/billing.go:158-179 | the store calls, the result, and the writes left behind, for every outcome of every store call and any writes of other clients in between |
| Dedup.CleanCall | internal/service/billing.go:158-179 | a call alone and without errors takes the key exactly if it is not remembered, and changes nothing else |
| Dedup.FailedCallLeaves | internal/service/billing.go:167-176 | what a call alone that ends in an error leaves: nothing, or the key for good, for its time, or not at all, depending on which store calls had an effect |
| Dedup.BothTakeIff | internal/service/billing.go:158-170 | of two calls that look up a key, the first in vain, the second does so in vain too exactly if nobody has written the key in between or its last write has expired |
| Dedup.SetIsFound | internal/service/billing.go:167-170 | a key that was set without an expiry time is found until it is written again |
| Dedup.TakenIsRemembered | internal/service/billing.go:171-176 | a taken key is remembered at all exactly if the time given is not positive or at least a second: for good in the first case, else for the whole seconds in it |
| Migrations.AlwaysAPrefix | internal/repository/migration_runner.go:33-80 | with any number of runners stopping anywhere or in doubt about a commit, the applied files are a prefix of the sorted list, each once, and the database is their fold |
| Migrations.SuccessIsComplete | internal/repository/migration_runner.go:45-80 | once any run has succeeded, the database is that of one clean run |
| Migrations.CleanRun | internal/repository/migration_runner.go:45-80 | a single runner that meets no error succeeds, and leaves the fold of all files |
| Migrations.FurtherRunsChangeNothing | internal/repository/migration_runner.go:46-52 | after a success, no run changes anything |
| Migrations.SortSorts | internal/repository/migration_runner.go:43 | the same names in the order of a dictionary: of two, the earlier is a prefix of the later or has the smaller character at the first difference |
| Migrations.LessEqIff | internal/repository/migration_runner.go:43 | the comparison of two names is the order of a dictionary |
| Migrations.FileNamesIff | internal/repository/migration_runner.go:36-42 | a name is among the files exactly if an entry that is no directory has it |
| Migrations.Database.RunMigrations | internal/repository/migration_runner.go:17-80 | the runner's loop among other runners: it succeeds exactly if none of its calls reports an error; success means a clean run's database, failure a place on the way there; the entries that are no directories are applied in the order of a dictionary |
| Migrations.Database.MigrationApplied | internal/repository/migration_runner.go:92-98 | whether a file is recorded |
| Migrations.Database.ApplyFile | internal/repository/migration_runner.go:54-76 | one file in one transaction: recorded, or the runner ends |

## Left out

- HTTP handlers, tracing, metrics, logging, audit rows, readiness checks: plumbing. A message's status is
  always `pending` on insertion, because the handler leaves it empty (internal/api/handler.go:303-316).
- The processed_at column of messages, and the columns that no modelled code reads.
- The engine without a database, `MessageEngine.SendMessage`, the unscoped `Acknowledge`, `Start` and `Stop`,
  and the clean-up loop of the deduplication engine.
- Process crashes, replies lost after a pop, and payloads in the list that do not decode. Entries whose
  payload does not decode are modelled.
- The infinite loops around one turn of a worker (`ProcessOne`) and one pass of a retry loop (`Process`).
- The random choice of new UUIDs and nonces, and the clock, are arbitrary values or parameters.
- SHA-256 and HMAC are function parameters; the texts that go into them are modelled.
- JSON nested deeper than the 10000 levels that the standard library allows, writing numbers with a fraction
  or an exponent, and list elements that an earlier, longer list has left in spare capacity.
- Times before 1970 in the rate limiter, clocks that run backwards or differ between gateways, gateways
  configured with different windows, and the moment between reading the clock and incrementing the counter.
- The advisory lock of the migration runner: its guarantees rest on the primary key instead. What a file
  does to the database is a function of the database it runs on.
- Invoices, quotas, billing periods, capability filters, statistics, SDKs, the dashboard, deployment scripts.
