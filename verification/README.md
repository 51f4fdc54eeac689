# Publishing, sessions and streaming, modelled in Dafny

A Dafny 4.11 model of the stateful core of a Telegram marketing back end and of the browser code that
talks to it. `dafny verify dfyconfig.toml` checks every file.

What the code changes in place is a class with the source's fields; each of its methods meets a function
on values, and the lemmas are about that function and about whole runs of it.

| file | what it models |
|---|---|
| `QueueModel.dfy` | queue items, attempts, and each committed transaction of the queue services |
| `PublishProtocol.dfy` | many workers publishing the same items while users edit, processes crash and the clock moves |
| `ItemStatus.dfy`, `CalmRuns.dfy` | an item's status in those runs: when it agrees with its timestamps, which schedules keep it so, and how PUBLISHED and FAILED come and go |
| `PublishTask.dfy`, `PublishDelivery.dfy` | one publish run alone, the Celery task that re-runs it, and what that task puts on the wire |
| `PublishContent.dfy`, `PublishEvents.dfy` | what a publish sends, records and announces, told from the item's columns; what a crash leaves |
| `ItemColumns.dfy` | which requests create and edit accept and which columns they write |
| `QueueStore.dfy` | the queue services as a class |
| `ContentHash.dfy` | the canonical JSON that is hashed into the idempotency key |
| `TelegramText.dfy`, `TelegramPublishing.dfy` | the text splitter, the message plan of a publish, and the retry loop |
| `AuthTokens.dfy`, `AuthChains.dfy` | refresh-token rotation: rows, links, chains, and the replay rule |
| `ApiClient.dfy` | the browser's single-flight refresh, composed with the token server |
| `RateLimit.dfy` | the fixed-window limiter, INCR and EXPIRE as separate commands |
| `SseStream.dfy` | the bounded buffer of each event stream and the broadcaster that feeds it |
| `Scoring.dfy`, `Recommendations.dfy` | the rounded score and the order it induces |
| `MarketingDocument.dfy`, `DocumentRoundTrip.dfy`, `TightDocument.dfy` | the document parser and printer, round trips, and documents as people write them |

## Main results

- **Publishing.** In every run of any number of workers, edits and crashes, two live attempts for the same
  content are claimed at least 24 hours apart, so the guard lookup has one answer; a stored message id was
  acknowledged by one of the item's attempts; attempts are numbered 1..n; and the event log tells of each
  attempt once, in order, and truly. Status and timestamps agree throughout a run exactly when no write of
  it is torn, that is, half overtaken by another writer; a condition on the schedule alone rules that out. A
  task with no other writer ends with the item PUBLISHED and its last attempt succeeded, or FAILED and a dead
  letter. It acknowledges no message more often than its plan has it, whatever Telegram answers, exactly when
  the plan is a single message. It publishes none more often exactly when, besides, no answer can be lost; with
  lost answers a message appears up to sixteen times, and that bound is met. A publish that succeeds has had
  the item's whole text, its image and its button acknowledged; a failure is a dead letter exactly in the last
  execution or when the error is hopeless; a crash blocks the content for exactly 24 hours.
- **Sessions.** Refresh tokens form one chain per login with at most one unrevoked token each. A replay
  revokes everything and locks the user out until the next login. A browser that shares one refresh among
  concurrent 401 answers never sends a refresh token twice and never triggers that rule, whatever requests and
  answers are lost or late, also while the user's other sessions refresh and log out, until a page reload cuts
  off a refresh. A successful refresh sends every request that waited for it once more, and a browser is signed
  out only by a failed refresh or a request that meets two 401 answers.
- **Text.** Splitting loses nothing but newlines and stays within its limits; a publish follows a fixed plan.
- **Streams, limits, ranking, documents.** A client sees a gap-free prefix of its events, and all of them unless
  it leaves, is cancelled or falls 64 behind; a window admits at most twice the limit, and a rejected caller who
  waits as told is admitted; the score is within 0.00025 of the weighted sum it rounds, orders the response, and
  respects dominance; a document of clean blocks is given back by printing and parsing exactly when each of its
  blocks is printable, and blank lines matter exactly between two paragraphs or two lists of one kind.

## Where the code surprises or differs from its own words

- app/worker/tasks/publishing.py:87-88 says the item status is unchanged by a dead letter. The code moves
  the item to FAILED (app/services/queue.py:267-268), and the model follows the code.
- app/services/queue.py:253-254 makes permanent 4xx errors terminal "so the beat loop does not recreate
  failed attempts forever", and the item does leave the beat loop. Celery knows nothing of it: the error is
  raised again, and the task, which retries every such error, posts the message in all four executions and
  leaves four dead letters (`PublishDelivery.PermanentErrorIsResent`). `StopsAt` in
  `PublishTask.TaskConcludes` says where a task stops.
- app/worker/tasks/publishing.py:81-85 says the guard protects retries against duplicate sends. A publish
  that fails after some of its messages were accepted leaves no live attempt, so the next execution starts
  again at the first message: `PublishDelivery.LongPlanDuplicates` has all but the last message acknowledged
  four times, and `PublishDelivery.AcknowledgesNoMoreIff` says that only plans of one message are acknowledged
  no more often than planned.
- app/telegram/publisher.py:247-253 posts again after a transport error, which may also mean that Telegram took
  the message and only its answer was lost. So even a one-message plan can appear many times in the channel:
  `PublishDelivery.LostAnswersDuplicate` has its message published sixteen times in a task that raises at last
  and, by `PublishDelivery.WireTaskConcludes`, leaves the item FAILED. `PublishDelivery.PublishesNoMoreIff` says when nothing is published twice.
- PUBLISHED is not a stable status. Publishing an already published item makes it FAILED exactly when no
  live attempt guards its content: the window has expired, the content was edited, or the item was created or
  edited straight to PUBLISHED and never had an attempt (`ItemStatus.PublishedFallsIff`,
  `ItemStatus.PublishedFallsAtOnce`). `ItemStatus.PublishedLostIff` lists every step that loses PUBLISHED.
- `_mark_item_failed` looks at the status read at the claim, not at the row it then writes. A dead letter
  leaves its item FAILED exactly when the claim did not see FAILED or the row is FAILED by then
  (`ItemStatus.DeadLetterFailsItemIff`); `ItemStatus.DeadLetterLeavesDraftReached` reaches a draft whose last
  attempt is a dead letter.
- `QueueService.update` reads the row without a lock and writes only the columns it changed. An edit to
  draft that reads a queued item before a publish and flushes after it leaves a draft with a publish time and
  a message id (`ItemStatus.EditOverFinishTears`). `ItemStatus.FlushKeepsTimesIff` says exactly which writes
  do such harm, `ItemStatus.StatusMatchesTimes` that nothing else does, and `CalmRuns.CalmKeepsTimes` which
  schedules are free of it.
- The publisher's notion of a transient error and the queue's notion of a permanent one overlap.
  `TelegramPublishing.TransientYetPermanent` says exactly when, and `TransientYetPermanentOccurs` gives replies.
- Logging out and then refreshing with the logged-out token counts as reuse and ends the user's other
  sessions (`AuthChains.RefreshAfterLogout`).
- A paragraph survives printing and parsing exactly when it does not itself read as a heading, list or CTA
  line, a CTA block exactly when it has no URL and reads as one (`DocumentRoundTrip.DocumentRoundTripsIff`).
- frontend/src/services/session.ts:35-37 keeps the refresh token in sessionStorage, which survives a reload,
  and the promise of the refresh under way does not. A reload after the server has rotated the token leaves the
  spent token in store; the next 401 presents it, and the server ends all of the user's sessions
  (`ApiClient.ReloadIsPunished`).

## Assumptions

- A claim is one atomic step: the row lock is held to the commit (app/repositories/queue.py:65-77). An edit
  is two, a read without a lock and a flush; a publish reads its row at the claim and flushes at the finish.
  A flush writes the columns whose values differ from what was read, because the session keeps the values it
  read across commits (app/core/database.py:32-38). The clock does not go back.
- SHA-256 and the refresh-token hash are injective, so a guard key is identified with the JSON under it and
  a token hash with the token. A newly issued token is different from every earlier one.
- Login, refresh and logout are atomic transactions.
- The browser runs the callbacks of a settled promise (storing the answer, `.finally`, the waiters) before it
  handles another response or a reload.
- What Telegram answers, whether it published a message it answered with an error or not at all, what
  concurrent users do, and when anything happens are parameters.
- `log1p` is any nondecreasing function that is zero at zero and positive at one; decimals are reals with
  `ROUND_HALF_UP` written out.

## Model

| member | source | states |
|---|---|---|
| TelegramText.RFindIsLast | app/telegram/publisher.py:29-33 | the separator found is its last occurrence in the window, and none is missed |
| TelegramText.CutIsPreferred | app/telegram/publisher.py:24-34 | a long text is cut at the last paragraph break in the second half of the window, else the last line break, else the last space, else at the limit |
| TelegramText.NextPieceCuts | app/telegram/publisher.py:56-62 | one round, fallback included, drops only newlines between chunk and remainder |
| TelegramText.NextPieceShrinks | app/telegram/publisher.py:56-62 | one round yields a nonempty chunk within the limit and shortens the remainder by at least half a window |
| TelegramText.TakePiece | app/telegram/publisher.py:56-62 | the cut, strip and fallback of one round equal the round the lemmas are about |
| TelegramText.SplitTelegramText | app/telegram/publisher.py:37-63 | the loop rejects limits below 1 and otherwise returns the split the lemmas are about |
| TelegramText.SplitLosesOnlyNewlines | app/telegram/publisher.py:37-63 | the text is its chunks in order with newline-only gaps between them, for every text and limit |
| TelegramText.SplitKeepsText | app/telegram/publisher.py:37-63 | deleting newlines from the text and from the joined chunks gives the same string |
| TelegramText.ChunksFit | app/telegram/publisher.py:37-63 | every chunk is nonempty and at most the limit |
| TelegramText.ChunkCount | app/telegram/publisher.py:37-63 | k chunks need a text longer than (k - 1) half windows, all-newline texts and limit 1 included |
| TelegramText.SplitFits | app/telegram/publisher.py:45-48 | the split is the text itself as one chunk exactly when it fits |
| TelegramPublishing.TransientYetPermanent | app/telegram/publisher.py:256-310 | an error the publisher retries is called permanent by the queue exactly when status and error code point different ways and no rate limit is signalled |
| TelegramPublishing.TransientYetPermanentOccurs | app/telegram/publisher.py:256-310 | both overlaps occur: a 5xx whose body says 400 and a 400 whose body says 502 |
| TelegramPublishing.GiveUpIsPermanent | app/services/queue.py:595-603 | an error that ends a send at once is permanent exactly when the status or the error code is a 4xx |
| TelegramPublishing.AcceptedIff | app/telegram/publisher.py:256-305 | a message counts as taken exactly for a JSON answer with `ok`, no 5xx and no rate limit |
| TelegramPublishing.ErrorTells | app/telegram/publisher.py:256-310 | the error of a refused message carries Telegram's description and error code, and the HTTP status if that is an error, 429 for a rate limit |
| TelegramPublishing.RetriedIff | app/telegram/publisher.py:247-300 | a post is retried exactly for a transport error, a 5xx, a rate limit or an error code from 500 up |
| TelegramPublishing.SendStopsAt | app/telegram/publisher.py:239-320 | a send stops at the first reply that is not to be retried, else after four, and that reply decides its outcome |
| TelegramPublishing.PlanFits | app/telegram/publisher.py:165-231 | captions are at most 1024 long and texts at most 4096; a photo is sent first and only when there is an image |
| TelegramPublishing.PlanButtonOnLast | app/telegram/publisher.py:134-231 | the button is on the last message and on no other |
| TelegramPublishing.PlanKeepsText | app/telegram/publisher.py:165-231 | all text except newlines is sent, in order, across caption and follow-ups |
| TelegramPublishing.TelegramPublisher.Post | app/telegram/publisher.py:239-320 | the retry loop posts, classifies and retries as the specification does, and leaves its trace of posts |
| TelegramPublishing.TelegramPublisher.Send | app/telegram/publisher.py:79-132 | without a bot token nothing is posted; otherwise one retried post |
| TelegramPublishing.TelegramPublisher.PublishTextChunks | app/telegram/publisher.py:165-186 | the chunk loop sends the text plan in order until the first failure |
| TelegramPublishing.TelegramPublisher.PublishWithPhoto | app/telegram/publisher.py:188-231 | photo then follow-ups are the photo plan, in order until the first failure |
| TelegramPublishing.TelegramPublisher.Publish | app/telegram/publisher.py:134-163 | a publish sends exactly its plan |
| TelegramPublishing.PostTries | app/telegram/publisher.py:239-320 | one send posts the same message one to four times and is acknowledged at most once, not at all when it ends in a Telegram error |
| TelegramPublishing.SendFromAdds | app/telegram/publisher.py:175-231 | the acknowledged messages are a prefix of the plan, each posted at most four times and in plan order |
| TelegramPublishing.FirstReceiptWins | app/telegram/publisher.py:134-231 | the result of a publish is that of its first message |
| TelegramPublishing.PublishFollowsPlan | app/telegram/publisher.py:134-231 | the above for a whole publish: all of the plan on success, a proper prefix on a Telegram error |
| TelegramPublishing.PublishAccounted | app/telegram/publisher.py:165-320 | over a publish, what Telegram published is what it acknowledged plus the lost answers, and of each message no more than was posted |
| TelegramPublishing.PublishPostsBound | app/telegram/publisher.py:239-320 | a publish posts a message at most four times per occurrence in its plan |
| ContentHash.ReadStringInverts | app/services/queue.py:570-575 | a reader recovers every JSON-escaped string (section 7 of RFC 8259) with whatever follows it |
| ContentHash.CanonicalRoundTrip | app/services/queue.py:560-575 | a reader recovers every field from the canonical JSON |
| ContentHash.CanonicalInjective | app/services/queue.py:550-576 | equal preimages are equal payloads: chat, text, image, button, type and parse mode |
| ContentHash.CanonicalFields | app/services/queue.py:560-575 | the canonical JSON key by key, in sorted order, null or quoted |
| ContentHash.SpecialsAreEscaped | app/services/queue.py:570-575 | quote, backslash and control characters are escaped as section 7 of RFC 8259 has them |
| PublishProtocol.LatestIsCount | app/repositories/queue.py:162-172 | the highest attempt number of an item is how many attempts it has |
| PublishProtocol.RowsAppend | app/services/queue.py:334-388 | inserting a started attempt when no guard is active keeps numbering and the 24-hour separation |
| PublishProtocol.RowsSettle | app/services/queue.py:431-450 | writing an outcome to a started row keeps numbering and separation and touches no other row |
| PublishProtocol.RefusedClaim | app/services/queue.py:334-375 | a refused claim inserts nothing and touches no other item; already delivered content ends PUBLISHED, unchanged |
| PublishProtocol.HealInv | app/services/queue.py:340-351 | healing an item from its succeeded attempt keeps the whole invariant |
| PublishProtocol.NextInv | app/services/queue.py:161-269 | every step by anyone keeps the invariant on rows, items, workers and events |
| PublishProtocol.RunInv | app/services/queue.py:161-269 | so does every run |
| PublishProtocol.LiveAttemptsFarApart | app/services/queue.py:320-391 | in every reachable state two live attempts of one item and hash were claimed at least 24 hours apart |
| PublishProtocol.GuardIsUnique | app/repositories/queue.py:174-195 | from now on at most one row guards an item and hash, and the lookup returns exactly that row |
| PublishProtocol.NoConcurrentDuplicateSend | app/services/queue.py:320-405 | two workers sending one payload for one item claimed it at least 24 hours apart |
| PublishProtocol.MessageIdsAreReal | app/models/queue.py:150-171 | a stored message id was acknowledged by a succeeded attempt of that item, and every row meets the outcome constraint |
| PublishProtocol.AttemptNumbering | app/services/queue.py:723-740 | attempts of an item are numbered 1..n in claim order and `retry_count` is n |
| PublishProtocol.NumberIdentifiesRow | app/models/queue.py:172-176 | item and attempt number determine the row |
| PublishProtocol.EventLogIsFaithful | app/services/queue.py:392-404 | per attempt at most one started event, then at most one outcome event, each describing the one committed row, terminal exactly for a dead letter |
| PublishProtocol.RunGrows | app/services/queue.py:431-450 | rows are never removed or renumbered, and an outcome once written stays in every continuation |
| PublishTask.ClaimOwnsRow | app/services/queue.py:377-405 | a successful claim adds exactly one started row and hands back that row with the values read under the lock |
| PublishTask.ExecuteIsRun | app/services/queue.py:161-269 | an execution alone is a run of the protocol, so all reachable-state results hold for it |
| PublishTask.ExecuteStep | app/services/queue.py:161-269 | one unblocked execution adds one settled attempt, leaves other items and the content alone, and concludes the item exactly on success or a terminal error |
| PublishTask.TaskFromConcludes | app/worker/tasks/publishing.py:106-120 | the retry loop from any execution on: one attempt each, all but the last failed, and a concluded item |
| PublishTask.TaskConcludes | app/worker/tasks/publishing.py:70-120 | a task ends PUBLISHED with a succeeded attempt or FAILED with a dead letter, one attempt per execution, none started, and stops exactly where stated |
| PublishTask.PermanentErrorIsRetried | app/worker/tasks/publishing.py:106-120 | permanent client errors use up all four executions and leave a dead letter in each |
| PublishContent.SnapshotCarries | app/services/queue.py:407-429 | the messages planned for an item carry all of its text but newlines in order, its own or else its product's image first, its own or else its product's link on the last, and no parse mode |
| PublishContent.ClaimCarriesItem | app/services/queue.py:377-429 | a claim hands on just that for the item as it stands, and its channel's chat id |
| PublishContent.KeyFixesMessages | app/services/queue.py:550-576 | one guard key never stands for two texts, two message plans or two chats |
| PublishContent.DeliveredIsContent | app/services/queue.py:178-200 | a publish that succeeds has had all of the item acknowledged, and nothing else |
| PublishContent.TaskDeliversContent | app/worker/tasks/publishing.py:106-120 | the last messages acknowledged in a task that returns are the whole item |
| PublishContent.ChecksPassIff | app/services/queue.py:185-191 | Telegram is contacted exactly for an item that is not PUBLISHED and has a known, active channel in which the bot is granted or partial and can post |
| PublishContent.BlockedExecution | app/services/queue.py:185-269 | an item that fails a check is not posted and ends FAILED with a dead letter naming the check |
| PublishContent.FailureIsDeadLetterIff | app/services/queue.py:249-269 | a failure at Telegram is a dead letter and fails the item exactly in the last execution or for a hopeless error; otherwise item untouched, attempt plainly failed with the code Telegram gave |
| PublishContent.SuccessIsRecorded | app/services/queue.py:202-210 | the item gets status, time of finish and message id, and the one new row guards the claimed content for 24 hours |
| PublishContent.BlockedClaim | app/services/queue.py:334-375 | a blocked claim says in progress or completed; a completed one gives an item left behind the attempt's time and message id where it has none |
| PublishEvents.LoneRunLogs | app/services/queue.py:392-404 | a publish whose events are delivered logs its start and the outcome its row records |
| PublishEvents.CrashLeavesGuard | app/services/queue.py:320-405 | a crash after the claim leaves the item alone and refuses the same content as in progress for exactly 24 hours |
| PublishDelivery.TaskOnWireIsTask | app/worker/tasks/publishing.py:106-120 | with the publisher attached, the task does to the tables what the task lemmas say for the outcomes Telegram causes |
| PublishDelivery.WireTaskConcludes | app/worker/tasks/publishing.py:70-120 | so it concludes the item for every behaviour of Telegram |
| PublishDelivery.TaskAcknowledges | app/services/queue.py:178-200 | each execution has one prefix of the plan acknowledged, a proper one wherever Celery retries, and a successful task ends with the whole plan |
| PublishDelivery.AcknowledgedAtMostFourTimes | app/worker/tasks/publishing.py:78-85 | per occurrence in the plan a message is acknowledged at most four times |
| PublishDelivery.LongPlanDuplicates | app/worker/tasks/publishing.py:81-85 | if the last message keeps being refused, all others are acknowledged in every execution |
| PublishDelivery.AcknowledgesNoMoreIff | app/worker/tasks/publishing.py:81-85 | no behaviour of Telegram makes a task acknowledge a message more often than planned exactly when the plan is one message |
| PublishDelivery.TaskAccounted | app/worker/tasks/publishing.py:106-120 | from any execution on: what was published is what was acknowledged plus the lost answers, and four posts per execution and occurrence bound the posts of a message |
| PublishDelivery.PublishedAtMostSixteenTimes | app/telegram/publisher.py:239-320 | a task publishes a message at least as often as it is acknowledged and at most sixteen times per occurrence in the plan; the surplus is the number of lost answers |
| PublishDelivery.LostAnswersDuplicate | app/telegram/publisher.py:247-253 | if every answer is lost, the first message of any plan is published sixteen times, and the task ends in an error with nothing acknowledged |
| PublishDelivery.PublishesNoMoreIff | app/telegram/publisher.py:247-253 | no behaviour of Telegram makes a task publish a message more often than planned exactly when no answer can be lost and the plan is one message |
| PublishDelivery.ShortTextIsOneMessage | app/telegram/publisher.py:134-231 | a text within the limit of its message type is a plan of one message |
| PublishDelivery.PermanentErrorIsResent | app/services/queue.py:249-269 | a permanently refused message is posted in all four executions and leaves four dead letters |
| ItemStatus.CreatedItemOk | app/services/queue.py:654-679 | a created item has consistent times, no message id, a channel if publishable, and button text and URL together |
| ItemStatus.UpdatedItemOk | app/services/queue.py:742-788 | what an accepted edit is about to flush has consistent times, invents no message id and never sets FAILED |
| ItemColumns.CreateAcceptedIff | app/services/queue.py:654-679 | which create requests are accepted: schema, schedule, product and channel, requested or default |
| ItemColumns.CreateErrorTells | app/services/queue.py:654-679 | a refused create is a schema error, a missing product or channel, or a validation error, as the request has it |
| ItemColumns.CreateStoresRequest | app/services/queue.py:654-679 | the item is what was asked for, completed from the workspace default, the product's image and its affiliate link |
| ItemColumns.EditAcceptedIff | app/services/queue.py:742-768 | which edits of a row are accepted |
| ItemColumns.EditErrorTells | app/services/queue.py:742-768 | likewise a refused edit; a null for a required column is found last |
| ItemColumns.EditWritesColumns | app/services/queue.py:766-788 | whatever others wrote meanwhile, the flush writes the named columns and those that go with a named status, and nothing else |
| ItemStatus.FlushKeepsTimesIff | app/repositories/base.py:29-32 | a flush over a row others may have changed keeps status and times consistent exactly when it is not torn |
| ItemStatus.UntouchedRowIsNotTorn | app/repositories/base.py:29-32 | no flush is torn when the row still has the status and times that were read |
| ItemStatus.UnpublishTornIff | app/services/queue.py:776-788 | an edit to draft or queued is torn exactly when a publish time or message id has appeared since its read |
| ItemStatus.ScheduleTornIff | app/services/queue.py:776-788 | an edit to scheduled is torn exactly as one to draft is, or when it asks for the schedule it read and the row has lost it |
| ItemStatus.PublishTornIff | app/services/queue.py:776-788 | an edit to published is torn exactly when it read this very instant as publish time and the row has none |
| ItemStatus.SameStatusTornIff | app/services/queue.py:776-788 | an edit that leaves the status is torn exactly when it unschedules an item that is SCHEDULED by now or dates one that is unpublished by now |
| ItemStatus.FinishTornIff | app/services/queue.py:202-210 | a successful finish is torn exactly when the claim had read this very instant as publish time and the row has lost it |
| ItemStatus.NextKeepsTimesIff | app/services/queue.py:161-269 | any step keeps the times of all items consistent exactly when it is no torn write |
| ItemStatus.StatusMatchesTimes | app/services/queue.py:742-808 | in every run: SCHEDULED has a zoned schedule time, PUBLISHED a publish time, a message id a publish time, and a publish time means PUBLISHED or FAILED, throughout, exactly when no write is torn |
| CalmRuns.AllowedIsNotTorn | app/services/queue.py:742-808 | no write is torn whose item was not written since its read, and no finish after the instant of its claim |
| CalmRuns.CalmKeepsTimes | app/services/queue.py:742-808 | status and times agree throughout every run whose schedule puts no write of the item between an edit's read and flush and lets the clock move between claim and finish |
| ItemStatus.EditOverFinishTears | app/services/queue.py:742-808 | a reachable run in which an edit straddles a publish and leaves a draft with a publish time and a message id |
| ItemStatus.PublishedLostIff | app/services/queue.py:452-478 | a step takes an item out of PUBLISHED exactly when it is an edit to another status or the mark of a dead letter claimed as not FAILED |
| ItemStatus.PublishedFallsIff | app/services/queue.py:185-186 | publishing a PUBLISHED item makes it FAILED exactly when no live attempt guards its content |
| ItemStatus.PublishedFallsAtOnce | app/services/queue.py:185-186 | a reachable run: created as PUBLISHED, FAILED after its first publish |
| ItemStatus.DeadLetterFailsItemIff | app/services/queue.py:452-478 | in every reachable state, marking leaves the item of a dead letter FAILED exactly when the claim did not see FAILED or the row is FAILED by now |
| ItemStatus.DeadLetterLeavesDraft | app/services/queue.py:452-478 | claim a FAILED item, edit it to draft, fail for good: the item stays a draft |
| ItemStatus.DeadLetterLeavesDraftReached | app/services/queue.py:452-478 | that run exists from an empty database |
| QueueStore.QueueStore.Create | app/services/queue.py:654-679 | the create path writes exactly the created item or reports exactly its error |
| QueueStore.QueueStore.Update | app/services/queue.py:742-808 | for a row read earlier, whatever was written since: checks, assignments, status effects and the flush of changed columns equal the edit's write step |
| QueueStore.QueueStore.ClaimPublish | app/services/queue.py:320-405 | lock, guard, heal or insert equal one claim transaction |
| QueueStore.QueueStore.PersistAttemptOutcome | app/services/queue.py:431-450 | the row gets its outcome and keeps item, number, hash and times; all other rows stay |
| QueueStore.QueueStore.MarkAttemptFailed | app/services/queue.py:496-548 | the attempt is failed with its code, or a dead letter prefixed with that code |
| QueueStore.QueueStore.MarkItemFailed | app/services/queue.py:468-494 | the item moves to FAILED unless the claim already saw it FAILED |
| QueueStore.QueueStore.MarkPublished | app/services/queue.py:202-210 | attempt outcome and the three item fields change together and nothing else does |
| QueueStore.QueueStore.Conclude | app/services/queue.py:202-269 | the success path and the except path as one function of the send result |
| QueueStore.QueueStore.FinishPublish | app/services/queue.py:178-269 | after the claim, in whatever tables others have left meanwhile: the checks and the send result are those of the claimed values, and the rows as they are now are settled |
| QueueStore.QueueStore.PublishQueueItem | app/services/queue.py:161-269 | with no other writer, the method is the execution the task lemmas are about |
| QueueStore.QueueStore.PublishQueueItemTask | app/worker/tasks/publishing.py:106-120 | the retry loop is the task run that `TaskConcludes` is about |
| QueueStore.QueueStore.PublishThrough | app/services/queue.py:178-200 | Telegram is contacted only after every check has passed, with exactly the plan of the snapshot taken under the lock |
| QueueStore.QueueStore.PublishTaskThrough | app/worker/tasks/publishing.py:106-120 | the retry loop with a publisher attached is the task on the wire that `PublishDelivery` is about |
| AuthTokens.RotateOk | app/auth/service.py:83-104 | consuming a token and linking its replacement keeps the table in order |
| AuthTokens.ApplyOk | app/auth/service.py:51-141 | every operation keeps the table in order and overwrites no revocation or replacement |
| AuthTokens.RunOk | app/auth/service.py:51-141 | so does every run: `revoked_at` and `replaced_by_id` are written once |
| AuthChains.RootIsLogin | app/auth/service.py:51-141 | following predecessors ends at a login of the same user |
| AuthChains.OneChainPerToken | app/auth/service.py:97-104 | each token lies on the chain of exactly one login |
| AuthChains.ChainIsLinear | app/auth/service.py:97-104 | of two tokens of a chain the later is reached from the earlier |
| AuthChains.OneUnrevokedPerChain | app/auth/service.py:84-104 | only the last token of a chain can be unrevoked |
| AuthChains.UnrevokedAtMostLogins | app/auth/service.py:51-141 | a user's unrevoked tokens never outnumber that user's logins |
| AuthChains.ChainsInEveryRun | app/auth/service.py:51-141 | all of this in every state reachable from an empty table |
| AuthChains.ReuseRevokesAll | app/auth/service.py:72-74 | presenting a consumed or revoked token revokes every token of its user and no other row |
| AuthChains.LockedOutUntilLogin | app/auth/refresh_token_repository.py:46-62 | after that no refresh for the user succeeds in any continuation without a login of that user |
| AuthChains.RefreshSucceedsIff | app/auth/service.py:64-81 | a refresh succeeds exactly for an unrevoked, unexpired token of an active user |
| AuthChains.LoginSucceedsIff | app/auth/service.py:51-62 | a login succeeds exactly with good credentials of an active user and else changes nothing |
| AuthChains.LoginLastsSevenDays | app/auth/service.py:125-141 | it adds one token for its user, good for a refresh for seven days and not after |
| AuthChains.RotationRenews | app/auth/service.py:83-109 | a rotation consumes and links one token and adds one that starts its own seven days |
| AuthChains.RefusedRefreshIsHarmless | app/auth/service.py:64-81 | a refresh of an unknown or expired token or for an inactive user changes nothing |
| AuthChains.LogoutRevokesOne | app/auth/service.py:111-118 | a logout revokes the presented token and no other |
| AuthChains.ReplayAfterRotation | app/auth/service.py:64-109 | presenting a token again after its rotation is reuse and revokes all |
| AuthChains.RefreshAfterLogout | app/auth/service.py:111-118 | so is presenting it after its logout |
| AuthChains.AuthService.SignIn | app/auth/service.py:51-62 | a login adds one token exactly for an active user with good credentials |
| AuthChains.AuthService.Rotate | app/auth/service.py:64-109 | the refresh method is the refresh transaction the chain lemmas are about |
| AuthChains.AuthService.SignOut | app/auth/service.py:111-118 | a logout revokes the presented token if it is unrevoked |
| AuthChains.AuthService.HandleReuse | app/auth/service.py:120-123 | the bulk update revokes the user's unrevoked, unreplaced rows, touches no other row, and in an orderly table leaves the user no unrevoked token |
| AuthChains.AuthService.IssueRefreshToken | app/auth/service.py:125-141 | one new unrevoked row is added at the end |
| ApiClient.UsableRefresh | app/auth/service.py:64-109 | refreshing an unrevoked token never looks like reuse, and on success moves usability to the new token |
| ApiClient.UnauthorizedInv | frontend/src/services/api-client.ts:195-236 | a 401 starts a refresh only when none is in flight, with the stored token, which is unrevoked and was never sent |
| ApiClient.NextInv | frontend/src/services/api-client.ts:162-237 | every step of browser, network, server, other users and the user's other sessions keeps the composed invariant |
| ApiClient.SingleFlightIsSafe | frontend/src/services/api-client.ts:162-237 | after one login, in every interleaving, with requests and answers lost or late: no request is sent more than twice, and until a reload cuts off a refresh no refresh token is sent twice, each one sent is unrevoked, and no reuse is detected |
| ApiClient.StoredTokenIsNew | frontend/src/services/session.ts:22-37 | between tasks, the stored token of an idle browser is unrevoked and was never sent |
| ApiClient.RefreshServesAll | frontend/src/services/api-client.ts:162-236 | two requests that meet a 401 share one POST; the new token is stored and each of them is sent once more, no other request touched |
| ApiClient.ErasedOnlyBy | frontend/src/services/api-client.ts:157-236 | the stored token is erased only by a second 401 of one request or by a waiter whose refresh failed |
| ApiClient.StaysSignedIn | frontend/src/services/api-client.ts:162-236 | without losses, refused refreshes and second 401s, no run signs the browser out |
| ApiClient.WaitersAreServed | frontend/src/services/api-client.ts:175-182 | in every run a waiting request has a refresh under way that will wake it |
| ApiClient.ReloadIsPunished | frontend/src/services/api-client.ts:162-182 | a reload after the server rotated and before the answer arrived: the next 401 presents the spent token, which is reuse and revokes every token of the user |
| ApiClient.RequestCarriesChainEnd | frontend/src/services/api-client.ts:162-182 | in such runs a refresh in flight carries the last and only unrevoked token of its chain |
| ApiClient.Session.HandleUnauthorized | frontend/src/services/api-client.ts:206-225 | the interceptor up to its await is the 401 step |
| ApiClient.Session.RefreshAccessToken | frontend/src/services/api-client.ts:175-182 | a POST goes out only when none is in flight |
| ApiClient.Session.StoreAnswer | frontend/src/services/api-client.ts:167-172 | a successful answer replaces the stored token |
| ApiClient.Session.Settle | frontend/src/services/api-client.ts:177-179 | the in-flight slot is cleared and every waiter woken |
| ApiClient.Session.Continue | frontend/src/services/api-client.ts:224-235 | a woken request is sent once more or gives up |
| ApiClient.Session.ClearAndReject | frontend/src/services/api-client.ts:157-160 | the stored token is cleared and the request is over |
| RateLimit.RunOk | app/core/rate_limit.py:105-115 | every interleaving of INCR, EXPIRE and time keeps lives disjoint and hits counted from 1 |
| RateLimit.LifeAdmitsFirst | app/core/rate_limit.py:155-156 | a hit is admitted exactly when fewer than `limit` hits precede it in its key lifetime |
| RateLimit.CloseHitsAdjacentLives | app/core/rate_limit.py:111-113 | hits less than a window apart lie in the same or in adjacent lifetimes |
| RateLimit.SpanBound | app/core/rate_limit.py:105-156 | a half-open span of one window admits at most 2 * limit |
| RateLimit.WindowBound | app/core/rate_limit.py:105-168 | both bounds for every run from an untouched key |
| RateLimit.RetryAfterBounds | app/core/rate_limit.py:158 | the wait told to a rejected caller is between one second and one window |
| RateLimit.WaitingHelpsIff | app/core/rate_limit.py:155-168 | a rejected caller who waits as told is admitted exactly if the key got its expiry; one that never did rejects on |
| RateLimit.CountedAlone | app/core/rate_limit.py:105-115 | an uninterrupted request joins the life under way or starts one that ends a window later |
| RateLimit.Limiter.IncrementFixedWindow | app/core/rate_limit.py:105-115 | count and TTL are those of INCR followed by EXPIRE on a new key; if a command fails, those before it have taken effect |
| RateLimit.Limiter.Enforce | app/core/rate_limit.py:127-168 | a request Redis answers adds one hit and passes exactly when that hit is admitted; any other passes |
| SseStream.DeliverOk | app/api/v1/queue_stream.py:67-80 | delivering an event keeps received plus buffered a prefix of the workspace's events, overflow included |
| SseStream.DisconnectOk | app/api/v1/queue_stream.py:82-92 | the disconnect watcher keeps it |
| SseStream.TakeOk | app/api/v1/queue_stream.py:97-111 | reading an entry keeps it |
| SseStream.NextOk | app/api/v1/queue_stream.py:53-123 | every step of any client or publisher keeps it for all clients |
| SseStream.ReceivesPrefix | app/api/v1/queue_stream.py:53-123 | a client has received a gap-free in-order prefix of its events since it subscribed, with at most 64 buffered |
| SseStream.TogetherReceiveAlike | app/events/broadcaster.py:37-52 | of two clients that subscribed together, one received a prefix of the other |
| SseStream.RoomMeansBuffered | app/api/v1/queue_stream.py:67-80 | an event of the workspace is buffered while fewer than 64 entries wait, and closes the stream at 64 |
| SseStream.ClosesIff | app/api/v1/queue_stream.py:67-111 | in every reachable state a step closes an open stream exactly on disconnect, cancel, a heartbeat that finds the client gone, or an event at 64 waiting |
| SseStream.DisconnectEnds | app/api/v1/queue_stream.py:82-111 | a disconnect ends a stream that waits on an empty buffer at once, and one at its loop head there |
| SseStream.NothingMissed | app/api/v1/queue_stream.py:53-123 | without those causes the stream stays open, and received plus buffered are all events since it subscribed |
| SseStream.ReadingDrains | app/api/v1/queue_stream.py:96-111 | reading on hands out the whole buffer in order |
| SseStream.Connection.PutNoWait | app/api/v1/queue_stream.py:72-80 | the bounded put appends exactly when there is room |
| SseStream.Connection.Receive | app/api/v1/queue_stream.py:67-80 | the callback is the delivery step |
| SseStream.Connection.NoticeDisconnect | app/api/v1/queue_stream.py:82-92 | the watcher is the disconnect step |
| SseStream.Connection.EnterWait | app/api/v1/queue_stream.py:96-101 | the loop head ends a closed stream and otherwise starts to wait |
| SseStream.Connection.TakeEntry | app/api/v1/queue_stream.py:98-111 | an entry, whether it was there or arrived during the wait, is taken as the read step says |
| SseStream.Connection.TimeOut | app/api/v1/queue_stream.py:102-106 | the timeout ends the stream of a client that is gone and otherwise goes back to the loop head |
| SseStream.EventBroadcaster.Register | app/events/broadcaster.py:27-31 | a subscriber is added last |
| SseStream.EventBroadcaster.Unregister | app/events/broadcaster.py:33-35 | exactly that subscriber is removed, order kept; unknown ones are ignored |
| SseStream.EventBroadcaster.Publish | app/events/broadcaster.py:37-52 | every callback is awaited once, in registration order, and a failing one keeps no other from the event |
| Scoring.QuantizeMonotone | app/recommendations/scoring.py:48-64 | half-up rounding preserves order |
| Scoring.QuantizeSum | app/recommendations/scoring.py:113-116 | a sum of rounded contributions needs no further rounding |
| Scoring.TotalIsSum | app/recommendations/scoring.py:106-117 | the total is the sum of the contributions shown, each within its weight, and lies in 0..100 |
| Scoring.NormalizedMonotone | app/recommendations/scoring.py:82-104 | each normalized factor is monotone in its attribute, a missing value lowest |
| Scoring.ScoreMonotone | app/recommendations/scoring.py:67-117 | a product at least as good in everything never scores lower, rounding included |
| Scoring.ScoreMeasures | app/recommendations/scoring.py:82-117 | up to half a quantum each, the contributions are 6 per star, 0.15 per percent discount, 0.25 per percent commission, 10 by price range, 20 by logarithm of sales; the total is within 0.00025 |
| Scoring.ScoreEnds | app/recommendations/scoring.py:48-104 | missing or worthless attributes earn nothing, full ones their weight, and exactly missing ones are reported so |
| Recommendations.BeforeTotal | app/services/recommendations.py:106-121 | the ranking keys are totally ordered |
| Recommendations.BeforeTransitive | app/services/recommendations.py:106-121 | and transitively |
| Recommendations.MarketIgnoresOrder | app/services/recommendations.py:48-51 | the price range and top sales do not depend on row order |
| Recommendations.SortedCorrect | app/services/recommendations.py:65 | sorting gives the same products in key order |
| Recommendations.SortedUnique | app/services/recommendations.py:65 | and that order is the only one, because the key ends in a unique id |
| Recommendations.OrderDoesNotMatter | app/services/recommendations.py:34-73 | the response is the same for every order of the candidate rows |
| Recommendations.AheadBy | app/services/recommendations.py:106-121 | a higher score ranks ahead; ties go by rating, sales, commission with none lowest, lower price, and at last id |
| Recommendations.RecommendedByScore | app/services/recommendations.py:48-73 | the response has as many candidates as asked for or there are, ranked 1, 2, 3, ... with their own scores, never rising |
| Recommendations.LeftOutScoresNoMore | app/services/recommendations.py:65-66 | a candidate left out scores no more than any item returned |
| Recommendations.ItemsScoreTheirWorth | app/services/recommendations.py:48-66 | an item's total is, within 0.00025, the weighted sum of its own columns against the candidates' price range and top sales |
| Recommendations.DominanceRanksAhead | app/services/recommendations.py:106-121 | a product at least as good in everything and better in rating, sales, commission or price ranks strictly ahead |
| Recommendations.DominanceInResult | app/services/recommendations.py:65-66 | and so comes earlier in the sorted candidates |
| Recommendations.Recommend | app/services/recommendations.py:34-73 | the service method returns the ranked top n that these lemmas are about, none for no candidates |
| MarketingDocument.ParseMarketingDocument | frontend/src/features/ai/lib/document.ts:4-90 | the loop over lines and local variables computes the parse the round trip is about |
| MarketingDocument.DoFlushParagraph | frontend/src/features/ai/lib/document.ts:11-16 | the closure closes the pending paragraph and touches nothing else |
| MarketingDocument.DoFlushList | frontend/src/features/ai/lib/document.ts:18-27 | the closure closes the pending list and touches nothing else |
| DocumentRoundTrip.HeadingLine | frontend/src/features/ai/lib/document.ts:37-48 | a printed heading reads as a heading of its level with its text |
| DocumentRoundTrip.BulletLine | frontend/src/features/ai/lib/document.ts:50-57 | a printed bullet reads as that list item and as nothing earlier |
| DocumentRoundTrip.NumberedLine | frontend/src/features/ai/lib/document.ts:59-66 | a printed numbered item, whatever its number, reads as that list item |
| DocumentRoundTrip.BlockParses | frontend/src/features/ai/lib/document.ts:29-87 | the printed lines of a block add exactly that block |
| DocumentRoundTrip.PrintedLines | frontend/src/features/ai/lib/document.ts:92-112 | the parser sees the lines of each block in turn with one blank line between, whatever the texts and URLs contain |
| DocumentRoundTrip.RoundTrip | frontend/src/features/ai/lib/document.ts:4-112 | parsing a printed document gives it back |
| DocumentRoundTrip.SerializeInjective | frontend/src/features/ai/lib/document.ts:92-112 | different printable documents print differently |
| DocumentRoundTrip.CtaRoundTripsIff | frontend/src/features/ai/lib/document.ts:68-112 | a clean CTA block survives exactly when it has no URL, its text holds none, and the text reads as a CTA line |
| DocumentRoundTrip.UnprintableParses | frontend/src/features/ai/lib/document.ts:68-112 | after any blocks, a clean block that is not printable is read as another block or as more than one |
| DocumentRoundTrip.EachBlockCounts | frontend/src/features/ai/lib/document.ts:4-112 | every clean block yields at least one block, whatever its neighbours |
| DocumentRoundTrip.DocumentRoundTripsIff | frontend/src/features/ai/lib/document.ts:4-112 | a nonempty document of clean blocks is given back exactly when all of them are printable |
| DocumentRoundTrip.ParagraphRoundTripsIff | frontend/src/features/ai/lib/document.ts:68-85 | a lone clean paragraph survives exactly when it is no heading, list or CTA line |
| TightDocument.TightParses | frontend/src/features/ai/lib/document.ts:4-90 | without blank lines, neighbouring paragraphs come back joined by a space, neighbouring lists of one kind as one list, all else as it was |
| TightDocument.TightRoundTripsIff | frontend/src/features/ai/lib/document.ts:4-90 | so blank lines matter exactly between two paragraphs and two lists of one kind |
| TightDocument.AnyBullet | frontend/src/features/ai/lib/document.ts:50-57 | hyphen, asterisk and bullet with any gap mark an item |
| TightDocument.AnyNumber | frontend/src/features/ai/lib/document.ts:59-66 | any digits with a point or a parenthesis and any gap number an item |
| TightDocument.AnyHeading | frontend/src/features/ai/lib/document.ts:37-48 | two or three hashes and any gap head a section of that level |
| TightDocument.PaddingIgnored | frontend/src/features/ai/lib/document.ts:29-30 | spaces around a line do not matter |
| TightDocument.CtaWords | frontend/src/features/ai/lib/document.ts:68-70 | a line that begins with one of the seven words is a call to action |
| TightDocument.UrlLineIff | frontend/src/features/ai/lib/document.ts:68-71 | any other line with "http" is one exactly when it has fewer than 180 code units |
| TightDocument.CtaLineSplits | frontend/src/features/ai/lib/document.ts:72-81 | a call to action with its URL behind the text becomes text and URL |
| TightDocument.CtaTextHasNoUrl | frontend/src/features/ai/lib/document.ts:72-81 | the URL is the first of the line and the text holds none of its URLs, unless the line is nothing but URLs |
| TightDocument.BlankDocument | frontend/src/features/ai/lib/document.ts:87-90 | a blank text is one empty paragraph, which prints as nothing |
| TightDocument.EmptyBlocksVanish | frontend/src/features/ai/lib/document.ts:92-112 | a block that prints nothing leaves no trace |

## Left out

- DocumentRoundTrip.DocumentRoundTripsIff: blocks whose texts are empty, untrimmed or of several lines are not considered.
- QueueStore.QueueStore.PublishQueueItem: has no other writer between claim and finish; `QueueStore.QueueStore.FinishPublish` allows writers there, and `PublishProtocol`, with the same transaction functions, between all commits.
- RateLimit.WindowBound: counts only requests that Redis counts; requests let through while Redis fails are not bounded by anything. Identity resolution and key building are not modelled, and TTLs are whole seconds.
- Scoring.TotalIsSum: Python's 28-digit context rounding and the float quotient of two `log1p` values are not modelled; arithmetic is over reals.
- SseStream.Connection.TimeOut: the heartbeat frame itself is not recorded, and an item lost inside `asyncio.wait_for` at the moment of a timeout is not modelled.
- TelegramPublishing.Plan: the chat is not part of a message; every message of a publish goes to the one chat of its payload.
- Recommendations.Recommend: candidate loading, filters and keyword matching happen before it; the in-place sort is modelled as a function on sequences.
- PublishProtocol.EventLogIsFaithful: the log holds attempt events only; status-changed and deleted events are not modelled. An event that could not be delivered is absent from the log.
- Batch loops over due and queued items, item deletion, workspace filtering, titles, attempt listings and the failure fields of the read model.
- Stale identity-map reads of the ORM within one session, and a database failure inside a transaction (a worker that dies there is a crash step).
- ItemStatus.StatusMatchesTimes: an edit sees one catalog for all its checks, at the moment it reads the row.
- The branches of refresh that need the consume update or the replacement lookup to fail under the row lock.
- Telegram error codes that are not integers, backoff and jitter, and the content of log messages.
- SHA-256, bcrypt, JWT, random tokens; the access token, the workspace header, the cookie and the redirect in the browser; `list_active_for_user`.
- ApiClient.SingleFlightIsSafe: this browser's own logout and second login, a duplicated tab that starts with a copy of the stored token, and other sessions that present a consumed or revoked token of the user, which ends all of the user's sessions by design (`AuthChains.ReuseRevokesAll`).
- AuthChains.ReuseRevokesAll: treats refreshes as atomic. Under READ COMMITTED the bulk update of `_handle_reuse` does not see a replacement that a concurrent refresh of another of the user's tokens has inserted and not yet committed, so that token outlives the revocation.
- CalmRuns.CalmKeepsTimes: goes one way; the exact condition, `ItemStatus.StatusMatchesTimes`, looks at the states of the run.
- SQLAlchemy, Redis, Celery, httpx and axios internals, React components, prompts, the product catalog importer, settings and dashboards: I/O, user interface or easy members.
