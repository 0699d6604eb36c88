# Walk-in queue and e-mail queue: a Dafny model

This project models the decision logic of a walk-in service queue with e-mail
notifications. It has three parts.

- **Ticket queue coordinator** (`lib/queue-service.ts`, module `QueueService`,
  file `queue_service.dfy`). There is a ticket table and one settings row. A
  ticket is `waiting`, `being_served`, `completed` or `abandoned`. Clients
  enrol (`addToQueue`), the desk calls the next client (`callNextClient`),
  completes the current service (`completeCurrentService`), and a client can
  leave (`abandonQueue`). After each change the clients near the front are
  warned (`checkAndNotifyUpcoming`). The store is the fields of class
  `QueueCoordinator`. The read queries (`getQueueClients`, `getCurrentTicket`)
  and the selection of warnings are pure functions. Every e-mail handed to the
  gateway is appended to the field `outbox`.
- **E-mail job queue** (`lib/email-queue.ts`, module `EmailQueue`, file
  `email_queue.dfy`). Class `EmailQueueManager` keeps a list of jobs in
  non-increasing priority order. It hands out the first pending job, retries a
  failed job until its attempt limit, reports counts, purges completed jobs,
  and runs a single-flight processing tick.
- **Batch list parser** (`components/batch-email-form.tsx`, module
  `BatchEmailForm`, file `batch_email_form.dfy`). Pasted text becomes one
  e-mail request per trimmed line that contains `@`. The form's "valid
  e-mails" counter is proved to agree with what the submit sends.

`base.dfy` (module `Base`) holds `Option` and `Result`. `Result` carries the
error an operation of the source throws.

What the model decides for things outside the code:

- The gateway is a parameter. In the ticket queue it is `delivered: Notice ->
  bool`: true means the send returned, false means it threw. In the job queue
  each tick takes a `SendOutcome`: `Delivered`, `Rejected(body)` or `Thrown`.
- Row ids and job ids are fresh natural numbers from a counter. The source
  uses store-generated UUIDs and `crypto.randomUUID`.
- Timestamps are `Stamp` (natural number) parameters.
- In the ticket queue, the result of the settings write in `addToQueue` is the
  parameter `settingsWriteOk`. The source only logs a failure of that write.

Four behaviours of the code are easy to miss.

- `abandonQueue` changes the status whatever it was before. See
  `QueueService.QueueCoordinator.AbandonQueue`.
- Stored positions are not places in the line: they are never renumbered. See
  `QueueService.StalePositionCollision`.
- More than one ticket can be `being_served` at once. See
  `QueueService.CallKeepsEarlierServed`.
- A failed confirmation or your-turn e-mail makes the call fail after its
  store writes have happened.

## Model

| member | source | states |
|---|---|---|
| QueueService.WaitingTickets | lib/queue-service.ts:91-94 | the `status = waiting` filter never yields more rows than the table has; `WaitingMembers` states that it keeps exactly the waiting rows |
| QueueService.WaitingMembers | lib/queue-service.ts:91-95 | the waiting list holds exactly the tickets whose status is `waiting` |
| QueueService.WaitingAppend | lib/queue-service.ts:21-23 | filtering the waiting tickets distributes over concatenation of tables |
| QueueService.QueueClients | lib/queue-service.ts:87-102 | `getQueueClients` result is in ascending stored position |
| QueueService.SortByPosition | lib/queue-service.ts:95 | ordering by position yields a list in ascending position; `SortByPositionPermutes` states that it is a permutation of its input and `SortHeadIsFirstMinimal` which ticket leads |
| QueueService.SortHeadIsFirstMinimal | lib/queue-service.ts:95 | the head of the ordered list has minimal position and, in this model, is the first such ticket in table order (the store leaves that order open) |
| QueueService.SortByPositionPermutes | lib/queue-service.ts:91-95 | ordering by position is a permutation of the waiting tickets |
| QueueService.InsertByPositionSorted | lib/queue-service.ts:95 | inserting by position keeps a list in ascending position order |
| QueueService.QueueClientsAreWaiting | lib/queue-service.ts:87-102 | the listed clients are exactly the waiting tickets, with multiplicity |
| QueueService.NextClient | lib/queue-service.ts:110-120 | none exactly when nobody is waiting; otherwise a waiting ticket whose stored position is minimal |
| QueueService.NextClientFirstAmongTies | lib/queue-service.ts:110-116 | of several waiting tickets at the minimal position, the next client is, in this model, the earliest in the table (the store leaves that order open) |
| QueueService.FindTicket | lib/queue-service.ts:210-214 | none exactly when no row has the id; otherwise the first row with that id |
| QueueService.CurrentTicket | lib/queue-service.ts:67-84 | a ticket exactly when the settings row exists, names a ticket and the table has it; then the ticket has that id |
| QueueService.ApplyChange | lib/queue-service.ts:123-131 | a status write keeps id, contact fields, position and creation time; call sets `being_served` and `called_at`, complete sets `completed` and `completed_at`, abandon sets `abandoned` only |
| QueueService.UpdateWhere | lib/queue-service.ts:123-131 | an update by id keeps the table's length; `UpdateTouchesOnlyTarget` states that only rows with that id change |
| QueueService.UpdateTouchesOnlyTarget | lib/queue-service.ts:217-222 | a status write changes only the rows with the target id, and no row's id or stored position |
| QueueService.WaitingAfterUpdate | lib/queue-service.ts:250-256 | after a status write the waiting list is the old one without the target, same order |
| QueueService.WithoutIdAppend | lib/queue-service.ts:250-256 | removing one id distributes over concatenation |
| QueueService.WithoutIdMembers | lib/queue-service.ts:250-256 | removing an id keeps exactly the tickets with another id |
| QueueService.UpdateLeavesQueue | lib/queue-service.ts:123-131 | call, complete or abandon takes its target out of the listed clients and keeps every other client listed |
| QueueService.CalledIsCurrent | lib/queue-service.ts:123-149 | after a call, `getCurrentTicket` returns the called ticket in its `being_served` form |
| QueueService.CallKeepsEarlierServed | lib/queue-service.ts:140-149 | calling while someone is served leaves two tickets `being_served` |
| QueueService.NewTicket | lib/queue-service.ts:26-36 | the inserted row is `waiting` with the given position and contact fields and no call or completion time |
| QueueService.Enrol | lib/queue-service.ts:21-36 | enrolment keeps every existing row and appends one waiting row with the new id, stored at position equal to the number already waiting |
| QueueService.EnrolJoinsQueue | lib/queue-service.ts:21-36 | enrolment appends the new ticket to the waiting list, and the place the confirmation announces (`position + 1`) is the new length of that list |
| QueueService.EnrolKeepsRanks | lib/queue-service.ts:21-23 | if stored positions equal places, enrolling alone keeps them so |
| QueueService.StalePositionCollision | lib/queue-service.ts:21-23 | enrol, enrol, call, enrol leaves two waiting tickets with stored position 1, so positions are not places |
| QueueService.FirstAtPosition | lib/queue-service.ts:181 | none exactly when no listed client has position v; otherwise the first listed client with position v, as `find` returns |
| QueueService.Notify | lib/queue-service.ts:181-185 | one block yields at most one warning; `FirstAtPosition` states that it goes to the first listed client at position v, and `PlannedNoticesSound` and `PlannedNoticesComplete` which values are announced |
| QueueService.PlannedNotices | lib/queue-service.ts:176-199 | at most three warnings, and none for an empty list |
| QueueService.PlannedNoticesSound | lib/queue-service.ts:180-199 | each warning goes to a listed client whose stored position is the number announced, that number is 1, 2 or 3, and the numbers strictly decrease |
| QueueService.PlannedNoticesComplete | lib/queue-service.ts:180-199 | value v in 1..3 is announced exactly when some listed client holds position v |
| QueueService.Attempted | lib/queue-service.ts:180-202 | never more sends are attempted than were planned; `AttemptedStopsAtFailure` states that they are a prefix ending at the first failure |
| QueueService.AttemptedStopsAtFailure | lib/queue-service.ts:180-202 | the attempted sends are a prefix of the planned ones, all but the last got through, and a shorter run ends on a failure |
| QueueService.AttemptedPasses | lib/queue-service.ts:182-185 | a block whose send got through lets the rest run |
| QueueService.AttemptedStops | lib/queue-service.ts:200-202 | a block whose send failed ends the run |
| QueueService.QueueCoordinator.Send | lib/email-service.ts:35-37 | a send is recorded in the outbox, and reports whether it got through, changing nothing else |
| QueueService.QueueCoordinator.GetQueueClients | lib/queue-service.ts:87-102 | the clients are in ascending position and are the waiting tickets, each as often as in the table |
| QueueService.QueueCoordinator.GetCurrentTicket | lib/queue-service.ts:67-84 | as `CurrentTicket` on the current store |
| QueueService.QueueCoordinator.AddToQueue | lib/queue-service.ts:5-64 | no settings: fails and changes nothing. Otherwise: number = last + 1; the row is inserted at position = waiting count; the number is written back when the write succeeds; the confirmation (number, position + 1) is sent; a failed send fails the call after the writes |
| QueueService.QueueCoordinator.CheckAndNotifyUpcoming | lib/queue-service.ts:165-203 | the store is unchanged and the outbox grows by the planned warnings up to and including the first failed one |
| QueueService.QueueCoordinator.WarnAt | lib/queue-service.ts:181-185 | one block: the warning for position v, if any, is sent, and `ok` says whether the run goes on |
| QueueService.QueueCoordinator.CallNextClient | lib/queue-service.ts:105-162 | nobody waiting: returns none, no change. Otherwise the minimal-position waiting ticket becomes `being_served` and `current_ticket` (when settings exist); the your-turn e-mail is sent; on failure the call fails with no warnings, else warnings follow and the updated row is returned |
| QueueService.QueueCoordinator.AbandonQueue | lib/queue-service.ts:206-236 | an unknown id fails with no change; otherwise the row becomes `abandoned` whatever its status, settings are untouched, warnings follow, returns true |
| QueueService.QueueCoordinator.CompleteCurrentService | lib/queue-service.ts:239-275 | no settings or no current ticket: false (the source's null), no change; otherwise rows with that id become `completed`, `current_ticket` is cleared, warnings follow, returns true |
| QueueService.QueueCoordinator.PostEnrol | app/api/queue/route.ts:4-19 | an empty name, phone or e-mail is refused with no change; otherwise as `AddToQueue` |
| QueueService.QueueCoordinator.PostAbandon | app/api/queue/abandon/route.ts:4-19 | a missing client id is refused with no change; otherwise as `AbandonQueue` |
| EmailQueue.NewJob | lib/email-queue.ts:21-30 | a fresh job is pending with zero attempts and the caller's fields; a missing or zero limit becomes 3 and a missing or zero priority 1; any other value is kept |
| EmailQueue.Insert | lib/email-queue.ts:32-36 | insertion adds one job and the head is the new job or the old head; `InsertSorted`, `InsertPermutes` and `InsertIsStable` state where it goes |
| EmailQueue.InsertSorted | lib/email-queue.ts:32-36 | inserting into a priority-ordered list keeps it ordered |
| EmailQueue.InsertPermutes | lib/email-queue.ts:32-36 | insertion adds the job and loses none |
| EmailQueue.InsertIsStable | lib/email-queue.ts:32-36 | insertion appends the job to those of its own priority and keeps every other priority's jobs |
| EmailQueue.SortByPriority | lib/email-queue.ts:36 | the sort's result is in non-increasing priority order |
| EmailQueue.SortPermutes | lib/email-queue.ts:36 | the sort is a permutation |
| EmailQueue.SortIsStable | lib/email-queue.ts:36 | jobs of equal priority keep their relative order |
| EmailQueue.SortKeepsSorted | lib/email-queue.ts:36 | a list already in order is left as it is |
| EmailQueue.PushThenSortIsInsert | lib/email-queue.ts:32-36 | push then sort on the stored list is insertion after every job of equal or higher priority |
| EmailQueue.InsertKeepsIds | lib/email-queue.ts:24 | adding a job with the next fresh id keeps ids distinct and below the counter |
| EmailQueue.AddKeepsInvariant | lib/email-queue.ts:32-38 | push then sort keeps the list ordered with distinct, fresh ids |
| EmailQueue.FirstPending | lib/email-queue.ts:57 | none exactly when nothing is pending; otherwise the first pending index |
| EmailQueue.FindJob | lib/email-queue.ts:70 | none exactly when no job has the id; otherwise the first index with it |
| EmailQueue.FirstPendingIsHighestPriority | lib/email-queue.ts:55-65 | in an ordered list the first pending job has the highest priority among pending jobs and comes first among them |
| EmailQueue.MarkCompleted | lib/email-queue.ts:72-74 | the job is completed and stamped, every other field kept |
| EmailQueue.FailedAttempt | lib/email-queue.ts:84-94 | one more attempt, error kept, stamped; failed exactly when attempts reach the limit, else pending; every other field (id, recipients, subject, bodies, sender, limit, creation time, priority) is kept |
| EmailQueue.RetryLaw | lib/email-queue.ts:80-97 | for a limit of at least 1, a job failing on every dequeue is pending after each of its first limit - 1 failures and failed with attempts == limit after the last |
| EmailQueue.DefaultLimitIsThree | lib/email-queue.ts:28 | with no limit given, a job is still pending after two failures and failed after the third |
| EmailQueue.Count | lib/email-queue.ts:104-107 | a status count never exceeds the list's length; `CountsPartition` states that the four counts sum to it |
| EmailQueue.CountsPartition | lib/email-queue.ts:103-109 | the four status counts sum to the list length |
| EmailQueue.Stats | lib/email-queue.ts:100-110 | the counts are per status and sum to total, which is the list length |
| EmailQueue.RemoveCompleted | lib/email-queue.ts:120 | keeps exactly the jobs that are not completed |
| EmailQueue.RemoveCompletedCounts | lib/email-queue.ts:118-122 | the purge leaves no completed job, keeps every other status count, and shortens the list by the completed count |
| EmailQueue.RemoveCompletedSplits | lib/email-queue.ts:120 | the purge works job by job, so kept jobs keep their order |
| EmailQueue.RemoveCompletedSingle | lib/email-queue.ts:120 | one job is kept exactly when it is not completed |
| EmailQueue.RemoveCompletedSorted | lib/email-queue.ts:118-122 | the purge keeps priority order |
| EmailQueue.RemoveCompletedDistinct | lib/email-queue.ts:118-122 | the purge keeps ids distinct |
| EmailQueue.FreshIds | lib/email-queue.ts:43-52 | a batch of n gets n consecutive ids from the counter |
| EmailQueue.NewJobs | lib/email-queue.ts:46-49 | one new job per input, in input order, the k-th with id first + k |
| EmailQueue.EnqueueAll | lib/email-queue.ts:43-52 | after a non-empty batch the list is in priority order; `EnqueueAllContents` states which jobs it holds |
| EmailQueue.EnqueueAllContents | lib/email-queue.ts:43-52 | a batch adds exactly its new jobs to the list |
| EmailQueue.BatchJobData | app/api/email-queue/route.ts:9-17 | one job per request with its address, subject, html and text; the fixed sender, limit 3 and `priority or 1` |
| EmailQueue.EmailQueueManager.AddJob | lib/email-queue.ts:21-40 | returns the next fresh id; the list becomes push-then-sort of the new job; the invariant is kept |
| EmailQueue.EmailQueueManager.AddBatchJobs | lib/email-queue.ts:43-52 | one id per input, in input order; the list is the result of adding each input in turn |
| EmailQueue.EmailQueueManager.GetNextJob | lib/email-queue.ts:55-65 | nothing pending: none, list unchanged; otherwise the first pending job, and only it, becomes processing and is returned |
| EmailQueue.EmailQueueManager.CompleteJob | lib/email-queue.ts:68-77 | the job with that id is completed in place; an unknown id changes nothing |
| EmailQueue.EmailQueueManager.FailJob | lib/email-queue.ts:80-97 | the job with that id records a failed attempt in place; an unknown id changes nothing |
| EmailQueue.EmailQueueManager.GetStats | lib/email-queue.ts:100-110 | the counts of the stored list, summing to its length |
| EmailQueue.EmailQueueManager.GetAllJobs | lib/email-queue.ts:113-115 | the stored list as it is |
| EmailQueue.EmailQueueManager.ClearCompleted | lib/email-queue.ts:118-122 | the list loses exactly its completed jobs; the invariant is kept |
| EmailQueue.EmailQueueManager.StartProcessing | lib/email-queue.ts:125-131 | starts a timer only when none is running |
| EmailQueue.EmailQueueManager.StopProcessing | lib/email-queue.ts:134-139 | afterwards no timer runs; a no-op when none was running |
| EmailQueue.EmailQueueManager.BeginTick | lib/email-queue.ts:142-149 | a tick while another is in flight does nothing; otherwise the next job is taken and the flag stays raised only when there is one |
| EmailQueue.EmailQueueManager.EndTick | lib/email-queue.ts:167-177 | ok completes the job, a rejected response fails it with the body text, a throw leaves it processing; the flag is lowered |
| EmailQueue.EmailQueueManager.ProcessQueue | lib/email-queue.ts:142-178 | a whole tick: nothing while in flight; otherwise at most one job is taken and its outcome recorded, and the flag ends lowered |
| EmailQueue.PriorityScenario | lib/email-queue.ts:32-36 | jobs of priority 1, 5, 1 are held as 5, 1, 1 in arrival order, and the priority-5 job is dequeued first |
| BatchEmailForm.LineEnd | components/batch-email-form.tsx:28 | the end of a line is the next newline or the end of the text |
| BatchEmailForm.SplitLines | components/batch-email-form.tsx:28 | `split("\n")` never returns an empty list |
| BatchEmailForm.SplitLinesHaveNoNewline | components/batch-email-form.tsx:28 | no piece contains a newline |
| BatchEmailForm.SplitThenJoin | components/batch-email-form.tsx:28 | joining the pieces with newlines gives back the text |
| BatchEmailForm.JoinThenSplit | components/batch-email-form.tsx:28 | splitting newline-joined lines without newlines gives the lines back |
| BatchEmailForm.SplitFirstLine | components/batch-email-form.tsx:28 | a line, a newline and the rest split into the line and the pieces of the rest |
| BatchEmailForm.Trim | components/batch-email-form.tsx:29 | trimming never lengthens a string; `TrimEnds`, `TrimKeeps` and `TrimIdempotent` state what it removes |
| BatchEmailForm.TrimStartShape | components/batch-email-form.tsx:29 | trimming the start drops a prefix of whitespace and stops at non-whitespace |
| BatchEmailForm.TrimEndShape | components/batch-email-form.tsx:29 | trimming the end drops a suffix of whitespace and stops at non-whitespace |
| BatchEmailForm.TrimEnds | components/batch-email-form.tsx:29 | a trimmed string is empty or starts and ends with non-whitespace |
| BatchEmailForm.TrimKeeps | components/batch-email-form.tsx:29 | a non-whitespace character is in the trimmed string exactly when it is in the string |
| BatchEmailForm.TrimIdempotent | components/batch-email-form.tsx:29 | trimming twice is trimming once |
| BatchEmailForm.Addresses | components/batch-email-form.tsx:29-30 | at most one address per line; `AddressesAreTrimmedLines` states that each is a trimmed line with an `@` |
| BatchEmailForm.TextAddresses | components/batch-email-form.tsx:27-30 | every address parsed from the text is non-empty, contains `@` and is already trimmed; `TextAddressesFirstLine` states their order |
| BatchEmailForm.AddressesAppend | components/batch-email-form.tsx:27-30 | the addresses of two blocks of lines are those of each, in order |
| BatchEmailForm.TextAddressesFirstLine | components/batch-email-form.tsx:27-30 | the first line contributes its trimmed form, if it qualifies, ahead of the rest |
| BatchEmailForm.PickIsTrimmedLine | components/batch-email-form.tsx:29-30 | a kept line is its own trim, non-empty and contains `@` |
| BatchEmailForm.AddressesAreTrimmedLines | components/batch-email-form.tsx:27-30 | every address is a non-empty, trimmed input line containing `@` |
| BatchEmailForm.CountValid | components/batch-email-form.tsx:100 | the displayed count never exceeds the number of lines; `CountValidIsAddressCount` states that it equals the number of addresses |
| BatchEmailForm.CountValidIsAddressCount | components/batch-email-form.tsx:100 | the counter's untrimmed-`@` test counts exactly the addresses the submit keeps |
| BatchEmailForm.ReplaceNewlines | components/batch-email-form.tsx:34 | replacing line feeds by `<br>` never shortens the message; `ReplaceRemovesNewlines` and `ReplaceIsSplitJoin` state what it does |
| BatchEmailForm.ReplaceAppend | components/batch-email-form.tsx:34 | replacing newlines distributes over concatenation |
| BatchEmailForm.ReplaceKeepsLine | components/batch-email-form.tsx:34 | text without newlines is unchanged |
| BatchEmailForm.ReplaceRemovesNewlines | components/batch-email-form.tsx:34 | no newline is left after replacement |
| BatchEmailForm.ReplaceIsSplitJoin | components/batch-email-form.tsx:34 | replacing every newline by `<br>` is splitting on newlines and joining with `<br>` |
| BatchEmailForm.Html | components/batch-email-form.tsx:34 | the html is `<p>`, the message with newlines replaced by `<br>`, then `</p>` |
| BatchEmailForm.Requests | components/batch-email-form.tsx:31-36 | one request per address, in order, each with the same subject, text = message and html |
| BatchEmailForm.ParseEmailList | components/batch-email-form.tsx:27-41 | fails with "Nenhum e-mail válido encontrado" exactly when no line qualifies; otherwise one request per qualifying line, in order |
| BatchEmailForm.DisplayedCountMatchesSubmit | components/batch-email-form.tsx:100 | the displayed count is zero exactly when the submit fails, and otherwise equals the number of requests |

## Left out

- Store errors other than the settings write of `addToQueue` are not modelled. This covers a failed select, the insert error (lib/queue-service.ts:38-41) and the update errors of `callNextClient` and `abandonQueue`. The store is in memory and its writes succeed.
- `QueueService.QueueCoordinator.CallNextClient`: the store's order for waiting tickets of equal position is not specified. `SortByPosition` keeps table order among them, so the ticket called (`NextClient`, `NextClientFirstAmongTies`) and the ticket warned (`FirstAtPosition`, the first at its position in the listed order) are the earliest in the table. The store may pick another of the tied tickets.
- Every operation runs atomically. The read-count-then-insert race of `addToQueue` and the interleaving of async handlers are not modelled.
- The `updated_at` columns, the `created_at` default, ticket ids, `queue_settings.id` and timestamps are not modelled as values. Ids are counters and times are parameters.
- E-mail templates, the provider SDK and SMS (lib/email-service.ts, lib/email-config.ts, lib/sms-service.ts) are not modelled. A notice is a record of kind, address, name and number, and `delivered` decides the outcome of each send.
- The outbox records every attempted send, including the one that failed. Nothing records whether the provider delivered it.
- `QueueService.QueueCoordinator.GetCurrentTicket`: the source also returns null when a store call throws. The in-memory store does not throw.
- `EmailQueue.EmailQueueManager`: the model is the browser branch, where localStorage keeps the list between calls; the list is a field and JSON round-tripping is not modelled. On the server (`typeof window === "undefined"`, lib/email-queue.ts:10, 16) every read gives an empty list and every write is dropped, so jobs added there are never stored; that branch is not modelled.
- `EmailQueue.JobData`: the job type also lets a caller of `addJob` pass `processedAt` and `error`, which the spread at lib/email-queue.ts:22-23 would copy into the job. No caller in the repository passes them, so the model leaves them out and `NewJob` sets both to none.
- `EmailQueue.NewJob`: `priority` and `maxAttempts` are JavaScript numbers and may be fractional (the batch route passes `body.priority` through), or `NaN`, which is falsy. The model takes them as integers, so only a missing value or 0 falls back to the default.
- The timer, `setInterval` and the 100 ms pacing delay (lib/email-queue.ts:128-131, 152) are not modelled. `StartProcessing` and `StopProcessing` keep only the interval value.
- `EmailQueue.EmailQueueManager.ProcessQueue`: a tick is one atomic step. Other ticks cannot run while a send is awaited. The split into `BeginTick` and `EndTick` shows the state at that await.
- The `fetch` to /api/send-email is not modelled; `SendOutcome` stands for its result.
- The batch form's React state, the file upload, `sendBatchEmails` (hooks/use-email-queue.ts) and the success and error messages after submit are not modelled. Only the parsing and the counter are.
- `BatchEmailForm.IsTrimmable` follows the whitespace and line-terminator set that `String.prototype.trim` removes. Surrogate pairs are not modelled: a string is a sequence of characters.
- UI components, pages, the admin login and the SMS service are not modelled. They are presentation or transport.
