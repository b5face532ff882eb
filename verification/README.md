# CourseForge: the enrollment and video protocols, modelled and proved

CourseForge decides a course selection in Redis with one Lua script and appends the result to a stream.
A consumer group projects the stream into MySQL, at least once. Drops go the other way: MySQL first, then a
Redis release that durable repair tasks back up. A delta table feeds `selected_count`, a transactional outbox
and RabbitMQ carry notifications, a leased waitlist promotes students through the ordinary selection path,
and course videos are uploaded in parts to object storage and cleaned up later. This project models these
protocols with crashes, repeats, lost answers and interleaving, and proves what they promise over all runs.

`dafny verify dfyconfig.toml` checks everything.

## How it is built

Each script and each transaction is first a function from the state it finds to the state it leaves
(`RedisScripts`, `MySqlTables`, `CountProjection`, `VideoCatalog`, `Waitlist`, `Outbox`). The code that works by
changing things in place is a class or a method with loops, proved equal to that function (`RedisStore`,
`MySqlStore`, `StreamConsumer`, `SelectionService`, `DropService`, `WaitlistStore`, `WaitlistService`,
`VideoRecords`, `Warmup`, `Outbox.Repository`, `Outbox.Dispatcher`, `RabbitMq.Channel`). Transition systems over
the functions interleave any number of workers (`SelectionSystem`, `VideoProtocol`, `Waitlist`, `Outbox`); an
inductive invariant is proved for each and the theorems are read off it. The ordered calls of one service
(consumer batch, selection request, drop, repair batch, promotion and expiry batch) are proved to take steps of
the transition system, whichever of its calls fail and whatever the other workers do between them; with nobody in
between they leave exactly what the code leaves. So the theorems hold after the code too.

| file | content |
|---|---|
| `Types`, `Ledger`, `Numerals` | shared values; sums over the log of accepted selections; decimal numerals |
| `RedisScripts`, `RedisLedger`, `RedisStore` | the commit, clear and release scripts; what they balance; the scripts in place |
| `MySqlTables`, `BatchProjection`, `CountProjection`, `MySqlStore` | the transactions; exactly-once projection; counting; the transactions in place |
| `SelectionSystem`, `SelectionProofs`, `SelectionTheorems`, `SelectionRuns` | the two-store protocol, its invariant, its theorems over states and runs |
| `StreamConsumer`, `SelectionService`, `DropService` | the services, call by call |
| `Refinement`, `Recovery`, `RoundStart`, `Timetables` | the consumer among other workers, that every reachable state can be settled, small rounds, and that timetables never overlap |
| `Admission`, `Schedule` | the early check against the atomic check; schedule cells against interval overlap |
| `Eligibility`, `Warmup`, `WarmupStart` | the policy, the warmup loop, and that a warmup is a correct start |
| `Waitlist`, `WaitlistStore`, `WaitlistService` | leased promotion on top of the selection protocol |
| `VideoParts`, `VideoCatalog`, `VideoRecords`, `VideoProtocol` | multipart arithmetic, the two row machines, upload, completion and cleanup |
| `Outbox`, `RabbitMq`, `CreditCodec` | outbox leases and dispatching, failure routing, the credit text format |

## Assumptions

- One selection round. Application ids, enrollment ids and object keys are never reused, and no request id
  repeats one of an enrollment that the warmup found.
- Each Lua script and each SQL transaction is one atomic step; a worker may stop between any two steps, and a
  call may run although its answer is lost.
- Class schedules do not change after the warmup.
- The protocol starts from a completed warmup over consistent tables: no stream entry, unprocessed delta or repair
  is open. The round may have enrolled rows and earlier drops that were released, with completed repairs.
  `WarmupStart.WarmUp` proves that the warmup's code leaves such a start.
- Between the calls of one worker any steps of other workers may happen; they have application and request ids of
  their own.
- The stored outcome of a request (seven days) and the marker of a released enrollment (thirty days) do not
  expire during a run.
- Times are milliseconds since 1970 and the zero time is the first instant of year 1. Strings are sequences of
  characters, and a length limit counts characters, which is the byte count for the ASCII ids that are generated.
- The broker, the database driver and object storage are abstract steps that may fail.

## Results worth knowing

- The dead-letter stream stays empty in every reachable state (`SelectionTheorems.NothingLost`): the fallback of
  the consumer is there for entries that the commit script did not write, and is verified for those as well.
- `outboxRetryDelay` caps at five minutes, but its exponent stops at 256 seconds, so the cap is never reached
  (`Outbox.DelayBounds`).
- The retry counter travels in a 32-bit header. A limit beyond that range would never dead-letter a message
  (`RabbitMq.DeadEventually`).
- The completeness check of an upload adds before it divides. It agrees with the other formula exactly while that
  sum fits 64 bits, and accepts nothing beyond (`VideoParts.CountsAgree`, `VideoParts.CompleteIff`).
- A credit text denoting more than a 32-bit number of tenths is read as another value, and is refused exactly when
  its integer part alone exceeds 32 bits (`CreditCodec.ReadExactly`, with an input in
  `CreditCodec.LargeCreditWraps`). A negative credit does not read back (`CreditCodec.NegativeRoundTrip`).
- The comment above `evaluateStudent` says that the script repeats the same checks. It does, in another order. The
  two accept the same requests (`Admission.EarlyCheckAgrees`), but a full or clashing class may be refused for
  different reasons: `RoundStart.RefusalsDiffer` is such a round, and `SelectionService.RefusalsAgree` says exactly
  when the answers are the same.


## Model

| member | source | states |
|---|---|---|
| SelectionProofs.StepKeeps | internal/enrollment/infrastructure/persistence/redis.go:19-224 | Every step (commit, delivery, save, clear, acknowledge, drop, release, repair, projection, crash) keeps the invariant that ties the Redis keys, the MySQL tables and the workers to the log of accepted selections |
| SelectionProofs.ReachableKeeps | internal/enrollment/application/warmup.go:132-268 | The invariant holds in every state of every run that starts from a completed warmup |
| SelectionTheorems.Conservation | internal/enrollment/infrastructure/persistence/redis.go:19-224 | Seat, credit, course and cell counters are never negative and equal the warmup limit minus what the live (accepted and not released) selections take |
| SelectionTheorems.SelectedCourses | internal/enrollment/infrastructure/persistence/redis.go:110-149 | A student's selected-course hash holds exactly the live (course, application) pairs |
| SelectionTheorems.EnrolledRowsAreLive | internal/enrollment/infrastructure/persistence/drop.go:60-168 | Every enrolled MySQL row belongs to a live Redis selection with the same data |
| SelectionTheorems.MirrorBelowRedis | internal/enrollment/infrastructure/persistence/mysql_batch.go:383-432 | Credits and courses used in MySQL never exceed those used in Redis, nor the limit |
| SelectionTheorems.NeverRejected | internal/enrollment/infrastructure/persistence/mysql_batch.go:249-432 | No batch of stream entries is ever rejected: neither the quota guard nor a unique key fails, and every event is stored |
| SelectionTheorems.NothingLost | internal/enrollment/async/selection_stream_consumer.go:260-314 | Each accepted result is still in the stream or is in selection_event with its own body; nothing the script wrote is dead-lettered |
| SelectionTheorems.PendingNamesTheUnpersisted | internal/enrollment/infrastructure/persistence/redis.go:137-189 | A student's unpersisted publications are none without a pending key and exactly the one that the pending key names with it |
| SelectionTheorems.PersistedIsSaved | internal/enrollment/infrastructure/persistence/redis.go:164-189 | A publication marked mysql_persisted is in MySQL with the published result |
| SelectionTheorems.OneEntryPerRequest | internal/enrollment/infrastructure/persistence/redis.go:44-67 | A request id appends at most one stream entry over a whole run |
| SelectionTheorems.RepeatChangesNothing | internal/enrollment/infrastructure/persistence/redis.go:44-47 | A repeated request is answered with the first outcome and changes nothing |
| SelectionTheorems.RepairsCoverReleases | internal/enrollment/infrastructure/persistence/reconciliation.go:98-136 | A completed repair implies its release; a dropped and unreleased row always has a pending repair |
| SelectionTheorems.DropsNeverFail | internal/enrollment/infrastructure/persistence/drop.go:60-168 | A loaded drop is never refused by MySQL and a persisted one never by the release script |
| SelectionTheorems.CountsFollowRows | internal/enrollment/infrastructure/persistence/count_projection.go:22-121 | selected_count plus the unprocessed deltas is the number of enrolled rows of the class, and both stay within the capacity |
| SelectionTheorems.ProjectionNeverTrips | internal/enrollment/infrastructure/persistence/count_projection.go:59-84 | The projector's 0..capacity guard never trips, for any batch limit |
| SelectionTheorems.CaughtUpAgree | internal/enrollment/infrastructure/persistence/mysql_batch.go:383-432 | With an empty stream and no unreleased drop, both stores agree exactly on every student's use |
| SelectionTheorems.CaughtUpSeats | internal/enrollment/infrastructure/persistence/redis.go:127-135 | In such a state the free seats are the capacity minus the enrolled rows |
| SelectionRuns.StepEffect | internal/enrollment/infrastructure/persistence/redis.go:127-135 | A step takes for one new selection, gives back for one first release, or leaves the stock alone; an entry leaves the stream only when its event is stored |
| SelectionRuns.GivenBackOnce | internal/enrollment/infrastructure/persistence/redis.go:191-224 | No enrollment gives its seat, credits, course and cells back twice in a run |
| SelectionRuns.ReleasedForGood | internal/enrollment/infrastructure/persistence/redis.go:191-224 | Releases are never undone and the log of accepted selections only grows |
| SelectionRuns.TimetablesStayConflictFree | internal/enrollment/infrastructure/persistence/redis.go:120-135 | From a conflict-free start no two live selections of a student ever share a cell |
| Timetables.NeverOverlap | internal/enrollment/infrastructure/persistence/redis.go:120-135 | From a start without overlaps, no two live selections of a student ever overlap in time, in any state of any run |
| Refinement.ConsumerRefines | internal/enrollment/async/selection_stream_consumer.go:260-314 | The code of processBatch in any reachable state, with any call failing and any steps of other workers between its calls, ends in a reachable state |
| Refinement.BatchAlone | internal/enrollment/async/selection_stream_consumer.go:260-314 | With no other worker in between, those calls leave exactly the stores that the consumer's code leaves |
| Refinement.OthersSpareConsumer | internal/enrollment/async/selection_stream_consumer.go:260-314 | Any protocol steps but the consumer's own may happen between its calls |
| Refinement.ReachableClosed | internal/enrollment/async/selection_stream_consumer.go:260-314 | The reachable states are a set that no step leaves, so the refinements hold of them |
| Recovery.CanSettle | internal/enrollment/application/reconciliation.go:32-63 | From every reachable state the background workers alone can empty the stream, close every repair and apply every delta; every accepted result is then in selection_event with its own body |
| Recovery.SettledCounts | internal/enrollment/infrastructure/persistence/count_projection.go:22-103 | In a settled state seats, selected_count and enrolled rows say the same |
| RoundStart.EmptyRoundStarts | internal/enrollment/infrastructure/persistence/eligibility_index.go:172-287 | Every plan of classes, seats and limits has a start state: the warmed round in which nobody is enrolled yet |
| RoundStart.FirstSelection | internal/enrollment/infrastructure/persistence/redis.go:127-149 | An acceptable first request of an opened round is accepted and can be carried into MySQL |
| RoundStart.RefusalsDiffer | internal/enrollment/application/admission.go:29-42 | A reachable round in which the early check answers that the class is full and the commit, at the same time, that the credits are missing |
| RedisStore.Store.Check | internal/enrollment/infrastructure/persistence/redis.go:49-125 | The script's checks, in its order, compute the refusal code of the specification |
| RedisStore.Store.CommitSelection | internal/enrollment/infrastructure/persistence/redis.go:19-150 | The commit script as in-place key updates leaves the specified keys and reply |
| RedisStore.Store.ClearPersisted | internal/enrollment/infrastructure/persistence/redis.go:164-189 | The clear script in place, with its four statuses |
| RedisStore.Store.ReleaseDropped | internal/enrollment/infrastructure/persistence/redis.go:191-224 | The release script in place, at most once per enrollment |
| RedisStore.Store.AcknowledgeEntries | internal/platform/cache/cache.go:653-676 | XACK and XDEL remove exactly the listed entries |
| RedisStore.Store.DeadLetterEntry | internal/platform/cache/cache.go:680-715 | The entry is appended to the dead-letter stream and leaves the stream |
| RedisStore.FindBusyCell | internal/enrollment/infrastructure/persistence/redis.go:120-125 | The loop finds a busy cell exactly when one exists, the sentinel aside |
| RedisLedger.TakeBalanced | internal/enrollment/infrastructure/persistence/redis.go:127-135 | Taking for a new selection keeps every balance, for all students, classes and cells |
| RedisLedger.GiveBackBalanced | internal/enrollment/infrastructure/persistence/redis.go:207-221 | Giving back a live selection keeps every balance |
| BatchProjection.ExactlyOnce | internal/enrollment/infrastructure/persistence/mysql_batch.go:74-247 | For any delivery history with duplicates, splits and rolled-back attempts, each with its own generated ids, the tables are those of saving each distinct delivered event once, in the order of first delivery |
| BatchProjection.BatchIsSequence | internal/enrollment/infrastructure/persistence/mysql_batch.go:74-113 | A batch commits if and only if saving its items one at a time all commit, with the same tables |
| BatchProjection.SaveConcat | internal/enrollment/infrastructure/persistence/mysql_batch.go:74-113 | Batches may be split anywhere |
| BatchProjection.ChargeQuotasAppend | internal/enrollment/infrastructure/persistence/mysql_batch.go:383-432 | The one guarded quota update of a batch accepts exactly when charging item by item does, with the same rows |
| BatchProjection.SavedEvents | internal/enrollment/infrastructure/persistence/mysql_batch.go:144-247 | After a committed batch every event of it is stored with the delivered result |
| BatchProjection.SavesSameIds | internal/enrollment/infrastructure/persistence/mysql_batch.go:295-298 | A batch depends on the id generator only for the events it claims |
| MySqlStore.NormalizeResults | internal/enrollment/infrastructure/persistence/mysql_batch.go:115-142 | The loop keeps the first result of each event and rejects an invalid or contradicting one |
| MySqlStore.ClaimEvents | internal/enrollment/infrastructure/persistence/mysql_batch.go:144-189 | Claimed are exactly the results whose event was not yet in the table, and they are inserted |
| MySqlStore.ChargeBatch | internal/enrollment/infrastructure/persistence/mysql_batch.go:383-432 | Summing per student and updating all rows at once charges as specified or changes nothing |
| MySqlStore.Database.SaveSelectionResults | internal/enrollment/infrastructure/persistence/mysql_batch.go:74-113 | The transaction in place leaves the specified tables, or the old ones on an error |
| MySqlStore.Database.DropEnrollment | internal/enrollment/infrastructure/persistence/drop.go:51-168 | The drop transaction over five tables leaves the specified tables, or the old ones on an error |
| MySqlStore.Database.CompleteRepair | internal/enrollment/infrastructure/persistence/reconciliation.go:98-114 | Only a pending repair is completed |
| MySqlStore.Database.PostponeRepair | internal/enrollment/infrastructure/persistence/reconciliation.go:116-136 | Only a pending repair is postponed, with its retry count raised |
| MySqlStore.Database.ProjectPendingCounts | internal/enrollment/infrastructure/persistence/count_projection.go:22-103 | The projector's loops apply the summed deltas of the first unprocessed rows and mark exactly those, or change nothing |
| MySqlStore.Database.DeleteProcessed | internal/enrollment/infrastructure/persistence/count_projection.go:106-121 | Cleanup removes the first expired rows and no pending one |
| CountProjection.ProjectSafe | internal/enrollment/infrastructure/persistence/count_projection.go:22-103 | If every prefix of the pending deltas fits, the guard accepts any limit, the totals stay and the remaining prefixes fit |
| CountProjection.PurgeKeepsPending | internal/enrollment/infrastructure/persistence/count_projection.go:106-121 | Cleanup never touches an unprocessed delta |
| StreamConsumer.Consumer.ProcessBatch | internal/enrollment/async/selection_stream_consumer.go:260-314 | The consumer's batch with its fallback does to both stores what Processed says, for every outcome of every call and of every script in a pipeline |
| StreamConsumer.ProcessedSound | internal/enrollment/async/selection_stream_consumer.go:260-314 | From any state and any batch, poisonous or not: an entry that left the stream is stored with its result or dead-lettered, and only entries of the batch are touched |
| StreamConsumer.ProcessedProgress | internal/enrollment/async/selection_stream_consumer.go:283-291 | When the calls answer and the tables accept the batch, its well-formed entries are saved together and leave the stream |
| StreamConsumer.RetryKeepsEntries | internal/enrollment/async/selection_stream_consumer.go:292-295 | An error that a retry may mend leaves every well-formed entry in the stream |
| StreamConsumer.PoisonBuried | internal/enrollment/async/selection_stream_consumer.go:297-313 | An item that its own save refuses for good is dead-lettered and changes nothing else |
| StreamConsumer.SavedMeansStored | internal/enrollment/infrastructure/persistence/redis.go:477-522 | A save that reports no error has stored every result, whatever the clear scripts did |
| SelectionService.Select | internal/enrollment/application/enrollment.go:95-159 | The request in place, from the look-up through the record to the commit, does what SelectCourse says |
| SelectionService.SelectRefines | internal/enrollment/application/enrollment.go:95-159 | A request, with any steps of other workers between its look-up, early check, version and script, changes nothing or takes one protocol step, the commit of its own result, and then has a receipt |
| SelectionService.SelectAlone | internal/enrollment/application/enrollment.go:95-159 | With no other worker in between, those calls do what the code of the request does |
| SelectionService.OthersSpareRequest | internal/enrollment/application/enrollment.go:95-159 | Any protocol steps whose applications have ids of their own may happen between the calls of a request |
| SelectionService.AnsweredOnce | internal/enrollment/application/enrollment.go:121-141 | In every later state an accepted request is answered with its first application, or with a conflict if the intent differs, and nothing changes |
| SelectionService.AdmittedIsSelected | internal/enrollment/application/enrollment.go:143-158 | Without an earlier outcome, a request is selected if and only if the early check admits it at that state and time |
| SelectionService.RefusalsAgree | internal/enrollment/infrastructure/persistence/redis.go:319-351 | In every reachable state the early check and the commit give the same answer, refusal for refusal, if and only if the order of their checks cannot matter: without a seat everything but the schedule must be in order, and with a clash the student must be refused as ineligible or duplicate or be able to pay |
| SelectionService.CommitSelection | internal/enrollment/infrastructure/persistence/redis.go:263-352 | Validation, version look-up, script and status mapping in place |
| SelectionService.AtMostOneResult | internal/enrollment/domain/application.go:62-186 | Over any sequence of events an application yields exactly one result if it ended and none otherwise, a valid one, and its identity never changes |
| SelectionService.SelectionApplication.Reserve | internal/enrollment/domain/application.go:92-101 | Only a created application is reserved |
| SelectionService.SelectionApplication.CompleteSelected | internal/enrollment/domain/application.go:104-110 | Only a reserved application is completed, not before it was made |
| SelectionService.SelectionApplication.CompleteRejected | internal/enrollment/domain/application.go:114-126 | Rejection needs a valid reason and a reserved application |
| SelectionService.SelectionApplication.Cancel | internal/enrollment/domain/application.go:129-142 | Cancellation of a created or reserved application, with the three refusals |
| DropService.Service.Drop | internal/enrollment/application/drop.go:49-98 | Look-up, domain check, transaction, release and mark in this order, for every outcome of every call, a failing look-up included |
| DropService.DropRefines | internal/enrollment/application/drop.go:49-98 | A drop request, with any call failing and any steps of other workers between its calls, ends in a reachable state; a receipt means the drop is in MySQL, "released" means Redis gave back and otherwise a repair is pending; with answering calls a listed course that may be dropped is dropped and released |
| DropService.DropAlone | internal/enrollment/application/drop.go:49-98 | With no other worker in between, those calls leave exactly what the code of the drop leaves |
| DropService.OthersSpareDropper | internal/enrollment/application/drop.go:49-98 | Any protocol steps but the worker's own may happen between the calls of a drop |
| DropService.DroppedOnce | internal/enrollment/application/drop.go:68-92 | Dropping a released course again leaves Redis as it is |
| DropService.StudentEnrollment.Drop | internal/enrollment/domain/enrollment.go:60-77 | An enrolled record is dropped once; dropped again without effect; a completed one refuses |
| DropService.Service.RepairBatch | internal/enrollment/application/reconciliation.go:32-63 | The due repairs are released and completed or postponed in order until a mark fails; a failing query or backlog count is reported |
| DropService.RepairRefines | internal/enrollment/application/reconciliation.go:41-56 | A repair batch, with any call failing and any steps of other workers between its calls, ends in a reachable state |
| DropService.RepairAlone | internal/enrollment/application/reconciliation.go:41-56 | With no other worker in between, those calls leave exactly what the code of the batch leaves |
| DropService.OthersSpareDroppers | internal/enrollment/application/reconciliation.go:41-56 | Any protocol steps but those of its own items may happen between the calls of a repair batch |
| DropService.RepairCompletes | internal/enrollment/application/reconciliation.go:41-56 | With answering calls a repair ends released and completed, whatever other workers do in between |
| DropService.DueItems | internal/enrollment/infrastructure/persistence/reconciliation.go:32-96 | The query returns distinct pending repairs with the enrollment as the tables have it |
| DropService.BackoffDoubles | internal/enrollment/application/reconciliation.go:65-70 | The wait doubles six times and stays at 64 seconds |
| Admission.EarlyCheckAgrees | internal/enrollment/application/admission.go:29-42 | In every reachable state without a stored or pending outcome, the early check admits a request exactly when the commit script would accept it then |
| Admission.WaitlistTakesTheFull | internal/enrollment/application/admission.go:46-59 | The waitlist admits exactly the requests that the script refuses for want of a seat alone |
| Admission.CheckAccepts | internal/enrollment/infrastructure/persistence/eligibility_index.go:378-508 | On balanced keys the early check succeeds exactly when every listed condition holds |
| Admission.ScriptAccepts | internal/enrollment/infrastructure/persistence/redis.go:69-125 | The script accepts exactly when the same conditions hold |
| Admission.ReadAdmission | internal/enrollment/infrastructure/persistence/eligibility_index.go:42-92 | The admission script, with its loop over the cells, returns the specified facts |
| Admission.Admit | internal/enrollment/application/admission.go:29-42 | The early check of a request, reading the facts with the loop over the cells, admits or refuses as specified |
| Schedule.ScheduleCells | internal/enrollment/infrastructure/persistence/eligibility_index.go:550-569 | The nested loops produce exactly the cells that the slots cover, or an error for an invalid slot |
| Schedule.SharedCellIsConflict | internal/enrollment/domain/admission.go:36-44 | Two valid slot lists share a cell if and only if some pair conflicts |
| Schedule.SentinelUncovered | internal/enrollment/infrastructure/persistence/eligibility_index.go:550-569 | The sentinel "0" is never a cell |
| Schedule.FindConflict | internal/enrollment/domain/admission.go:154-166 | The pairwise check finds a conflict exactly when one exists |
| Schedule.BusyIsClash | internal/enrollment/infrastructure/persistence/redis.go:120-125 | The scripts' busy check succeeds exactly when the class clashes with a live selection of the student |
| Schedule.ConflictFreeTimetable | internal/enrollment/domain/admission.go:36-44 | Cell-wise conflict freedom means that no two live classes of a student overlap in time |
| Eligibility.MajorAllowed | internal/enrollment/domain/admission.go:181-199 | Deny beats allow; an allow list admits only its members |
| Eligibility.PrerequisitesSatisfied | internal/enrollment/domain/admission.go:201-231 | Every prerequisite has a qualifying achievement, and only then |
| Eligibility.Evaluate | internal/enrollment/domain/admission.go:130-151 | The verdict is exactly the policy's, and each refusal names the first rule that fails |
| Eligibility.PrefilterKeepsVerdicts | internal/enrollment/infrastructure/persistence/eligibility.go:229-250 | Loading only the history of the round's prerequisites changes no verdict |
| Warmup.WarmupStudents | internal/enrollment/application/warmup.go:201-252 | The paging loop ends, visits everyone once in ascending id and writes for each exactly the classes the policy allows and the keys of their own record |
| Warmup.ListPage | internal/enrollment/infrastructure/persistence/eligibility.go:188-198 | A page is the next students after the cursor, up to the limit |
| Warmup.EligibilityIndex.WriteSnapshot | internal/enrollment/infrastructure/persistence/eligibility_index.go:172-225 | All classes with their remaining seats and cells, or nothing |
| Warmup.EligibilityIndex.WriteStudents | internal/enrollment/infrastructure/persistence/eligibility_index.go:227-287 | All students of a page with remainders, course hash and cell counters, or nothing; other students unchanged |
| WarmupStart.WarmupBalances | internal/enrollment/infrastructure/persistence/eligibility_index.go:172-287 | A warmup over consistent tables leaves balanced keys: every counter is its limit minus what the live selections take |
| WarmupStart.WarmupSnapshot | internal/enrollment/infrastructure/persistence/eligibility_index.go:172-287 | The written snapshot is what the admission theorem assumes, and eligibility is what the policy allows |
| WarmupStart.WarmupIsStart | internal/enrollment/application/warmup.go:132-268 | A warmup over closed tables is a start state of the protocol, with enrollments and with earlier, released drops |
| WarmupStart.WarmUp | internal/enrollment/application/warmup.go:184-252 | The snapshot and the student pages are written in order and, when that succeeds, Redis is a start of the protocol; it succeeds exactly when there are classes and students and every schedule is valid |
| Waitlist.WorldStepKeeps | internal/enrollment/application/waitlist.go:135-193 | Every step of promoters, claims and the selection protocol keeps the waitlist invariant |
| Waitlist.AtMostOneSeat | internal/enrollment/domain/waitlist.go:99-101 | An entry takes at most one seat over all leases, promoters and crashes, and no seat serves two entries |
| Waitlist.PromotedHasSelection | internal/enrollment/infrastructure/persistence/waitlist.go:297-316 | A promoted entry has exactly one selection, under its promotion request and for its class |
| Waitlist.ActiveKeyMeansActive | internal/enrollment/infrastructure/persistence/waitlist.go:155-328 | active_key is set exactly while the entry is waiting or promoting |
| Waitlist.OneActiveEntry | internal/enrollment/infrastructure/persistence/waitlist.go:34-78 | At most one active entry per round, student and class |
| Waitlist.RequestsStayUnique | internal/enrollment/infrastructure/persistence/waitlist.go:34-78 | At most one entry per round, student and request id |
| WaitlistStore.Table.JoinWaitlist | internal/enrollment/infrastructure/persistence/waitlist.go:34-78 | Insert-ignore under the unique keys, then the look-up by request and the comparison: inserts a waiting row, repeats an identical request without effect, or reports which key is taken |
| WaitlistStore.Table.ClaimPromotable | internal/enrollment/infrastructure/persistence/waitlist.go:189-247 | Expired leases return, then the first promotable rows in queue order are leased and handed out |
| WaitlistStore.Table.ClaimExpired | internal/enrollment/infrastructure/persistence/waitlist.go:249-295 | The first waiting rows of rounds that are over are leased and handed out |
| WaitlistStore.Table.CancelWaitlist | internal/enrollment/infrastructure/persistence/waitlist.go:155-187 | Only an active row of the student is cancelled |
| WaitlistStore.Table.MarkPromoted | internal/enrollment/infrastructure/persistence/waitlist.go:297-316 | Only a promoting row is promoted |
| WaitlistStore.Table.ReturnToQueue | internal/enrollment/infrastructure/persistence/waitlist.go:318-328 | Only a promoting row returns to the queue |
| WaitlistStore.WaitlistEntry.Cancel | internal/enrollment/domain/waitlist.go:64-80 | An entry is cancelled exactly when the arguments are valid and it is active; cancelled again without effect; each refusal exactly when it applies |
| WaitlistStore.WaitlistEntry.MarkPromoted | internal/enrollment/domain/waitlist.go:83-96 | An entry is promoted exactly when the time is valid and it is promoting; promoted again without effect; each refusal exactly when it applies |
| WaitlistService.Promoter.PromoteClaimed | internal/enrollment/application/waitlist.go:160-191 | Each claimed entry is selected and then marked, returned or cancelled, until an update fails |
| WaitlistService.Promoter.ExpireClaimed | internal/enrollment/application/waitlist.go:140-155 | The claimed entries of rounds that are over are cancelled in order, until an update fails |
| WaitlistService.ExpiryRefines | internal/enrollment/application/waitlist.go:140-155 | Cancelling them, with any update failing and any steps of other workers in between, ends in a reachable state of the waitlist protocol |
| WaitlistService.ExpiryAlone | internal/enrollment/application/waitlist.go:140-155 | With no other worker in between, those updates leave the table as the code does |
| WaitlistService.BatchRefines | internal/enrollment/application/waitlist.go:160-191 | A promotion batch, with any call failing and any steps of other workers between its calls, ends in a reachable state of the waitlist protocol |
| WaitlistService.BatchAlone | internal/enrollment/application/waitlist.go:160-191 | With no other worker in between, those calls leave both stores as the code does |
| WaitlistService.OthersSparePromoter | internal/enrollment/application/waitlist.go:135-193 | Any steps of other workers, whose applications have ids of their own, may happen between the calls of a promotion or expiry batch |
| WaitlistService.ReachableClosed | internal/enrollment/application/waitlist.go:135-193 | The reachable states of the waitlist protocol are a set that no step leaves |
| WaitlistService.PromotedWhenSelected | internal/enrollment/domain/waitlist.go:115-148 | With answering calls an entry is promoted exactly when its request is selected, returned exactly on a full class or another pending request, and no other row changes |
| VideoProtocol.StepKeeps | internal/catalog/application/service.go:154-427 | Every step of start, complete and cleanup, with storage calls as steps of their own, keeps the invariant over rows, storage and workers |
| VideoProtocol.VideoStatusMeans | internal/catalog/domain/model.go:153-316 | A video is uploading, ready or failed exactly when the upload holding its key is pending, promoted, or failed or cleaned |
| VideoProtocol.ReadyHasObject | internal/catalog/application/service.go:360-427 | A ready video's object is in storage with the declared size |
| VideoProtocol.ReadyForever | internal/catalog/application/video_cleanup.go:40-126 | A ready video keeps its row and its object for the rest of every run |
| VideoProtocol.OnePending | internal/catalog/application/service.go:219-240 | At most one upload of a video is pending, and none while it is ready |
| VideoProtocol.StillInUseUnreachable | internal/catalog/domain/model.go:231-253 | ErrVideoObjectStillInUse never occurs |
| VideoProtocol.CleanedLeavesNothing | internal/catalog/application/video_cleanup.go:104-125 | A cleaned upload leaves neither object nor session |
| VideoRecords.CourseVideoUpload.Promote | internal/catalog/domain/model.go:153-159 | Only a pending upload is promoted |
| VideoRecords.CourseVideoUpload.Fail | internal/catalog/domain/model.go:201-210 | A pending upload fails, a failed one stays so, others refuse |
| VideoRecords.CourseVideoUpload.FinalizeCleanup | internal/catalog/domain/model.go:256-264 | Only the failed upload of the deleted key is marked cleaned |
| VideoRecords.CourseVideo.CompleteUpload | internal/catalog/domain/model.go:282-292 | Only an uploading video becomes ready, and not with a zero duration |
| VideoRecords.CourseVideo.RestartUpload | internal/catalog/domain/model.go:305-316 | A ready video is never restarted |
| VideoRecords.PrepareRecords | internal/catalog/domain/model.go:231-253 | Preparing a cleanup on the records does what the specification says, or reports the same error |
| VideoRecords.Repository.StartTransaction | internal/catalog/application/service.go:190-240 | The start transaction on records leaves the specified rows, or the old ones |
| VideoRecords.Repository.CompleteTransaction | internal/catalog/application/service.go:391-426 | The completion transaction on records |
| VideoRecords.Repository.PrepareTransaction | internal/catalog/application/video_cleanup.go:57-99 | The first cleanup transaction and what it tells the storage calls to remove |
| VideoRecords.Repository.FinishTransaction | internal/catalog/application/video_cleanup.go:112-125 | The last cleanup transaction |
| VideoParts.CompleteParts | internal/catalog/application/service.go:456-462 | An accepted list is exactly the parts 1..n in order, sizes add up to the file and the last part is in (0, 8 MiB] |
| VideoParts.CompleteIff | internal/catalog/application/service.go:456-484 | Which lists are accepted, said without the counting formulas, including where the 64-bit sum overflows |
| VideoParts.CountsAgree | internal/catalog/application/service.go:337-350 | The two ceiling formulas agree if and only if the sum does not overflow; beyond, the completeness check accepts nothing |
| VideoParts.AllPartNumbers | internal/catalog/application/service.go:337-350 | The numbers 1..n, exactly for files of at most ten thousand parts |
| VideoParts.ValidUploadedPartSubset | internal/catalog/application/service.go:464-484 | The loop accepts exactly the ascending lists whose parts have their prescribed sizes |
| VideoParts.ValidUploadedParts | internal/catalog/application/service.go:456-462 | The completeness check accepts exactly the complete lists: the prescribed count, then ascending parts of the prescribed sizes |
| Outbox.PublishedForever | internal/platform/outbox/mysql/repository.go:164-191 | Published is terminal and implies that the broker accepted the event |
| Outbox.LeaseExcludes | internal/platform/outbox/mysql/repository.go:83-162 | A claimed event is not handed out again within its lease unless it was marked failed |
| Outbox.ClaimableInTime | internal/platform/outbox/mysql/repository.go:105-119 | An unpublished event is claimable at the later of next_retry_at and update_time plus the lease |
| Outbox.ClaimableFromRetryTime | internal/platform/outbox/mysql/repository.go:105-119 | An unpublished event is claimable exactly from its next_retry_at on |
| Outbox.DelayBounds | internal/platform/outbox/dispatcher/outbox_dispatcher.go:163-170 | Delays grow from 1 to 256 seconds, so the five-minute cap is never reached |
| Outbox.Repository.ClaimPending | internal/platform/outbox/mysql/repository.go:83-162 | The first due events in id order are claimed in one update |
| Outbox.Repository.SetPublished | internal/platform/outbox/mysql/repository.go:164-191 | Only a publishing event is marked published |
| Outbox.Repository.SetFailed | internal/platform/outbox/mysql/repository.go:193-221 | Only a publishing event is marked failed |
| Outbox.Dispatcher.Dispatch | internal/platform/outbox/dispatcher/outbox_dispatcher.go:103-161 | One event is published and marked if it still is publishing; no error exactly when the broker confirmed and the mark took effect |
| Outbox.Dispatcher.DispatchBatch | internal/platform/outbox/dispatcher/outbox_dispatcher.go:76-101 | Each claimed event is marked by its own answer at its own time, or stays leased when its mark does not run; the others are untouched |
| Outbox.Dispatcher.DispatchPending | internal/platform/outbox/dispatcher/outbox_dispatcher.go:46-70 | A short batch ends the run with nothing listed due at its claim (for marks with a clock no earlier), and without an error everything due then is published; a failing claim ends it with an error; otherwise a thousand events were processed; published events stay and were accepted |
| RabbitMq.HandleBatches | internal/platform/rabbitmq/consumer.go:307-348 | Over all batches each delivery ends as if handled alone, so a multiple acknowledgement settles exactly the current batch |
| RabbitMq.Channel.HandleBatch | internal/platform/rabbitmq/consumer.go:350-390 | One batch: a single multiple acknowledgement if all succeeded, else each on its own; a wrong number of outcomes retries all |
| RabbitMq.NeverDropped | internal/platform/rabbitmq/consumer.go:402-463 | A delivery is acknowledged exactly after success or a confirmed copy; an unhandled message is requeued or copied |
| RabbitMq.RetryNumberDeclared | internal/platform/rabbitmq/retry.go:142-152 | The retry number always names a declared queue |
| RabbitMq.DeadAfterMaxRetries | internal/platform/rabbitmq/consumer.go:418-461 | An always-retryable message is dead-lettered at its (maxRetries + 1)-th handling and not before |
| RabbitMq.DeadEventually | internal/platform/rabbitmq/retry.go:235-258 | It is dead-lettered at all if and only if maxRetries fits the 32-bit header |
| RabbitMq.NewPolicy | internal/platform/rabbitmq/retry.go:40-54 | Unusable settings fall back to the defaults and the usable delays keep their order |
| RabbitMq.Delay | internal/platform/rabbitmq/retry.go:58-64 | Retry n waits the n-th configured delay, and the last one when there are fewer |
| CreditCodec.RoundTrip | internal/enrollment/infrastructure/persistence/query.go:219-258 | Reading what was printed returns every non-negative 32-bit credit; the strict reader refuses exactly zero |
| CreditCodec.NegativeRoundTrip | internal/enrollment/domain/selection.go:37-53 | A negative credit prints but reads back as its absolute value or not at all |
| CreditCodec.ReadExactly | internal/enrollment/infrastructure/persistence/query.go:230-254 | A decimal with at most one fraction digit, dotted or not, is read as the value it denotes if and only if that is a 32-bit credit, and refused if and only if its integer part alone exceeds 32 bits |
| CreditCodec.LargeCreditWraps | internal/enrollment/infrastructure/persistence/query.go:230-254 | A concrete text between the two, which is read as a negative credit |

## Left out

- HTTP routes, authentication, configuration, metrics, logging, the web front end, the danmaku service, CDC, the database router and benchmark tools: plumbing without a law of their own.
- Round administration and catalog changes outside videos: single-branch checks that would only add easy members.
- JSON and cjson encoding and Lua number precision: payloads are values, ids are exact.
- Expiry of Redis keys, loss of Redis and a second warmup over live keys.
- Several rounds at once: the quota, schedule and course keys are per round while the active key of an enrollment is per term.
- Fencing of stale workers: outbox and waitlist marks are conditional on the row state only, so a late worker may affect a newer lease; nothing is claimed against that.
- A cancelled waitlist entry may still have a selection: the code allows it, so nothing is claimed against that.
- DECIMAL(5,1) range, 32-bit sums of credits and the 16-bit course counter inside the quota update: sums are unbounded in the model.
- The order in which the database reads claimed events back: the model takes batch order, so only the ids of deltas could differ.
- An application state `created` or `reserved` inside a delivered result is refused with the same error as other invalid results; both are final refusals in the code.
- Several count projectors at once with SKIP LOCKED: one projector takes the deltas in id order.
- Row times, failure texts, titles and trimmed blanks of stored strings: they are checked where the code checks them but not stored, except the times that a check reads later.
- Validation of rows read back from MySQL (`toEntity`) beyond the fields that the drop compares.
- Content types of stored objects and presigned URLs.
- The video service methods as single methods: their transactions are methods, and their order with the storage calls is the transition system.
- Running one goroutine per outbox event: a batch dispatches its events in order, which is the same because they are distinct rows.
- Warmup locks, status records and version activation: the loop and the keys are modelled, activation is the start state.
- Scores are real numbers instead of floating point.
- WarmupStart.WarmupBalances: speaks about tables that agree with the log of live selections, as they do when no stream entry, drop or delta is open.
