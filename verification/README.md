# Larp bot: verified model

A Dafny model of the stateful core of the larp bot, with proofs about every history, every input or
every table. The bot registers players for games, keeps each game's signup queue, closes games at a
scheduled time, announces the opening of registration, uploads the generated tables to Yandex Disk and
collects player profiles through a dialogue.

`dafny verify dfyconfig.toml` checks the whole project.

## How it is organised

| files | part of the system |
|---|---|
| `StringOrder`, `UploadGeneration`, `UploadProtocol` | the disk uploader as a state machine: any number of runs of any number of jobs, one request per step, with crashes, lost answers and passing time; both the AWS and the Yandex variant of the lock |
| `UploadLock`, `UploadFreshness`, `UploadCompletions`, `UploadHistory`, `UploadRetention` | what the lock, the generation marker, the completions and the staged objects guarantee, with and without a timing assumption on a destination |
| `UploadSmooth`, `UploadRivals`, `UploadOvertaking` | what a run does when nobody disturbs it, and exactly which jobs can lose a file or bring old content back |
| `UploadJob` | one invocation: validating a job, one attempt at a file, retrying, reporting |
| `QueueOrder`, `Registrations` | the order of a signup queue and the registration repository, a class whose methods change its table in place |
| `RosterLaws`, `SiftLaws`, `RegistrationRuns`, `LinkedRetries` | main and reserve rosters, sifting, whole histories of a queue, interrupted operations on linked identities |
| `ScheduledClose`, `ScheduledCloseService` | the start, statistics and finalize stages of a scheduled close, under redelivery, crashes and edits, and the service that carries them out |
| `OptimisticUpdate`, `RegistrationNotifier` | compare-and-set updates, and the overlapping timer runs that announce an opening |
| `LinkedIdentity` | people with a profile on both platforms, and the batched lookup of their pass answers |
| `Paging` | keyset pages, the loops that walk them, and the chat picker |
| `PersonNames`, `ProfileDialogue` | the profile questionnaire, a class that changes a user's state, context and profile in place |
| `SignupToken` | signup links and the start command |

Protocols that several workers run at once are state machines whose histories are arbitrary sequences of
actions; an action that is not possible changes nothing. Code that updates objects or loops over data is a
class or a method, proved against functions, and the laws are lemmas about those functions. Clock readings
are inputs.

Three promises hold only under a condition, and the condition is part of the result:

* The uploader loses no file, and leaves no older content behind, exactly where there are no rivals: no
  two jobs with different generations for one destination, the older of which has a 64-bit timestamp, so
  that its lock becomes stale some day (`LostExactly`, `GoesBackExactly`, `FinishedGoesBackExactly`; for
  a loss, the newer job must not be all on Google Drive). With rivals a history without any error does
  the damage: a run of the older job is overtaken between its link request and its upload. At such
  destinations the promises hold while no run writes under a lock older than six minutes (`AllTimely`),
  and `UnstagedOnlyAfterSettled` is what remains true whatever happens. A create-only job that finds the
  destination occupied is covered by `CreateOnlyExactly`.
* Queue times stay different as long as only active rows are confirmed. `ConfirmTiesExactly` says exactly
  when confirming any row keeps them different, and `ConfirmingACancelledRowCanTie` is a table and a sift
  after which it does not.
* A scheduled close reads the schedule and stores its operation id in two requests. They are one step in
  the safety theorems. `LateStartExactly` says when splitting them makes no difference, and
  `EditBetweenReadAndStartJams` what becomes of the game otherwise.

Similar code that differs in detail is modelled as it is: the batched pass lookup skips empty Telegram
handles, which the single lookup does not, and `BatchAgreesExactly` says when the two agree.

## Model

| member | source | states |
|---|---|---|
| UploadGeneration.GenerationOrderIsTimeOrder | functions/disk_uploader/index.go:39 | comparing validated generations as strings never contradicts comparing their timestamps |
| UploadGeneration.StaleExactly | functions/disk_uploader/aws_main.go:233-235 | a validated lock is stale exactly when its timestamp fits 64 bits and more than six minutes have passed |
| UploadGeneration.StaleForever | functions/disk_uploader/aws_main.go:233-239 | a lock that is stale stays stale |
| UploadProtocol.Drop | functions/disk_uploader/aws_main.go:163-178 | deleting one version leaves every other version, and a newer one on top |
| UploadLock.MutualExclusion | functions/disk_uploader/aws_main.go:204-247 | over every history, two runs hold one destination only if one of their locks had been judged stale and is past six minutes |
| UploadLock.OneLiveLock | functions/disk_uploader/aws_main.go:211-223 | at most one live lock version exists at a destination |
| UploadLock.OthersNeverRemoveALiveLock | functions/disk_uploader/aws_main.go:303-307 | no release and no late deletion by another run removes a lock nobody had judged stale |
| UploadLock.AcquireIsLockSafe | functions/disk_uploader/index.go:386-500 | competing for a lock, by eviction or by conditional takeover, creates it only over nothing or over a judged lock |
| UploadFreshness.MarkerMoves | functions/disk_uploader/aws_main.go:402-418 | whatever the timing, what a marker shows changes only when a run records its own generation there, never by a late deletion |
| UploadFreshness.DiskMoves | functions/disk_uploader/aws_main.go:352-364 | the content of a destination changes only when a run uploads its own there |
| UploadFreshness.ExecKeepsMarkInv | functions/disk_uploader/aws_main.go:402-418 | at a destination written in time the recorded generation only grows, and a run in time still sees the marker it read |
| UploadFreshness.DiskNeverBehindMarker | functions/disk_uploader/aws_main.go:293-376 | at a destination of overwriting jobs written in time, the disk is at least as new as its recorded generation |
| UploadFreshness.FinishedNeverGoesBack | functions/disk_uploader/aws_main.go:312-376 | once a file is finished by upload or as already newer, its destination, while written in time, never again holds anything older |
| UploadFreshness.CreateOnlyExactly | functions/disk_uploader/aws_main.go:340-343 | recording an existing file keeps disk and marker in step exactly when that file is at least as new as the job |
| UploadRetention.NoAcceptedFileIsLost | functions/disk_uploader/aws_main.go:402-527 | over every history that writes its destination in time each accepted file is staged, or recorded, or reported as failed, or mirrored |
| UploadRetention.SuccessMeansSettled | functions/disk_uploader/aws_main.go:514-526 | a job reported as successful has every file settled whose destination has been written in time |
| UploadCompletions.OneCompletionForEver | functions/disk_uploader/aws_main.go:420-436 | across retries at most one completion is recorded, and whether it is a success never changes |
| UploadCompletions.EndedMeansAnswered | functions/disk_uploader/aws_main.go:468-527 | a run of a job with a callback ends without error only after a completion is recorded |
| UploadHistory.UnstagedOnlyAfterSettled | functions/disk_uploader/aws_main.go:312-316 | whatever the timing, a staged object is gone only if its file was settled at some moment |
| UploadHistory.SuccessOnlyAfterSettled | functions/disk_uploader/aws_main.go:514-526 | whatever the timing, a job is reported as successful only after each of its files was settled at some moment |
| UploadHistory.EverSettledMeans | functions/disk_uploader/aws_main.go:312-316 | what a history counts as settled was settled after one of its prefixes |
| UploadSmooth.Acquires | functions/disk_uploader/aws_main.go:204-247 | an undisturbed run gets the lock of a destination that is free or held by a stale lock, in both variants, and changes nothing else |
| UploadSmooth.Passes | functions/disk_uploader/aws_main.go:293-376 | an undisturbed run passes such a file: it releases the lock and deletes the staged object, and at an unmarked destination it leaves its own content and generation |
| UploadOvertaking.LostExactly | functions/disk_uploader/aws_main.go:402-418 | some history, even without errors, loses an accepted file exactly when its job is not all mirrored and another job has an older generation for its destination with a 64-bit timestamp |
| UploadOvertaking.GoesBackExactly | functions/disk_uploader/aws_main.go:352-371 | some history, even without errors, leaves a destination of overwriting jobs older than its marker exactly when it has such rivals |
| UploadOvertaking.FinishedGoesBackExactly | functions/disk_uploader/aws_main.go:293-376 | a destination of overwriting jobs can hold older content after a run has finished a file exactly when the file has an older rival |
| UploadJob.ValidateFiles | functions/disk_uploader/index.go:185-222 | accepts exactly the lists of well-formed files with different roles |
| UploadJob.ValidateJob | functions/disk_uploader/index.go:178-224 | accepts exactly the well-formed jobs |
| UploadJob.ExistingResult | functions/disk_uploader/index.go:702-718 | a published file gets an https URL, any other none, and a missing resource is an error |
| UploadJob.UploadOne | functions/disk_uploader/aws_main.go:293-418 | an attempt succeeds only with the marker seen or put at the generation or past it, or with the staged object gone, and returns an https URL exactly for a published file; it is busy exactly when the lock is |
| UploadJob.TryFile | functions/disk_uploader/aws_main.go:480-490 | a file succeeds exactly when one of its one or three attempts does, and its result is that of the first such attempt, or else of the last |
| UploadJob.UploadFiles | functions/disk_uploader/aws_main.go:479-515 | the URLs collected are exactly those of the published roles before the first failure, each https |
| UploadJob.Process | functions/disk_uploader/aws_main.go:446-527 | a success is reported exactly when every file succeeded and somebody waits for it, naming exactly the published roles with https URLs; a failure ends as the protocol gives up, and staged objects go only after an accepted failure or when all is mirrored |
| QueueOrder.QueueUnique | src/larp_bot/domain/registration_queues.py:15-24 | the sorted queue of a set of rows is unique |
| QueueOrder.QueueOfTwoGroups | src/larp_bot/domain/registration_queues.py:11-24 | moving a group behind the rest is a stable partition of the queue |
| QueueOrder.QueueOfExchange | src/larp_bot/domain/registration_queues.py:11-24 | exchanging two different times exchanges two places and nobody else's |
| QueueOrder.QueueOfSome | src/larp_bot/domain/registration_queues.py:15-24 | the queue of some members is the queue with the others taken out |
| QueueOrder.QueueWithLast | src/larp_bot/domain/registration_queues.py:11-24 | whoever joins later than everyone is last |
| Registrations.Repository.LatestQueueTime | src/larp_bot/adapters/memory.py:877-884 | finds the latest queue time among active rows, or that there is none |
| Registrations.Repository.Enlist | src/larp_bot/adapters/memory.py:856-916 | a repeated operation changes nothing; a new or returning row joins after everyone, an active one only gives a new answer |
| Registrations.Repository.UpdateAnswer | src/larp_bot/adapters/memory.py:918-947 | changes nothing when already applied or already answered; otherwise all given rows move together behind those with the answer |
| Registrations.Repository.Confirm | src/larp_bot/adapters/memory.py:975-999 | removes the replaced row in any case and confirms once per operation |
| Registrations.Repository.Cancel | src/larp_bot/adapters/memory.py:1103-1110 | cancels once per operation |
| Registrations.Repository.CancelLinked | src/larp_bot/adapters/memory.py:1112-1127 | cancels exactly the linked rows the operation has not reached and reports whether there were any |
| Registrations.Repository.ConfirmLinked | src/larp_bot/adapters/memory.py:1001-1033 | frees the replaced rows and confirms the linked ones, each exactly where the operation has not been |
| Registrations.Repository.QueueSpan | src/larp_bot/adapters/memory.py:1137-1138 | the span from the earliest to just past the latest active queue time |
| Registrations.Repository.SiftWaitingToEnd | src/larp_bot/adapters/memory.py:1129-1144 | every waiting row of the event, and no other, moves back by the span |
| Registrations.Repository.SwapQueuePositions | src/larp_bot/adapters/memory.py:1146-1175 | each of two rows takes the given time of the other, unless one is missing or both have been done |
| Registrations.Repository.Remove | src/larp_bot/adapters/memory.py:1177-1178 | removes one row and says whether it was there |
| RosterLaws.PositionIsRank | src/larp_bot/domain/registration_queues.py:51-57 | a queue position is the number of participants ahead |
| RosterLaws.MainByRank | src/larp_bot/domain/registration_queues.py:36-38 | the main roster without a question is exactly those with fewer than the capacity ahead |
| RosterLaws.MainRosterByRank | src/larp_bot/domain/registration_queues.py:36-43 | with or without a question, the main roster is exactly those with fewer ahead than the places of their own queue |
| RosterLaws.MorePlacesExtend | src/larp_bot/domain/registration_queues.py:36-38 | more places extend the main roster by exactly the first of the reserve |
| RosterLaws.MainAfterLeaving | src/larp_bot/domain/registration_queues.py:36-43 | in each queue a main-roster row that leaves is replaced by exactly the first of the reserve, at the end; a reserve row leaves the main roster alone |
| RosterLaws.MainRosterAfterLeaving | src/larp_bot/domain/registration_queues.py:36-43 | the main roster of a whole game after somebody leaves is who was in it before, the leaver aside, and the first of the reserve of the leaver's own queue if the leaver had a place |
| RosterLaws.OnePromoted | src/larp_bot/domain/registration_queues.py:36-43 | at most one participant gains a place, and under the leaver's own answer |
| RosterLaws.RemovalLeaves | src/larp_bot/adapters/memory.py:1177-1178 | removing a row takes exactly that participant out of every queue |
| RosterLaws.RostersPartition | src/larp_bot/domain/registration_queues.py:36-48 | every active row is in exactly one of main and reserve roster, once, with or without a question |
| RosterLaws.ChatLinkExactly | src/larp_bot/application/notification_helpers.py:56-63 | chat links go to exactly the confirmed participants of the main roster of the whole game |
| RosterLaws.ChatLinkAfterCancel | src/larp_bot/application/notification_helpers.py:56-63 | a cancellation takes the link from the leaver only and gives it only to the one promoted, if confirmed |
| RosterLaws.OtherAnswersKeepTheirRosters | src/larp_bot/domain/registration_queues.py:39-43 | cancelling under one answer leaves the queues of the others alone |
| SiftLaws.SiftIsStablePartition | src/larp_bot/adapters/memory.py:1129-1144 | after a sift the queue is the confirmed rows in order, then the waiting rows in order, as a whole and under every answer |
| SiftLaws.SiftAgain | src/larp_bot/adapters/memory.py:1129-1144 | a second sift changes no position |
| SiftLaws.SiftPromotesConfirmed | src/larp_bot/domain/registration_queues.py:36-43 | for every capacity only confirmed rows are promoted, only waiting ones demoted, in equal numbers |
| SiftLaws.LeadingSize | src/larp_bot/domain/registration_queues.py:36-38 | a roster has as many members as the capacity allows |
| SiftLaws.NobodyToPromoteAfterSift | src/larp_bot/application/administration_services.py:401-426 | right after a sift no confirmed reserve can be promoted |
| RegistrationRuns.Carry | src/larp_bot/adapters/memory.py:856-1178 | the repository's methods perform every request as the histories below assume |
| RegistrationRuns.EnlistGoesLast | src/larp_bot/adapters/memory.py:875-887 | signing up after absence or cancellation is strictly last, also after sifts into the future |
| RegistrationRuns.ChangedAnswersGoLast | src/larp_bot/adapters/memory.py:931-945 | those who change to an answer go behind everyone who gave it, who keep their order |
| RegistrationRuns.SwapTransposes | src/larp_bot/adapters/memory.py:1146-1175 | a swap with current times exchanges exactly two places |
| RegistrationRuns.PromotionReplacesOne | src/larp_bot/adapters/memory.py:1146-1175 | promoting from the reserve changes exactly the demoted participant's place of the main roster |
| RegistrationRuns.StepKeepsTieFree | src/larp_bot/adapters/memory.py:856-1178 | every orderly request keeps the queue times of a question-free game pairwise different |
| RegistrationRuns.HistoryKeepsTieFree | src/larp_bot/adapters/memory.py:856-1178 | over every orderly history queue times stay pairwise different |
| RegistrationRuns.MovesKeepAnswersConsistent | src/larp_bot/adapters/memory.py:856-1178 | every request keeps answers and their queue times together |
| RegistrationRuns.ConfirmTiesExactly | src/larp_bot/adapters/memory.py:975-999 | confirming keeps times different exactly when the row is active or its time is free |
| RegistrationRuns.ConfirmingACancelledRowCanTie | src/larp_bot/adapters/memory.py:975-999 | a table and a sift after which confirming a cancelled row makes two rows tie |
| LinkedRetries.ConfirmLinkedRetryConverges | src/larp_bot/adapters/memory.py:1001-1033 | from any partly applied state a retry ends as one uninterrupted run, times of change aside |
| LinkedRetries.NothingLeftToConfirm | src/larp_bot/adapters/memory.py:1001-1033 | an immediate second call finds nothing to do and changes nothing |
| LinkedRetries.ConfirmRetryConverges | src/larp_bot/adapters/memory.py:1025-1032 | an interrupted confirmation of linked rows that replaces nothing is completed by a retry |
| LinkedRetries.CancelRetryConverges | src/larp_bot/adapters/memory.py:1112-1127 | an interrupted cancellation of linked rows is completed by a retry |
| LinkedRetries.NothingLeftToCancel | src/larp_bot/adapters/memory.py:1112-1127 | an immediate second cancellation finds nothing to do and changes nothing |
| ScheduledClose.ArchivesOnlyWhatIsEarned | src/larp_bot/application/game_closings.py:179-252 | the pipeline archives or completes a game only after its statistics stage or a manual archive since the start |
| ScheduledClose.StartedForEver | src/larp_bot/adapters/memory.py:371-459 | a started close keeps its id and schedule, which match, its completion and its growing list of notified leaders without repeats |
| ScheduledClose.StaleCommandChangesNothing | src/larp_bot/application/game_closings.py:120-140 | a command for a replaced or removed schedule or a deleted game changes nothing |
| ScheduledClose.CompletedMeansEveryoneMarked | src/larp_bot/application/game_closings.py:208-251 | when notifications are completed every leader listed, the system aside, is stored as notified |
| ScheduledClose.LateStartExactly | src/larp_bot/application/game_closings.py:152-166 | storing the id after the schedule was read does what one undivided step does exactly when the schedule is still the one read |
| ScheduledClose.EditBetweenReadAndStartJams | src/larp_bot/application/game_closings.py:152-166 | after an edit in between, over every later history, the stored id stays that of another schedule, the close is never completed and no command or worker changes the game |
| ScheduledClose.ExecKeepsInv | src/larp_bot/application/game_closings.py:120-252 | the invariant behind all of this holds in every reachable state and nothing earned is lost |
| ScheduledCloseService.Service.StartStage | src/larp_bot/application/game_closings.py:152-177 | the start stage is the uninterrupted run of the protocol's start |
| ScheduledCloseService.Service.AddStatistics | src/larp_bot/application/game_closings.py:179-188 | the statistics stage is the uninterrupted run of the protocol's statistics |
| ScheduledCloseService.Service.FinalizeStage | src/larp_bot/application/game_closings.py:190-252 | the finalize stage is the uninterrupted run of the protocol's and messages each unreported leader once |
| ScheduledCloseService.Service.NotifyLeaders | src/larp_bot/application/game_closings.py:208-251 | the leader loop sends to and marks exactly the leaders not yet told, in order |
| ScheduledCloseService.Unreported | src/larp_bot/application/game_closings.py:218-221 | the leaders to tell are those neither stored nor the system |
| ScheduledCloseService.UnreportedOnce | src/larp_bot/application/game_closings.py:209-248 | telling them repeats nobody |
| ScheduledCloseService.ReprocessingCloses | src/larp_bot/application/game_closings.py:152-252 | from every reachable started state, reprocessing the start command and what it queues closes the game in at most three stages, with every leader marked exactly once |
| OptimisticUpdate.Serialisable | functions/registration_notifier/aws_main.go:281-328 | the stored payload is the accepted mutations applied one after another in revision order, and the revision counts them |
| OptimisticUpdate.EachCallCommitsOnce | functions/registration_notifier/aws_main.go:281-328 | a call reporting a change made it once; one reporting none or failing left no trace, a lost answer aside; at most four attempts |
| OptimisticUpdate.Store.Mutate | functions/registration_notifier/aws_main.go:281-328 | the retry loop changes the latest row only, goes on only after an answered conflict, and fails without a change on an unanswered read, an unsent write, a fault or four conflicts |
| RegistrationNotifier.CompletedMeansAllStored | functions/registration_notifier/service.go:112-184 | over overlapping runs an entry is stored only after a successful send, once, and a completed event past the cutoff has every recipient stored |
| RegistrationNotifier.StoredListGrows | functions/registration_notifier/aws_main.go:430-481 | the stored list only grows at its end and completion is for ever |
| RegistrationNotifier.BacklogSwallowsExactly | functions/registration_notifier/aws_main.go:342-428 | opening an imminent event brings it under the backlog rule exactly when the clock is not past the cutoff |
| RegistrationNotifier.Merge | functions/registration_notifier/aws_main.go:436-465 | the merge keeps the first occurrence of every recipient in order |
| RegistrationNotifier.MergeKeepsStored | functions/registration_notifier/aws_main.go:436-465 | merging keeps the stored list as a prefix and appends only what is new |
| RegistrationNotifier.Pass | functions/registration_notifier/service.go:138-183 | one undisturbed pass stores exactly those reached, in order, and completes exactly when nobody is left |
| LinkedIdentity.LinksAreMutual | src/larp_bot/adapters/memory.py:35-63 | one profile finds another exactly when the other finds it |
| LinkedIdentity.PeopleAreClasses | src/larp_bot/application/identity.py:14-22 | people are classes of one or two profiles |
| LinkedIdentity.OnePersonOneAnswer | src/larp_bot/application/identity.py:14-22 | both profiles of a person give the same answer |
| LinkedIdentity.CollectClaims | src/larp_bot/application/pass_preferences.py:19-22 | the first loop groups the Telegram profiles by the VK profile and handle they claim |
| LinkedIdentity.ResolveClaims | src/larp_bot/application/pass_preferences.py:23-31 | the second loop links exactly the mutually linked profiles to the latest of the two |
| LinkedIdentity.EventPassPreferences | src/larp_bot/application/pass_preferences.py:9-38 | exactly the active keys get an answer, that of their person's latest profile |
| LinkedIdentity.BatchAgreesExactly | src/larp_bot/application/pass_preferences.py:19-31 | the batched answer is the looked-up one except for a link through an empty handle to a later profile that says otherwise |
| LinkedIdentity.OrderDoesNotMatter | src/larp_bot/application/pass_preferences.py:9-38 | the order of the profiles does not matter |
| Paging.BackUndoesForward | src/larp_bot/adapters/memory.py:779-791 | between two full pages the after and before cursors lead to exactly the next and the previous page |
| Paging.ReadRegistrationPage | src/larp_bot/application/administration_services.py:262-302 | the has-previous and has-next flags are exact |
| Paging.UnarchivedEvents | src/larp_bot/application/chat_management.py:121-136 | following cursors ends and collects every event once in order |
| Paging.Backfill | src/larp_bot/application/google_showcase_backfill.py:18-63 | queues exactly one refresh for every incomplete event and for every date of an unarchived game |
| Paging.WalkReadsLastingRowsOnce | src/larp_bot/adapters/memory.py:750-791 | on a changing table no row is read twice and every lasting row is read by the end |
| Paging.PickerShowsEverything | src/larp_bot/application/chat_management.py:138-170 | every event is on exactly one page and the buttons lead exactly as far as there are events |
| PersonNames.TwoWords | src/larp_bot/domain/models.py:115-118 | a displayed name splits into the surname and name it was made of |
| PersonNames.ParsedName | src/larp_bot/domain/models.py:95-118 | a parsed name is displayed as surname and name, and the dash stands for a missing patronym only |
| ProfileDialogue.Heard | src/larp_bot/domain/models.py:95-118 | a text understood as a name displays as its surname and name |
| ProfileDialogue.FilledIsValid | src/larp_bot/application/conversation_profiles.py:593-616 | a finished questionnaire makes a valid complete profile |
| ProfileDialogue.Dialogue.BeginProfile | src/larp_bot/application/conversation_profiles.py:134-155 | starts a questionnaire with nothing answered, remembering only the flow and the signup it is for |
| ProfileDialogue.Dialogue.BeginField | src/larp_bot/application/conversation_profiles.py:157-208 | asks the question that opens the field, or none where there is nothing to edit, with the stored names in the context |
| ProfileDialogue.Dialogue.FillingStep | src/larp_bot/application/conversation_profiles.py:249-370 | no answer to the questionnaire reads a missing key, and only finishing changes the profile |
| ProfileDialogue.Dialogue.EditingStep | src/larp_bot/application/conversation_profiles.py:407-591 | no answer to an edit reads a missing key or trips an assertion, and it changes only its own field |
| ProfileDialogue.Dialogue.Finish | src/larp_bot/application/conversation_profiles.py:593-636 | finishing stores exactly the answers, also when the command that follows cannot be queued |
| ProfileDialogue.Dialogue.EditName | src/larp_bot/application/conversation_profiles.py:423-453 | the display name and the pass names change together, or Latin names are asked for first |
| ProfileDialogue.Dialogue.Handle | src/larp_bot/application/conversation_core.py:112-216 | any message at any time keeps the stored profile valid; leaving or cancelling changes nothing in it |
| ProfileDialogue.FillIn | src/larp_bot/application/conversation_profiles.py:249-636 | answering every question stores exactly what was typed |
| SignupToken.GameSignupToken | src/larp_bot/application/service_support.py:180-203 | every name, date and valid suffix make a token of 1 to 64 letters, digits and underscores with date and suffix in full; a wrong suffix is an error |
| SignupToken.Collapsed | src/larp_bot/application/service_support.py:193 | runs of underscores become one |
| SignupToken.TailFits | src/larp_bot/application/service_support.py:201 | the date and suffix take 12 to 15 token characters |
| SignupToken.StartCommandReturnsToken | src/larp_bot/application/conversation_support.py:379-388 | a Telegram start command with a token is recognised with exactly that token |
| SignupToken.MentionedStartCommandReturnsToken | src/larp_bot/application/conversation_support.py:379-388 | so is one that mentions the bot |

## Left out

- The object store, the two drives, DynamoDB, SQS and the messengers: abstract maps with atomic conditional writes, reads and deletions by version; their HTTP protocols, credentials and retries below one request are not modelled.
- Keys and operation ids derived by SHA, HMAC and UUID: taken as injective.
- UploadGeneration.StaleExactly: signs, which the integer parser would also accept, are not modelled, because a lock body is always a validated generation.
- UploadCompletions.OneCompletionForEver: states the AWS uploader only, because the Yandex one invokes a function asynchronously and may do so again; of a completion the state keeps whether it is a success, not its URLs and error text.
- UploadRetention.NoAcceptedFileIsLost: takes the timing assumption at the file's own destination; LostExactly says which files need it.
- UploadOvertaking.LostExactly: jobs are as their producer makes them: staged objects named after job and role (`src/larp_bot/adapters/aws/storage.py:37`) and one valid generation for all the files of a job (`src/larp_bot/adapters/aws/storage.py:91-93`); histories start without locks and markers.
- UploadOvertaking.GoesBackExactly: is about destinations of overwriting jobs; a create-only job at an occupied destination is CreateOnlyExactly. All workers read one clock.
- UploadJob.Process: the comparison of the job's bucket with the configured one, error texts, delays and the IAM token a Yandex run needs first are not modelled.
- Registrations.Repository.Enlist: one clock reading serves a whole call where the code reads the clock twice, so the time of the last change can equal the queue time.
- Registrations.Repository.Confirm: a missing row, which raises, is a precondition.
- The wish, profile and import methods of the registration repository: they do not touch the queue.
- RosterLaws.MainByRank: the helper for a plain number of places (`src/larp_bot/application/notification_helpers.py:47-53`) orders by creation time alone and is not modelled; every caller with a game uses the rosters above.
- ScheduledClose.ArchivesOnlyWhatIsEarned: the status field and the refresh of the daily pass table are not modelled; a stage's read and first write are one step.
- ScheduledClose.EditBetweenReadAndStartJams: one worker has the gap between its read and its write; the others keep the two in one step.
- Statistics workbooks, table rendering and the content of messages and buttons.
- RegistrationNotifier.CompletedMeansAllStored: the recipients are fixed and the opening is not rescheduled meanwhile; limits per run and confirmation and closing commands are not modelled.
- OptimisticUpdate.Serialisable: encoding and decoding of payloads is part of the mutation.
- The sorting of recipients and the DynamoDB scan: the model starts from the sorted list without repeats.
- Paging: cursors are exact pairs; their encoding in button values is not modelled, nor is the page of confirmed reserves.
- Paging.Backfill: publishing does not fail.
- ProfileDialogue.Dialogue.Handle: which branch a text takes, the other dialogues and their contexts, the menus, repeated updates and the user's own Telegram handle are inputs or left out; the validators of phone numbers, email addresses, contacts and nicknames are inputs.
- SignupToken.GameSignupToken: case folding is an input, so the token is shown to be well-formed whatever it does; the random choice of a suffix is an input.
- Cloudflare workers, rate limiting, authentication, deployment, migrations, PDF building and snapshot uploads.
