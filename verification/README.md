# GitHub bot protocols

A model, in Dafny, of the stateful and concurrent parts of a GitHub maintenance bot, with proofs of
what they guarantee. `dafny verify dfyconfig.toml` checks everything.

Code that updates fields in place is a class whose methods are proved equal to functions on plain
values (`ConfigLoading.ConfigLoader`, `LockRegistry.BoundedLockRegistry`, `RateLimit.RateLimiter`,
`StripeWebhooks.Database`, `StaleIssues.StaleScan`, `AccessSync.AccessStore`). Concurrency is a step
machine over those same functions: a step is one stretch of code between two points where a
coroutine can be suspended, and a run is any sequence of enabled steps. The theorems quantify over
all runs. Answers, failures, cancellations, clock values and other people's activity are choices
made by the run; what a run does not contain is listed at the end.

| files | what they model |
|---|---|
| `OrderedDict`, `Sets`, `Text` | Python's `OrderedDict`, finite sets, case folding |
| `ConfigLoader`, `LoaderRuns`, `LoaderGuarantees`, `LoaderAnswers` | the configuration cache: single flight, expiry, LRU eviction, invalidation with recycled generation counters |
| `LockRegistry`, `LockRuns` | a bounded table of per-key locks that evicts idle ones |
| `SelfAssign`, `SelfAssignGuarantees`, `SelfAssignDecisions`, `MentorRotation`, `RoleNotices` | the three protocols built on that table |
| `StripeWebhooks`, `StripeRuns`, `StripeGuarantees`, `StripeOrigins` | subscription events as interleaved database transactions |
| `RateLimit` | token buckets and their pruning |
| `StaleIssues`, `StaleLifecycle` | the stale scan, and an issue's life under many scans |
| `Progression` | measuring a contributor with bounded reads, and role eligibility |
| `Selection` | least-assigned reviewers and mentors |
| `AccessSync`, `AccessRuns` | grants and revocations from a possibly truncated list, alone and in concurrent calls |
| `PrHealth` | effective approvals, weights, score |

Some properties that one might expect are false of the code. Each has a concrete run or an exact
condition under which it does hold:

- `/assign` can exceed the limit, and assign an issue that has an assignee, when someone else
  reopens or assigns between the handler's check and its assignment
  (`SelfAssignGuarantees.OthersBreakBoth`). It does neither if and only if what
  `SelfAssignGuarantees.AssignsUnassignedIff` and `SelfAssignGuarantees.WithinLimitIff` say holds.
- The number of reviews found through search can be too small without being flagged as partial
  (`Progression.LaggingIndexUndercounts`); `Progression.SearchReviewsAreLowerBound` says exactly when
  it is right. The correction for a merge not yet indexed can count it twice when the search has
  more results than one page (`Progression.LongSearchOvercounts`).
- An access that was just revoked can be granted again by a concurrent call that read an older list
  (`AccessRuns.OlderListGrantsAgain`, `AccessRuns.CommitIsExactIff`).
- A stored Stripe customer id can be replaced: two checkout deliveries for one account that overlap
  both read it as empty, and the second commit overwrites the first
  (`StripeGuarantees.StoredCustomerCanChange`). It never changes in a run if and only if overlapping
  checkouts of an account carry the same id (`StripeGuarantees.StoredCustomerStays`).
- The handler's comments say that production never applies the status in an event's body. It does
  when the event names no subscription, and only then
  (`StripeGuarantees.BodyTrustedWithoutSubscription`). The model follows the code.
- An issue can be closed right after someone comments on it: the decision uses the listing
  (`StaleLifecycle.ActivityDuringScanIsMissed`, `StaleLifecycle.ClosesIdleIffUntouched`). And an
  issue is never closed when the stale label is itself listed as exempt
  (`StaleLifecycle.ClosesIffNotSpared`).
- A load can answer with content the file no longer has when the file changes without an
  invalidation (`LoaderGuarantees.UnannouncedChangeIsMissed`); with invalidations it is linearizable,
  and without them stale by no more than what `LoaderGuarantees.AnswersAreRecent` and
  `LoaderGuarantees.CacheAnswersExpire` say.

## Model

| member | source | states |
|---|---|---|
| `LoaderGuarantees.LoadIsLinearizable` | app/config/loader.py:92-147 | in every run, if the remote file changes only together with an invalidation, each completed load (hit, leader or waiter) gives the outcome for what the file contained at a moment between the call's start and end |
| `LoaderGuarantees.AnswersAreRecent` | app/config/loader.py:92-210 | with no assumption on how files change: each answer is for content the file had no earlier than the last invalidation before the call began |
| `LoaderGuarantees.UnannouncedChangeIsMissed` | app/config/loader.py:149-159 | a concrete run whose second load answers with content the file lost before the call began, so the assumption is needed |
| `LoaderGuarantees.GenerationRefinesEpoch` | app/config/loader.py:299-348 | the recycled counter behaves like one that never resets: an unfinished fetch is of the current generation exactly when nothing touched its key since it registered |
| `LoaderGuarantees.CacheHoldsNothingInvalidated` | app/config/loader.py:299-311 | every cached entry tells content read by a fetch that began after its key's last invalidation |
| `LoaderGuarantees.MissesShareTheFetch` | app/config/loader.py:113-147 | a miss joins the fetch in progress exactly when nothing invalidated the key since that fetch registered |
| `LoaderGuarantees.LiveCountsFetches` | app/config/loader.py:119-124 | live counts equal the unfinished fetches of each key, generation keys are among the live keys, and no two unfinished fetches share key and generation |
| `LoaderGuarantees.WaitersFollowTheirLeader` | app/config/loader.py:136-147 | no waiter is stranded, and a finished waiter has its leader's outcome, a leader's abort reaching it as a cancellation |
| `LoaderGuarantees.EveryCallIsCounted` | app/config/loader.py:92-159 | hits, misses, coalesced, waiting and cancelled waiters add up to the calls started |
| `LoaderGuarantees.CacheAnswersExpire` | app/config/loader.py:278-297 | a hit is younger than 300 seconds for a configuration and 60 for anything else |
| `LoaderGuarantees.CacheIsBounded` | app/config/loader.py:278-297 | in every world of every run the cache holds at most 512 entries |
| `LoaderGuarantees.EvictsLeastRecentlyUsed` | app/config/loader.py:278-297 | a store evicts only from a full cache, and only what was used before everything that stays |
| `LoaderAnswers.LeaderIsTold` | app/config/loader.py:161-207 | the leader ends with what its request ended with: the parsed configuration, the parse error, nothing for a missing file, the HTTP error with its code, a cancellation or an abort; after an error, a cancellation or an abort the cache is as before |
| `LoaderAnswers.WaitersAreTold` | app/config/loader.py:136-147 | whenever a waiter of that fetch wakes up, it ends with the same, a leader's abort reaching it as a cancellation |
| `LoaderAnswers.RememberedIff` | app/config/loader.py:176-207 | a fetch is stored, with what its caller is told, if and only if it read the file or found none and nothing invalidated the key since it registered; otherwise the cache is as before |
| `LoaderAnswers.HitIff` | app/config/loader.py:113-159 | a call is answered at once, by the entry, if and only if its key has one younger than its time to live; otherwise it makes or joins exactly one request |
| `LoaderAnswers.EntriesStay` | app/config/loader.py:278-348 | an entry goes only by an invalidation of its key, by clearing, or when a fetch is stored in a full cache, and changes only by a fetch of its key |
| `LoaderAnswers.OthersGoOn` | app/config/loader.py:92-147 | each event moves one call at most, and that one to its end |
| `LoaderRuns.CurrentIsQuiet` | app/config/loader.py:299-318 | an unfinished fetch's generation is the current one exactly when nothing touched its key since it registered, in any world the invariants hold in |
| `LoaderRuns.InvalidateFlights` | app/config/loader.py:313-341 | invalidating a key moves the counter of each of its unfinished fetches on by one and no other, and keeps the flight bookkeeping |
| `LoaderRuns.EndGenerations` | app/config/loader.py:320-334 | a finishing fetch, which may recycle the counter, changes no other unfinished fetch's counter |
| `LoaderRuns.FetchedKeeps` | app/config/loader.py:161-210 | the leader's last stretch (parse, store, finish) keeps every invariant whatever the reply, failures and cancellation included |
| `LoaderRuns.LoadLeadKeeps` | app/config/loader.py:117-134 | registering a fetch, also in place of an outdated one, keeps every invariant |
| `LoaderRuns.ClearsKeeps` | app/config/loader.py:343-348 | clearing all keys keeps every invariant |
| `ConfigLoading.ConfigLoader.ReadCache` | app/config/loader.py:149-159 | a fresh entry is a hit, counted and moved to the newest place; otherwise nothing changes |
| `ConfigLoading.ConfigLoader.Begin` | app/config/loader.py:92-134 | the first stretch of a load turns the state into the one the runs use: hit, join or lead |
| `ConfigLoading.ConfigLoader.StoreEntry` | app/config/loader.py:278-297 | the eviction loop leaves the newest 512 entries, the stored one last |
| `ConfigLoading.ConfigLoader.StoreEntryIfCurrent` | app/config/loader.py:299-311 | stores exactly when the fetch's generation is the key's current one |
| `ConfigLoading.ConfigLoader.End` | app/config/loader.py:161-210 | the stretch from reply to finished flight equals the function used by the runs, whose answers `LoaderAnswers.LeaderIsTold` gives for each kind of reply |
| `ConfigLoading.ConfigLoader.Finish` | app/config/loader.py:320-334 | signals the flight, leaves a newer flight registered, and recycles the counter when no fetch is left |
| `ConfigLoading.ConfigLoader.WakeUp` | app/config/loader.py:136-147 | a woken waiter is counted and shares the flight's outcome |
| `ConfigLoading.ConfigLoader.InvalidateKey` | app/config/loader.py:336-341 | drops the entry and moves the key's generation on |
| `ConfigLoading.ConfigLoader.ClearAll` | app/config/loader.py:343-348 | the loop over all keys empties the cache and leaves exactly the counters of keys being fetched, each moved on by one |
| `LockRegistry.BoundedLockRegistry.Get` | app/workflows/onboarding.py:56-74 | gives the table's lock, a new one, or one in the oldest idle lock's place, and fails exactly when the table is full of locks in use |
| `LockRegistry.BoundedLockRegistry.EvictIdle` | app/workflows/onboarding.py:60-72 | removes the oldest idle lock, if there is one, and nothing else |
| `LockRegistry.TrackedLock.Enter` | app/workflows/onboarding.py:30-40 | counts the task as a user and takes the lock exactly when it is free with nobody queued, else queues last |
| `LockRegistry.TrackedLock.Exit` | app/workflows/onboarding.py:30-40 | takes the task off the count, and off the lock or the queue, whichever it is in |
| `LockRuns.RegistryIsSafe` | app/workflows/onboarding.py:22-74 | in every run the table stays within capacity, user counts equal holders plus waiters, a lock in use is still its key's entry, and one task at most is in a key's critical section |
| `LockRegistry.GetFailsOnlyWhenAllInUse` | app/workflows/onboarding.py:56-74 | entering fails if and only if the key is new, the table full, and every lock in use |
| `LockRuns.EvictsOldestIdle` | app/workflows/onboarding.py:60-72 | an evicted lock is idle, the table was full, and no idle lock was asked for longer ago |
| `LockRuns.FirstComeFirstServed` | app/workflows/onboarding.py:30-40 | in every run a lock goes to the waiting task that asked for it first |
| `LockRegistry.EntersAlone` | app/workflows/onboarding.py:56-74 | with nobody in the table's locks any task gets in, whatever idle locks fill the table, and holds its key's lock |
| `LockRegistry.MutualExclusion` | app/workflows/onboarding.py:30-40 | two holders for one key are the same task, whatever was evicted meanwhile |
| `LockRegistry.QueueMoves` | app/workflows/onboarding.py:30-40 | a queued task's lock is held, or its first waiter can take it |
| `LockRegistry.EnterKeeps` | app/workflows/onboarding.py:56-74 | get and enter as one step keep the invariant and everyone's lock |
| `LockRegistry.LeaveKeeps` | app/workflows/onboarding.py:30-40 | leaving, by return, exception or cancellation while queued, keeps the invariant |
| `SelfAssignGuarantees.AssignmentsAreSafe` | app/workflows/onboarding.py:214-268 | in every interleaving, also with others assigning, unassigning, closing and reopening: whoever is assigned when the bot assigns was assigned from outside since the handler's read, and the contributor exceeds the limit by no more than they gained since the count, from outside or through handlers without a limit |
| `SelfAssignGuarantees.AssignsUnassignedIff` | app/workflows/onboarding.py:214-250 | the bot assigns an issue that nobody is assigned to if and only if every outside assignment since the handler's read was taken back |
| `SelfAssignGuarantees.WithinLimitIff` | app/workflows/onboarding.py:228-250 | an assignment keeps to the limit if and only if the contributor's gains since the count, this issue included, are covered by their losses and the room counted |
| `SelfAssignGuarantees.UndisturbedAssignments` | app/workflows/onboarding.py:214-268 | when nobody else assigns or reopens and every handler for the contributor has a limit, assignments go only to unassigned issues and never above the limit |
| `SelfAssignGuarantees.OthersBreakBoth` | app/workflows/onboarding.py:228-239 | a concrete run in which a reopening takes the contributor to three open issues under a limit of two, and an outside assignment gives the issue two assignees |
| `SelfAssignGuarantees.HistoryIsTrue` | app/workflows/onboarding.py:214-268 | the recorded changes lead from the first issues to the present ones |
| `SelfAssignGuarantees.EveryAssignmentIsLogged` | app/workflows/onboarding.py:237-250 | each assignment by a handler is one that the theorems above are about |
| `SelfAssignGuarantees.OneAssigneeByBot` | app/workflows/onboarding.py:214-250 | at any moment at most one of an issue's assignees is there only through the bot |
| `SelfAssignGuarantees.NeverTwoAssignees` | app/workflows/onboarding.py:214-250 | an issue unassigned at the start, and never assigned by anyone else, never has two assignees |
| `SelfAssignGuarantees.NeverDeadlocked` | app/workflows/onboarding.py:214-268 | while some handler is unfinished, some handler can take a step other than failing |
| `SelfAssignGuarantees.HandlersTerminate` | app/workflows/onboarding.py:214-268 | a run has at most nine handler steps for each handler that arrives |
| `SelfAssignDecisions.OnlyEligibleAreAssigned` | app/workflows/onboarding.py:228-250 | in every run each assignment by a handler was preceded by that handler's own passed eligibility check, and was one of its requests that took effect |
| `SelfAssignDecisions.IneligibleNeverAssign` | app/workflows/onboarding.py:230-246 | a handler whose eligibility check failed is never behind an assignment in the history, before or after |
| `SelfAssignDecisions.EligibleIsAssigned` | app/workflows/onboarding.py:214-268 | while no other handler is at work, a handler for a known, unassigned issue, whose contributor has fewer open issues than the limit, if there is one, can go on to its end with its contributor assigned |
| `SelfAssignDecisions.ReadDecides` | app/workflows/onboarding.py:214-229 | a handler refuses exactly when anyone is assigned, and otherwise goes on to the limit or, without one, to the check |
| `SelfAssignDecisions.CountDecides` | app/workflows/onboarding.py:228-235 | it goes on to the check exactly when the open issues assigned to its contributor can be counted and are fewer than the limit |
| `SelfAssignDecisions.CheckDecides` | app/workflows/onboarding.py:230-246 | it goes on to assign if and only if the check passes; a failed check changes nothing on GitHub |
| `SelfAssignDecisions.AssignDecides` | app/workflows/onboarding.py:237-250 | an assignment that takes effect adds the contributor to the issue's assignees, and changes nothing else |
| `SelfAssignDecisions.RefusesForAReason` | app/workflows/onboarding.py:220-246 | in every run a handler refuses only after it read that someone is assigned, found no room below its limit or could not count, or failed its check |
| `SelfAssignDecisions.RecordsWhatItAssigned` | app/workflows/onboarding.py:237-268 | in every run a handler records only an assignment that it made with success and then confirmed |
| `SelfAssignDecisions.SameContributor` | app/workflows/onboarding.py:92-97 | handlers share a contributor's lock and count exactly when their logins differ in case only |
| `SelfAssign.OneDecider` | app/workflows/onboarding.py:214-250 | no two handlers are past the check of one issue |
| `SelfAssign.OneCounter` | app/workflows/onboarding.py:346-384 | no two handlers with a limit are between count and assignment for one contributor |
| `SelfAssign.AssignPictures` | app/workflows/onboarding.py:214-250 | assigning, with the request succeeding, failing, or failing after it took effect, leaves every other handler able to account for what it sees, and explains the new entry |
| `SelfAssign.ChangeKept` | app/workflows/onboarding.py:214-250 | whatever anyone changes on GitHub, each handler can still account for the assignees and the open issues it sees |
| `MentorRotation.MentorsStayBalanced` | app/workflows/onboarding.py:477-530 | in every interleaving, with failures anywhere, recorded assignments in a fixed team differ by at most one if they did at the start |
| `MentorRotation.RowsAreCounted` | app/workflows/onboarding.py:532-549 | the counts the theorem is about: how many rows of the repository name the mentor, in capital or small letters |
| `MentorRotation.CommitsRecord` | app/workflows/onboarding.py:519-530 | a row is added when a handler commits, naming the mentor it assigned, and at no other time |
| `MentorRotation.MentorIsRecorded` | app/workflows/onboarding.py:504-530 | while no other handler is at work, a handler whose team has a member with a login can go on to its end with one row more, for the member preferred to all others |
| `Selection.MentorCounts` | app/workflows/onboarding.py:532-549 | the dictionary counts, by folded login, the log rows that name a mentor |
| `Selection.SelectMentor` | app/workflows/onboarding.py:551-562 | the choice is a member with a login, and none has a smaller count and login |
| `Selection.MentorIsLeast` | app/workflows/onboarding.py:551-562 | a chosen mentor was assigned no more often than anyone in the team |
| `Selection.MentorIsPreferred` | app/workflows/onboarding.py:551-562 | a mentor is chosen if and only if a member has a login, and nobody in the team has fewer assignments, or as many and an alphabetically earlier login, case aside |
| `Selection.MentorsAreCounted` | app/workflows/onboarding.py:532-549 | a mentor's count is the number of rows that name them, case aside; rows without a name count for nobody |
| `Selection.AssignmentCounts` | app/workflows/reviewerassignment.py:100-126 | the nested loops count, by folded login, all occurrences in the log |
| `Selection.SelectReviewers` | app/workflows/reviewerassignment.py:86-98 | selects the wanted number, or all if there are fewer |
| `Selection.SelectedAreLeast` | app/workflows/reviewerassignment.py:86-98 | the selected are distinct, and nobody left out was assigned less often than they were |
| `Selection.ReviewersArePreferred` | app/workflows/reviewerassignment.py:86-98 | the selected come in order, and each has fewer assignments than everyone left out, or as many and an alphabetically earlier login |
| `Selection.ReviewersAreCounted` | app/workflows/reviewerassignment.py:100-126 | a reviewer's count is the number of places in the log's rows that name them, case aside |
| `Selection.ReviewersStayBalanced` | app/workflows/reviewerassignment.py:86-126 | after any number of pull requests and any number of reviewers each, counts differ by at most one if they did at the start |
| `RoleNotices.AnnouncedOnce` | app/workflows/progression.py:122-165 | in every interleaving a role is announced to a contributor once, plus once for each handler that failed between comment and commit |
| `RoleNotices.AnnouncedAboveCurrent` | app/workflows/progression.py:122-140 | every announced role is above the one held, and is the highest whose minimum of merges, of reviews and of months the measured stats all reach |
| `RoleNotices.SettleKeeps` | app/workflows/progression.py:137-165 | a handler leaving after its comment leaves its notice recorded or lost, and nothing else changed |
| `RoleNotices.LookIsAlone` | app/workflows/progression.py:497-518 | whoever checks the audit log under the lock finds no notice that is posted but not yet recorded |
| `RoleNotices.LooksDecides` | app/workflows/progression.py:132-141 | under the lock a handler goes on to post if and only if a role is due and no recorded notice has it |
| `RoleNotices.PostsAndRecords` | app/workflows/progression.py:137-165 | posting and committing add the notice that is due, once each |
| `RoleNotices.DueIsAnnounced` | app/workflows/progression.py:122-165 | while no other handler is at work, a handler can go on to its end with its due notice posted and recorded, or left as it was if recorded before |
| `RoleNotices.FailuresRecordNothing` | app/workflows/progression.py:137-165 | a comment or commit that fails records nothing; a notice is lost only if its comment was made |
| `Progression.EligibilityIsMonotone` | app/workflows/progression.py:520-532 | for arbitrary requirements, smaller stats never reach a higher role, by the roles' own minima |
| `Progression.EligibilityIsExact` | app/workflows/progression.py:520-532 | the role found is the highest whose own three minima are all reached, and none is found exactly when those of no role are |
| `Progression.AnnouncedIff` | app/workflows/progression.py:122-127 | a role is announced if and only if it is the highest reached and above the one held |
| `Progression.SearchNeverOverpromises` | app/workflows/progression.py:239-295 | stats measured through search never announce a role above the one the true stats reach |
| `Progression.RestNeverOverpromises` | app/workflows/progression.py:357-401 | neither do stats measured through listings, even failed or capped ones |
| `Progression.SearchReviewsAreLowerBound` | app/workflows/progression.py:297-329 | the search count never exceeds the true number of reviews, and when not partial equals it if and only if search listed every pull request the contributor reviewed |
| `Progression.LaggingIndexUndercounts` | app/workflows/progression.py:320-329 | a concrete lagging index gives too small a count that is not flagged as partial |
| `Progression.CountReviewsViaSearch` | app/workflows/progression.py:297-329 | the method computes the count the bound is about |
| `Progression.SearchIsPartialIff` | app/workflows/progression.py:297-329 | the search count is flagged as partial if and only if the reviews of one of the first fifty candidates failed to load or reached the cap, or there are more candidates than those |
| `Progression.AdjustedMergedIsLowerBound` | app/workflows/progression.py:262-271 | the corrected count exceeds the truth if and only if this merge was counted already, with all others, and is not on the page of results read; never when the results fit one page, and then it is exact if only this merge is missing |
| `Progression.AdjustedMerged` | app/workflows/progression.py:262-271 | without a merge to look for, or when it is found, the count is as read; one that is not found counts one more, and one that cannot be looked up counts at least itself |
| `Progression.PageHoldsAll` | app/workflows/progression.py:331-355 | a page that holds as many results as there are holds this one |
| `Progression.LongSearchOvercounts` | app/workflows/progression.py:331-355 | with more results than fit the page, a concrete page counts a merge twice |
| `Progression.RestReviewsAreLowerBound` | app/workflows/progression.py:403-437 | the listing count never exceeds the truth, and equals it when the listing succeeds and is not partial |
| `Progression.CountReviewsViaRest` | app/workflows/progression.py:403-437 | the method computes the count the bound is about |
| `Progression.RestIsPartialIff` | app/workflows/progression.py:403-437 | the listing count is flagged as partial if and only if the reviews of one of the pull requests read are not sure, or fifty are listed |
| `Progression.MergedViaRest` | app/workflows/progression.py:357-401 | counts the listed merges by the contributor, finds the first, and flags a capped listing |
| `Progression.MergedByCounts` | app/workflows/progression.py:357-401 | the merged count is the number of listed pull requests by the contributor that were merged |
| `Progression.RestMergedIsLowerBound` | app/workflows/progression.py:357-401 | a capped listing counts no more than the truth, an uncapped one exactly |
| `Progression.FetchReviewCounts` | app/workflows/progression.py:439-481 | one count per pull request, and the flag is set if and only if some read failed or reached the cap |
| `Progression.LaterStartFewerMonths` | app/workflows/progression.py:65-71 | a later first contribution never gives more months |
| `Progression.WholeMonths` | app/workflows/progression.py:65-71 | it is the number of whole periods of thirty days since then, none without a date or for one in the future |
| `StripeGuarantees.AppliedExactlyOnce` | app/billing/stripe_webhooks.py:183-209 | in every run each account's tier and customer id are the committed transactions replayed in order, one for each applied delivery and no two for one event id, so refused deliveries have no effect |
| `StripeGuarantees.AcknowledgedMeansApplied` | app/billing/stripe_webhooks.py:352-441 | success is answered to an event with an id only once that event has been applied |
| `StripeGuarantees.MissingIdNeverApplied` | app/billing/stripe_webhooks.py:188-190 | in every run no delivery without an event id is applied or about to be, and no committed transaction comes from one |
| `StripeGuarantees.MissingIdIsAnswered` | app/billing/stripe_webhooks.py:183-352 | such a delivery is answered with success exactly when it gets to its claim, otherwise with 400 or 500, and is never applied |
| `StripeGuarantees.DeliveryIsAnswered` | app/billing/stripe_webhooks.py:258-441 | in every run a delivery's step ends it with success and no effect exactly when its id is missing or claimed at its claim, with an applied transaction exactly when it commits and the customer id it stores is not another's, with 400 exactly when no account matches or the lookup fails, and with 500 exactly when several match, production lacks the key, the customer id is taken or the transaction fails |
| `StripeOrigins.ForgedChangesNothing` | app/billing/stripe_webhooks.py:220-236 | in every run a request without a valid signature, or any in production without a secret, changes no account, claim, delivery or log, and is answered with 400, or 500 without a secret |
| `StripeOrigins.GenuineIsHandled` | app/billing/stripe_webhooks.py:238-259 | any other request is refused with 400 if it is no JSON, acknowledged without effect if it is of another kind, and else becomes a delivery of its event |
| `StripeOrigins.DeliveriesAreGenuine` | app/billing/stripe_webhooks.py:220-259 | in every run each delivery comes from a request that carried its event, and bore the signature, unless there is no secret and it is not production |
| `StripeOrigins.EntriesAreIdentified` | app/billing/stripe_webhooks.py:128-180 | in every run a committed transaction is about an account that bore the installation, login or customer id of its event |
| `StripeOrigins.CustomerFollowsLastStore` | app/billing/stripe_webhooks.py:364-373 | in every run an account's customer id is the one of the last committed checkout that read it as empty and named one, and else the one it had at first |
| `StripeGuarantees.TierFollowsLastLookup` | app/billing/stripe_webhooks.py:385-437 | an account is premium after a committed lookup only if the last one was active or trialing, and free whenever it was not |
| `StripeGuarantees.LookupsCommitInOrder` | app/billing/stripe_webhooks.py:318-346 | each lookup for an account is made after the one before it is committed |
| `StripeGuarantees.LookupsAreTrue` | app/billing/stripe_webhooks.py:60-95 | in production, or with the API key, a committed status is the one that was live at the moment of the lookup |
| `StripeGuarantees.BodyTrustedWithoutSubscription` | app/billing/stripe_webhooks.py:60-95 | in production the status in the event's body is applied if and only if the event names no subscription |
| `StripeGuarantees.SettledTierConverges` | app/billing/stripe_webhooks.py:331-441 | once the live status has settled, the first created or updated event that looks it up makes the tier match and no later event undoes that |
| `StripeGuarantees.StoredCustomerCanChange` | app/billing/stripe_webhooks.py:364-373 | a concrete run of two overlapping checkouts in which a stored customer id is replaced |
| `StripeGuarantees.StoredCustomerStays` | app/billing/stripe_webhooks.py:354-383 | stored customer ids never change in a run if and only if overlapping checkouts of one account agree on the id |
| `StripeGuarantees.NeverDeadlocked` | app/billing/stripe_webhooks.py:318-349 | if an event id always comes with the same kind of event, then while a delivery is unfinished some transaction can go on: waiting for row locks and for claims never forms a cycle |
| `StripeGuarantees.DeliveriesTerminate` | app/billing/stripe_webhooks.py:213-441 | a run has at most seven steps of deliveries for each request that arrives |
| `StripeGuarantees.LoneDelivery` | app/billing/stripe_webhooks.py:213-441 | a delivery nothing interleaves with ends as the sequential handler does |
| `StripeRuns.CommittedOnce` | app/billing/stripe_webhooks.py:183-209 | a commit adds an id no committed transaction has, and no other pending transaction holds |
| `StripeRuns.CommittedLookups` | app/billing/stripe_webhooks.py:331-346 | a commit keeps lookups ordered and every uncommitted lookup later than all committed ones for its account |
| `StripeRuns.InstalledBilling` | app/github/webhooks.py:452-477 | installing or renaming an account changes no account's tier or customer id |
| `StripeOrigins.InstallationIsStored` | app/github/webhooks.py:445-475 | it adds a free account when none has the installation, gives the only one its present login, and changes nothing when several have it |
| `StripeOrigins.LookupTells` | app/billing/stripe_webhooks.py:60-95 | a live status may change at any time, and a lookup that is answered takes down the one of its moment, whatever the event says |
| `StripeWebhooks.Database.Webhook` | app/billing/stripe_webhooks.py:213-441 | the handler's statements end in the tables and the outcome that the delivery function gives; a request without a valid signature changes nothing and is answered with 400, and with 500 in production without a secret |
| `StripeWebhooks.Database.GetAccount` | app/billing/stripe_webhooks.py:128-180 | the queries by installation, login and customer, each only when the ones before it found nothing |
| `StripeWebhooks.Database.ClaimEvent` | app/billing/stripe_webhooks.py:183-209 | claims exactly the ids that are present and not claimed |
| `StripeWebhooks.Database.Commit` | app/billing/stripe_webhooks.py:359-439 | account and claim are written together, or neither when a customer id would repeat |
| `StripeWebhooks.Redelivered` | app/billing/stripe_webhooks.py:270-349 | after a refusal a redelivery acts as a first delivery, after success it changes nothing, and claims change exactly when the event is applied |
| `StripeWebhooks.ScreenedIff` | app/billing/stripe_webhooks.py:220-259 | each answer before the handling is equivalent to its cause: 500 in production without a secret, 400 for a bad signature or no JSON, success for other kinds |
| `StripeWebhooks.ResolvesInOrder` | app/billing/stripe_webhooks.py:128-180 | an event is about the accounts with its installation if there are any, else with its login, else with its customer id: none, the only one, or several |
| `StripeWebhooks.SubscriptionIsApplied` | app/billing/stripe_webhooks.py:385-441 | a new genuine subscription event makes its account premium if the live status is active or trialing, which a deletion never does, and free otherwise, and changes no other account |
| `StripeWebhooks.BodyIsApplied` | app/billing/stripe_webhooks.py:60-95 | outside production and without a key the event's own status decides in the same way |
| `StripeWebhooks.CheckoutIsApplied` | app/billing/stripe_webhooks.py:352-383 | a new genuine checkout stores its customer id with its account if that has none, is refused with 500 if another account has the id, and otherwise only claims its event |
| `StripeWebhooks.OthersAreAnswered` | app/billing/stripe_webhooks.py:258-352 | an event that matches no account or several, cannot be looked up, has no id or one already claimed, changes nothing and gets the answer for its cause |
| `StripeWebhooks.ResolvedExists` | app/billing/stripe_webhooks.py:128-180 | a matched account exists and carries the installation, login or customer id of the event |
| `RateLimit.PruningIsInvisible` | app/utils/ratelimit.py:68-98 | for a positive rate, every call of every sequence is answered as by a limiter that never prunes |
| `RateLimit.RateBound` | app/utils/ratelimit.py:33-49 | in any window of time, after any history, a caller is allowed at most a burst plus what accrues in the window |
| `RateLimit.RetryIsHonest` | app/utils/ratelimit.py:44-49 | waiting the announced seconds without calling gets the next call allowed if and only if the burst is at least one token; coming back more than a second early is refused |
| `RateLimit.RemainingIsExact` | app/utils/ratelimit.py:83-86 | the remaining count is how many more calls at the same moment are allowed |
| `RateLimit.NewCallerFindsFullBucket` | app/utils/ratelimit.py:76-86 | a caller without a bucket is allowed if and only if a full one holds a token, and is told the whole tokens left |
| `RateLimit.KnownCallerFindsRefill` | app/utils/ratelimit.py:33-42 | a call finds what was left and what accrued since, up to a full bucket, is allowed if and only if that is at least one token, and touches no other bucket |
| `RateLimit.WaitsAreTold` | app/utils/ratelimit.py:44-49 | a refused call is told the first whole number of seconds in which more than the missing part of a token accrues, or 60 when nothing accrues; an allowed one 0 |
| `RateLimit.PrunesWhenCrowded` | app/utils/ratelimit.py:76-98 | a new caller that finds ten thousand buckets removes exactly those idle for longer than a full refill; no other call removes any |
| `RateLimit.PruneKeepsLevels` | app/utils/ratelimit.py:88-98 | pruning changes nobody's level of tokens |
| `RateLimit.Bucket.Take` | app/utils/ratelimit.py:33-42 | refills, then takes one token exactly when there is one |
| `RateLimit.RateLimiter.Allow` | app/utils/ratelimit.py:68-86 | the objects' new state and the triple returned are those of the functions the theorems are about |
| `RateLimit.RateLimiter.PruneIdle` | app/utils/ratelimit.py:88-98 | the loop deletes exactly the buckets idle for longer than a full refill, and keeps the others |
| `StaleIssues.IssuesAreIsolated` | app/workflows/issuemanagement.py:54-66 | a failure on one issue leaves every other issue's calls and rows as they would be, and is counted once |
| `StaleIssues.ScanCalls` | app/workflows/issuemanagement.py:82-113 | the calls of a scan that succeeds: none for pull requests and exempt issues; assignees removed if and only if there are some and the activity is more than the unassigning period old; closing if and only if stale and idle for the closing period; marking if and only if not stale and idle for more than the stale period |
| `StaleIssues.ScanCounts` | app/workflows/issuemanagement.py:98-113 | and what it adds to each count |
| `StaleIssues.StaleScan.Run` | app/workflows/issuemanagement.py:49-68 | the loop over the listing, with commit or rollback per issue, ends in the state the isolation theorem describes |
| `StaleIssues.StaleScan.ScanIssue` | app/workflows/issuemanagement.py:70-113 | an issue's acts in order up to the first that raises, pull requests and exempt issues skipped, closing ending the scan of the issue |
| `StaleIssues.StaleScan.UnassignInactive` | app/workflows/issuemanagement.py:187-205 | removal, comment, log row and one audit row per assignee, in order, up to the act that raises |
| `StaleLifecycle.ClosedOnlyWhenIdle` | app/workflows/issuemanagement.py:98-107 | over scans and activity in any interleaving, an issue is closed only when the closing period has passed since its stale label and since all activity before the listing |
| `StaleLifecycle.ActsOnlyWhenIdle` | app/workflows/issuemanagement.py:98-113 | in every interleaving assignees are removed, all those listed, only when the listed activity is more than the unassigning period before the scan's start, the label added only when it is more than the stale period before and the label was absent, and neither happens to pull requests and exempt issues |
| `StaleLifecycle.LabelIsDated` | app/workflows/issuemanagement.py:110-113 | the date of the stale label in the theorem above is that of the event that put it on |
| `StaleLifecycle.ClosesIdleIffUntouched` | app/workflows/issuemanagement.py:45-68 | when the scan is shorter than the closing period, everyone else's activity is that old at the closing if and only if there was none since the listing |
| `StaleLifecycle.ActivityDuringScanIsMissed` | app/workflows/issuemanagement.py:45-68 | a concrete run that closes an issue touched between the listing and the closing |
| `StaleLifecycle.ClosedInTime` | app/workflows/issuemanagement.py:35-56 | an issue left alone is closed by a scan that starts before the deadline: inactivity, stale and closing periods plus three gaps and the time two scans take |
| `StaleLifecycle.ClosesIffNotSpared` | app/workflows/issuemanagement.py:80-113 | scans that reach the deadline close the issue if and only if it is no pull request, has no exempt label, and the stale label is not itself exempt |
| `StaleLifecycle.ScanProgresses` | app/config/schema.py:243-248 | with periods the schema accepts, a scan closes the issue or brings it no further from its deadline |
| `StaleLifecycle.ScannedIs` | app/workflows/issuemanagement.py:93-113 | what a scan that succeeds leaves of an issue, by labels and dates: unassigned, closed or marked each if and only if its own condition holds of the listed activity |
| `StaleLifecycle.LoneScan` | app/workflows/issuemanagement.py:45-113 | a scan nothing interleaves with, in the model of interleaved scans, ends as the schedule's does |
| `AccessSync.CompleteIsWhole` | app/auth/sync.py:46-69 | the ids are in the user's list, are all of it when said to be complete, which holds if and only if no page failed and there are fewer than a thousand |
| `AccessSync.FetchInstallationIds` | app/auth/sync.py:38-69 | the page loop collects the pages up to the first that fails or is not full |
| `AccessSync.SyncIsExact` | app/auth/sync.py:98-133 | after a complete read the authorized accounts are exactly the known ones in the list, after an incomplete one the old ones and those seen |
| `AccessSync.Grant` | app/auth/sync.py:112-122 | the loop authorizes the listed accounts and touches no other |
| `AccessSync.Revoke` | app/auth/sync.py:124-133 | the loop revokes exactly the earlier links to accounts not listed |
| `AccessSync.AccessStore.GetAuthorizedAccounts` | app/auth/sync.py:72-171 | the call's answer and new state, cached or synced |
| `AccessSync.CachedIff` | app/auth/sync.py:77-83 | a call is answered from the cache if and only if it is not forced and the entry is younger than five minutes, and else with the accounts the user's links authorize, which it caches |
| `AccessSync.DropsExpired` | app/auth/sync.py:28-31 | a call drops exactly the other users' entries older than ten minutes, and changes no other user's links |
| `AccessSync.SyncsWhenAnswered` | app/auth/sync.py:85-137 | without GitHub's answer the links stay as they are |
| `AccessRuns.AnswersAreRecent` | app/auth/sync.py:77-171 | however calls interleave, each is answered with what the user's links authorized at a moment less than five minutes before it began, or later; a forced one at a moment since it began |
| `AccessRuns.CommitIsExactIff` | app/auth/sync.py:97-133 | after a commit the authorized accounts are those of the call's list, or those loaded and those seen if it is incomplete, if and only if no other link changed since the call loaded them |
| `AccessRuns.CommitFailsIff` | app/auth/sync.py:111-135 | a commit fails if and only if a link it adds was added meanwhile, and then changes nothing |
| `AccessRuns.FailedSyncIsAnswered` | app/auth/sync.py:134-171 | a call whose sync fails changes no link and can go on to answer with the accounts the user's links authorize |
| `AccessRuns.ArrivesDecides` | app/auth/sync.py:77-83 | in runs too a call is answered at once if and only if it is not forced and finds an entry younger than five minutes |
| `AccessRuns.OlderListGrantsAgain` | app/auth/sync.py:95-133 | a concrete run in which an access revoked on a newer complete list is granted again by a call with an older one |
| `AccessRuns.LoneCall` | app/auth/sync.py:72-171 | a call nothing interleaves with answers, and leaves links and cache, as the sequential one |
| `PrHealth.CountApprovals` | app/workflows/prhealth.py:176-188 | the set loop ends with the reviewers, by folded login, whose last decision is an approval |
| `PrHealth.ApprovesIff` | app/workflows/prhealth.py:176-188 | a reviewer counts if and only if they approved and neither requested changes nor were dismissed later, case of the login aside |
| `PrHealth.AcceptedWeights` | app/config/schema.py:176-197 | weights are accepted exactly when no known one is negative and some known one is positive |
| `PrHealth.NormalisedWeights` | app/config/schema.py:176-197 | accepted weights keep their proportions and sum to one |
| `PrHealth.ComputeScore` | app/workflows/prhealth.py:200-209 | the loop computes the weighted sum, moved to the nearest of 0 and 100 when it is outside |
| `PrHealth.ScoreIsWeighted` | app/workflows/prhealth.py:203-208 | the sum is 100 points of each weight whose signal is full, two approvals among them, and 50 of each review weight with one approval |
| `PrHealth.HealthScore` | app/workflows/prhealth.py:200-209 | under accepted weights the score needs no clamping, never falls when a signal improves, and is 100 exactly when every positively weighted signal is full |

## Left out

- HTTP, OAuth, JWT and webhook signatures: an abstract answer, failure or truth value.
- Parsing of YAML, base64 and schemas: an arbitrary function from content to a configuration or an error.
- In the configuration loader a flight object is a number indexing a list that only grows, so the model does not capture object identity beyond that; the clock is read once in each stretch without suspension.
- `asyncio.Lock` is a first-come-first-served queue in which a waiting task is handed a free lock in a step of its own; the guarantees do not depend on when that step happens.
- The clock inside a token bucket never goes back, and floating-point tokens, rates, weights and scores are exact reals.
- Pruning with a rate of zero and an explicit burst, and any bound on the number of buckets: pruning does not promise them.
- The SQL database is PostgreSQL under READ COMMITTED: a statement sees what is committed, row locks and unique keys block until the other transaction ends, and a transaction commits or rolls back whole. SQLite, which ignores row locks, is not covered.
- Several Stripe subscriptions for one account: `StripeGuarantees.SettledTierConverges` is about accounts with one, as the handler itself assumes.
- Deleting an account, and the suspension that an installation webhook records; an installation webhook changes the account table in one step, without waiting for row locks.
- The handlers of `/assign`, mentor rotation and role notices are step machines on values, so the model does not capture the coroutine objects themselves.
- RoleNotices.AnnouncedOnce: a handler that fails between its comment and its commit allows one more notice, because the code records a notice only after posting it.
- Listings of open assignments that reach the paging cap of 5000: the count is then too small, and the limit on assignments is not guaranteed.
- Reads from GitHub that lag behind earlier writes, and more than one bot process.
- The account-age and CLA checks of `/assign` are one truth value in the run, the comments one step that may fail.
- The cache of measured stats, milestone celebrations, snapshots and recommendations.
- Equality of the stale scan's counts with its committed rows: a failure after an unassignment makes them differ.
- Deleting account links: others may add and change them while calls run, as `AccessRuns` says.
- Deleting or transferring an issue while `/assign` handles it, and deleting audit rows.
- Label escalation, welcome messages, the AI reviewer, regex checks, difflib suggestions, dashboards and the random reviewer strategy.
