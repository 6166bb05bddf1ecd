# KAATS behaviour, modelled and proved in Dafny

KAATS crawls web and SAP Fiori applications, turns requirements into test
scripts with a language model, exports those scripts, and runs approved test
bundles with evidence. This project models the parts of it that hold an
algorithm, a protocol or a state machine, and proves what they promise for
every input, every site, every history or every interleaving.

| file | what it models | main result |
|---|---|---|
| `WebCrawler.dfy` | the breadth-first web crawl | shortest distances, completeness, tree, prefix stability |
| `JobWorker.dfy` | AI jobs, workers, two stores, cancellation, redelivery, crashes | what holds at every crash point; the exact condition for a start time |
| `RowSecurity.dfy`, `Interleaving.dfy` | tenant sessions under the row-level policies, whole and statement by statement | other tenants' sessions can be deleted from a run unnoticed |
| `JwksCache.dfy` | the signing-key cache with its double-checked lock | one fetch at a time, current keys, refresh rate |
| `SlidingWindow.dfy` | request limiter and failed-login throttle | pruned lists decide as full histories do |
| `Gherkin.dfy`, `Text.dfy` | the Gherkin exporter up to its template | outline plus example row gives back the case |
| `SapCrawler.dfy` | the SAP Fiori crawl after sign-in | forest of pages, exact bounds per tile |
| `Explorer.dfy` | the legacy page explorer and its page table | upsert semantics, exact set of pages seen, nearer ones first |
| `Execution.dfy` | running a bundle, run report, traceability matrix | run, report and matrix agree |
| `AdminUsers.dfy` | user administration in the legacy application | an active administrator always remains |
| `Names.dfy` | file names, slugs, quoted literals | normal forms, round trip exactly when possible |

Code that updates fields in loops is a class whose methods are proved equal to
a function on states; the theorems are about that function. `Common.dfy` holds
the shared `Option`, `Distinct` and `Filter`.

## What the proofs found out about the code

- `create_generation_job` publishes the message before its row is committed. A
  worker can then miss the row, and from any state a job that is still to be
  committed can end FAILED without a start time. Once committed it can do so
  only while it has no start time and a worker is past its PROCESSING update.
- A job that was cancelled can still become PROCESSING, COMPLETED or FAILED,
  because the worker writes its status unconditionally. It stays cancelled
  exactly when its workers are done and its message is not delivered again. In
  the same way a crash strands a job: with its workers done and no delivery it
  stays PROCESSING.
- Script documents are named by the first eight characters of the requirement
  id. Rows keep their own documents exactly when the requirements of one job
  differ in these; otherwise the job can lose a document in one more delivery.
- The row-level policies filter reads and block inserts, but have no block after
  update: writing another tenant's id into a visible row goes through.
- `max_pages` of the SAP crawler bounds tiles; 16 pages per tile is reached.
- The Gherkin exporter's filter for shared preconditions compares them with
  rendered background lines, so shared preconditions are repeated in scenarios;
  a positive case whose title clashes with a data-driven one is dropped.
- `execute_bundle` raises exactly when its first step passes without being
  critical, and a later passing step gets the previous screenshot as evidence.
- The last-administrator guard of deactivation never stops the loss of an active
  administrator, since nobody can deactivate themselves: it only refuses to
  switch off someone who is already off.
- A failed user creation leaves a user without roles whose login is then taken.
- A base URL with a fragment makes the page explorer see nothing.
- A file name cut at 80 characters can end in an underscore, which a second
  application removes.

## Model

| member | source | states |
|---|---|---|
| WebCrawler.PagesAreVisitedOnce | backend/app/crawler/web_crawler.py:193-233 | even when a failed URL is tried again with another outcome: each visited URL is recorded once, with the links one of its visits showed, within filters and depth limit, and recorded depths never decrease |
| WebCrawler.PagesAtShortestDistance | backend/app/crawler/web_crawler.py:193-233 | for every site that answers each visit alike: each visited URL is recorded once, at its shortest distance from the seed through permitted, visitable pages, within the depth limit |
| WebCrawler.CompleteBelowLimit | backend/app/crawler/web_crawler.py:193-227 | on such a site a crawl that ends below the page limit has visited a URL if and only if some walk of at most `max_depth` links leads to it |
| WebCrawler.NearerPagesComeFirst | backend/app/crawler/web_crawler.py:193-233 | on such a site even a crawl stopped by the page limit has visited everything strictly nearer than its last page |
| WebCrawler.FlowGraphIsTree | backend/app/crawler/web_crawler.py:209-217 | whatever visits do: edges are pages minus one; every later page is the target of exactly one edge, along a link found on an earlier page one level up; the root is the seed |
| WebCrawler.FirstPageIsSeed | backend/app/crawler/web_crawler.py:191-209 | the first recorded page, if any, is the target without its fragment, at depth 0 |
| WebCrawler.PagesAreCanonical | backend/app/crawler/web_crawler.py:193-233 | every recorded URL has a scheme and no fragment, is permitted by patterns and host, and lies within the depth limit; no two recorded URLs are the same up to the fragment |
| WebCrawler.TargetIsVisited | backend/app/crawler/web_crawler.py:191-227 | on a site that answers alike, below the page limit, the target without its fragment is visited if it is permitted and can be visited |
| WebCrawler.LinkIsVisited | backend/app/crawler/web_crawler.py:222-227 | so is, without its fragment, every link with a scheme that a recorded page above the depth limit shows |
| WebCrawler.EdgeFollowsLink | backend/app/crawler/web_crawler.py:211-217 | edge i enters page i + 1 from an earlier page one level up that shows a link to it, up to the fragment |
| WebCrawler.Turn | backend/app/crawler/web_crawler.py:194-233 | one turn in full: the URL without its fragment is passed over, fails and is counted, or is recorded with its edge and its links queued |
| WebCrawler.NewEntriesAre | backend/app/crawler/web_crawler.py:224-227 | what is queued are the links not yet visited, in the order of the page, repeated ones too |
| WebCrawler.PermittedIff | backend/app/crawler/web_crawler.py:502-520 | a URL passes exactly when no exclude pattern matches it, its host is the target's if it must be, and some include pattern matches it if there are any |
| WebCrawler.SmallerLimitGivesPrefix | backend/app/crawler/web_crawler.py:193 | whatever visits do, a smaller `max_pages` gives a prefix of the pages and of the edges |
| WebCrawler.RunExtends | backend/app/crawler/web_crawler.py:193-227 | pages and edges are only ever appended |
| WebCrawler.StepKeepsBasic | backend/app/crawler/web_crawler.py:193-233 | one turn of the loop, whatever its visit does, keeps: pages listed once in order of depth, queue depths spanning at most two adjacent values, and the tree |
| WebCrawler.StepKeepsInv | backend/app/crawler/web_crawler.py:193-233 | on a site that answers alike it also keeps pages at true distance and nothing reachable forgotten |
| WebCrawler.RunKeepsInv | backend/app/crawler/web_crawler.py:193-233 | the same over the whole loop, which ends with an empty queue or at the page limit |
| WebCrawler.NearerVisited | backend/app/crawler/web_crawler.py:193-233 | at any time every page nearer than the head of the queue has been visited |
| WebCrawler.StepDecreases | backend/app/crawler/web_crawler.py:193-233 | pages left, then queue length, decrease at every turn although failed URLs are tried again |
| WebCrawler.ScanPatterns | backend/app/crawler/web_crawler.py:502-520 | the pattern scan answers yes exactly when some valid pattern matches |
| WebCrawler.WebUICrawler.Wanted | backend/app/crawler/web_crawler.py:196-207 | a dequeued URL is visited exactly when it is non-empty, new, within depth and passes all three filters |
| WebCrawler.WebUICrawler.Enqueue | backend/app/crawler/web_crawler.py:224-227 | appends one entry per link not visited yet, in page order |
| WebCrawler.WebUICrawler.VisitNext | backend/app/crawler/web_crawler.py:194-233 | one turn of the loop does what the state function says, with success and failure |
| WebCrawler.WebUICrawler.Crawl | backend/app/crawler/web_crawler.py:191-233 | the crawl ends in the state the theorems speak about |
| JobWorker.ProcessedHasScript | backend/app/worker/service_bus_worker.py:207-316 | at every crash point of any interleaving, a processed requirement has a script row whose stored document belongs to that row's job |
| JobWorker.IndexedScriptsAreProcessed | backend/app/worker/service_bus_worker.py:207-337 | the other way round: at every crash point, each script that a generation index lists has a row of that index's job whose requirement is processed |
| JobWorker.GoingOnMarks | backend/app/worker/service_bus_worker.py:316 | whichever step takes a worker from a created row to its next requirement, the one it leaves is processed if it is stored, and no other is touched |
| JobWorker.RowsHaveDocuments | backend/app/worker/service_bus_worker.py:378-446 | every script row points at a stored script document of its job, for a requirement with the same eight-character prefix |
| JobWorker.OwnDocumentsIff | backend/app/worker/service_bus_worker.py:352-446 | from any reachable state, however things go on, every row of a job points at its own requirement's document if and only if the stored requirements that the job asks for have distinct eight-character prefixes |
| JobWorker.RowHasOwnDocument | backend/app/worker/service_bus_worker.py:378-446 | with such distinct prefixes every row of the job points at its own requirement's document; other jobs may share prefixes |
| JobWorker.SharedPrefixLosesDocument | backend/app/worker/service_bus_worker.py:393-411 | for any two of a job's requirements with the same prefix, one more delivery of its message can leave the first one's row pointing at the second one's document |
| JobWorker.ScriptDocIdClash | backend/app/worker/service_bus_worker.py:393 | two script document ids are equal exactly when job and prefix are |
| JobWorker.IndexIdsDiffer | backend/app/worker/service_bus_worker.py:322 | index ids are never script ids and identify their job |
| JobWorker.ResultsExist | backend/app/worker/service_bus_worker.py:320-337 | every generation index lists only stored script documents of its job; a completed job has a result, and every result is a stored index of that job |
| JobWorker.Lifecycle | backend/app/worker/service_bus_worker.py:112-134 | `completed_at` is set exactly when the status is COMPLETED, FAILED or CANCELLED; PROCESSING implies `started_at` |
| JobWorker.FinishesUnstartedIff | backend/app/worker/service_bus_worker.py:120-134 | from any state some continuation leaves a job COMPLETED or FAILED without `started_at` if and only if its row is still to be committed, or has no start time while the job has so finished or some worker of it is past its PROCESSING update and not done |
| JobWorker.StaysCancelledIff | backend/app/worker/service_bus_worker.py:112-134 | without a further delivery of its message a cancelled job stays CANCELLED however things go on, if and only if no worker of it has anything left to do |
| JobWorker.DeliveryRevives | backend/app/worker/service_bus_worker.py:112-142 | a further delivery of its message can make any job, a cancelled one too, PROCESSING and FAILED |
| JobWorker.CanCompleteIff | backend/app/worker/service_bus_worker.py:136-350 | from any reachable state a job of any status can still become COMPLETED if and only if it asks for some stored requirement |
| JobWorker.StrandedIff | backend/app/worker/service_bus_worker.py:112-142 | a PROCESSING job whose message is not delivered again and that nobody cancels can still become COMPLETED or FAILED if and only if some worker of it is not done; otherwise its row never changes |
| JobWorker.CrashesStrand | backend/app/worker/service_bus_worker.py:136-142 | from any state crashes alone leave every worker of a job done and the job as it was |
| JobWorker.PromptJobsAreStarted | backend/app/worker/service_bus_worker.py:124-134 | if every PROCESSING update finds its row, COMPLETED and FAILED jobs have `started_at` |
| JobWorker.CanMissRow | backend/app/services/ai_generation_service.py:40-57 | publishing comes before the commit: from any state a job still to be committed can end up committed without start time and with a worker past its PROCESSING update |
| JobWorker.WorkersArePublished | backend/app/services/ai_generation_service.py:40-57 | every job being worked on, and every committed job, was published |
| JobWorker.RunKeepsInv | backend/app/worker/service_bus_worker.py:136-350 | the invariant over documents, rows, requirements, workers and jobs holds after every step of creation, cancellation, delivery, redelivery, exception and crash |
| JobWorker.Handler.UpdateJobStatus | backend/app/worker/service_bus_worker.py:112-134 | the job row's new status, times, result and error, field by field; other jobs stay, and nothing happens when the row is missing |
| JobWorker.Handler.StoreTestScript | backend/app/worker/service_bus_worker.py:378-412 | writes the document under the id it returns; rows, flags and jobs stay; one protocol step |
| JobWorker.Handler.CreateTestScriptRow | backend/app/worker/service_bus_worker.py:414-446 | adds exactly one row, for the document; documents, flags and jobs stay; one protocol step |
| JobWorker.Handler.MarkRequirementProcessed | backend/app/worker/service_bus_worker.py:448-459 | the requirement is processed afterwards if it is stored; every other keeps its flag, documents, rows and jobs stay; one protocol step |
| JobWorker.Handler.StoreScript | backend/app/worker/service_bus_worker.py:273-316 | document, row and status in this order, stopping where one raises |
| JobWorker.TreatOne | backend/app/worker/service_bus_worker.py:273-316 | document, row and mark of one requirement, by how it fares: an exception leaves exactly what was written before it |
| JobWorker.Handler.GenerateOne | backend/app/worker/service_bus_worker.py:207-316 | the body of the loop: skips, raises, or stores and marks |
| JobWorker.Handler.GenerateAll | backend/app/worker/service_bus_worker.py:207-316 | the loop raises exactly when some requirement's outcome does; otherwise it collects the ids of the generated scripts in order; documents, rows and flags are what the requirements up to the first exception leave |
| JobWorker.TreatedAre | backend/app/worker/service_bus_worker.py:207-316 | a loop that does not raise adds one row per generated requirement and leaves a requirement processed exactly when it was so or was generated |
| JobWorker.ScriptIdAt | backend/app/worker/service_bus_worker.py:207-316 | the id of a generated requirement stands in the list at the number of those generated before it |
| JobWorker.Handler.TryJob | backend/app/worker/service_bus_worker.py:145-337 | the guarded part completes the job with an index listing exactly the generated scripts, reports an empty query as failure, or raises |
| JobWorker.Handler.HandleAiJob | backend/app/worker/service_bus_worker.py:136-350 | one handling is a run of the protocol; when it raises, what fields it leaves in the job's row, and on a normal return one row per generated requirement, exactly the generated requirements newly processed, and an index of their scripts |
| JobWorker.Handler.StoreResult | backend/app/worker/service_bus_worker.py:320-337 | index first, then completion pointing at it |
| JobWorker.Handler.CancelJob | backend/app/services/ai_generation_service.py:80-91 | unknown jobs are not found, finished ones refused, and any other becomes CANCELLED with a completion time |
| Interleaving.InterleavedTenantsDoNotInterfere | backend/migrations/versions/001_initial_schema.py:564-606 | for every run of tenant-scoped sessions that interleave statement by statement, without the steps of the other tenants' sessions the run is still possible and a tenant gets the same answers, given keys nobody else inserts and no update that moves a row to or from that tenant |
| Interleaving.AloneAsWhole | backend/app/database.py:92-103 | a session that runs alone, step by step, is answered and leaves the rows as the session does that runs as a whole |
| Interleaving.StepKeepsInv | backend/migrations/versions/001_initial_schema.py:564-606 | every step keeps uncommitted changes of a tenant on its own or new rows, those of others off them, and those of two sessions apart |
| Interleaving.SeesOwnChanges | backend/app/database.py:92-103 | what a session sees after its statement is what the statement made |
| Interleaving.RaisedSessionRollsBack | backend/app/database.py:92-103 | in every run the next step of a session whose statement has raised is to roll back |
| Interleaving.FailedRollsBack | backend/app/database.py:92-103 | such a session can take no other step, and nothing of it remains |
| Interleaving.OnlyCommitsChangeRows | backend/app/database.py:92-103 | only a commit changes the rows that others see, and only by its own changes |
| Interleaving.WaitsOnlyForWriters | backend/app/database.py:92-103 | sessions overlap freely: a statement waits only for another open session that has written a row it would write |
| RowSecurity.TenantsDoNotInterfere | backend/migrations/versions/001_initial_schema.py:564-606 | the same for sessions that run one after another, with their rollbacks |
| RowSecurity.OtherLeavesView | backend/migrations/versions/001_initial_schema.py:564-606 | a statement of another tenant leaves a tenant's rows as they are |
| RowSecurity.OwnStep | backend/migrations/versions/001_initial_schema.py:564-606 | on databases that look alike to a tenant its statement is answered alike and they still look alike |
| RowSecurity.OwnEffect | backend/migrations/versions/001_initial_schema.py:564-606 | a tenant's statement acts on its rows as on a database of its own |
| RowSecurity.UpdateLeavesViewIff | backend/migrations/versions/001_initial_schema.py:595-606 | an update by another tenant leaves a tenant's rows alone exactly when it does not write that tenant's id into some row: there is no block after update |
| RowSecurity.ClashingKeyInterferes | backend/migrations/versions/001_initial_schema.py:595-606 | a key taken by another tenant is noticed, so the theorem needs unshared keys |
| RowSecurity.UnscopedInsertReaches | backend/migrations/versions/001_initial_schema.py:564-573 | a session without tenant context reaches a tenant's rows exactly by an insert for that tenant; a scoped one never does |
| RowSecurity.PolicyTables | backend/migrations/versions/001_initial_schema.py:578-606 | each table of the migration's list is under a policy |
| RowSecurity.SelectReturns | backend/migrations/versions/001_initial_schema.py:564-606 | a select returns exactly the rows of its table within the session's reach that it asks for, unchanged |
| RowSecurity.InsertAdds | backend/migrations/versions/001_initial_schema.py:595-606 | an insert is a duplicate, is blocked, or adds exactly its row, and when which |
| RowSecurity.UpdateChanges | backend/migrations/versions/001_initial_schema.py:595-606 | an update changes exactly the rows of its table within reach that it asks for, and counts them |
| RowSecurity.DeleteRemoves | backend/migrations/versions/001_initial_schema.py:595-606 | a delete removes exactly the rows of its table within reach that it asks for, and counts them |
| RowSecurity.SessionIsAtomic | backend/app/database.py:92-103 | statements act one after the other up to the first that raises; then all of them take effect or none does |
| RowSecurity.Database.TenantSession | backend/app/database.py:84-103 | a session runs its statements as its tenant up to the first that raises, and commits or rolls back as a whole |
| JwksCache.OneFetchAtATime | backend/app/auth/azure_ad.py:165-175 | in every interleaving at most one refresh is in flight, the lock is held exactly then, a waiting caller can always go on, and a refresh holds up neither new calls nor the clock |
| JwksCache.ReturnedKeyIsCurrent | backend/app/auth/azure_ad.py:165-185 | every returned key comes from the most recently completed refresh and is at most one TTL old |
| JwksCache.CallOutcome | backend/app/auth/azure_ad.py:159-175 | a call for a kid that the newest document holds, within one TTL of its fetch, returns that key at once; any other call asks for the lock |
| JwksCache.AcquireOutcome | backend/app/auth/azure_ad.py:167-175 | under the lock the newest document answers if it now holds the kid in time, and otherwise the caller fetches |
| JwksCache.FetchedOutcome | backend/app/auth/azure_ad.py:177-185 | a completed fetch releases the lock and answers its caller from its own document |
| JwksCache.RaisesOnlyAfterOwnFetch | backend/app/auth/azure_ad.py:159-185 | in every run a caller raises only because its own fetch failed, or because a document it fetched after its call began lacks its kid |
| JwksCache.RefreshOnlyWhenDue | backend/app/auth/azure_ad.py:159-175 | of completed refreshes the next one starts more than one TTL later, or for a kid the last document lacked |
| JwksCache.FetchOnlyWhenDue | backend/app/auth/azure_ad.py:159-175 | the same for a refresh in flight, whether it will succeed or fail |
| JwksCache.RefreshRate | backend/app/auth/azure_ad.py:159-175 | if every document serves every requested kid, n further refreshes take more than n TTLs, whichever fetches fail |
| JwksCache.RunKeepsInv | backend/app/auth/azure_ad.py:152-185 | lock, cache, log and returned keys stay consistent after every step |
| JwksCache.LastKeyWins | backend/app/auth/azure_ad.py:183 | of repeated kids in a document the last one is kept |
| JwksCache.Cacher.GetKey | backend/app/auth/azure_ad.py:165-175 | the stretch up to the first await is the protocol's call step |
| JwksCache.Cacher.LockGranted | backend/app/auth/azure_ad.py:167-175 | the second check under the lock is the protocol's acquire step |
| JwksCache.Cacher.Refreshed | backend/app/auth/azure_ad.py:177-185 | a completed fetch replaces keys and time and releases the lock |
| JwksCache.Cacher.RefreshRaised | backend/app/auth/azure_ad.py:177-181 | a failed fetch changes only the lock |
| SlidingWindow.PruneTwice | backend/app/dependencies.py:75-76 | pruning early loses nothing that a later look would still see |
| SlidingWindow.WindowIsRecent | backend/app/dependencies.py:75-76 | any window that now falls into is covered by the times kept |
| RateLimiter.AcceptedIffRoom | backend/app/dependencies.py:65-85 | a request is accepted exactly when fewer than the limit were accepted for its key less than 60 seconds before, counted over the whole history |
| RateLimiter.NeverOverLimit | backend/app/dependencies.py:65-85 | no half-open 60-second interval holds more accepted requests of a key than its limit |
| RateLimiter.KeysAreIndependent | backend/app/dependencies.py:65-85 | the requests of a key are decided as if they were the only ones |
| RateLimiter.ServeAgrees | backend/app/dependencies.py:72-85 | the pruned list answers from now on as the unpruned history does |
| RateLimiter.Limiter.CheckRateLimit | backend/app/dependencies.py:65-85 | the call prunes, then refuses or accepts and appends, as the decision function says |
| AuthThrottle.BlocksAsFullHistory | backend/app/middleware/rbac.py:188-201 | for every history the pruned tracker blocks exactly when at least the maximum of failures lie within the window with no clear of that address after them |
| AuthThrottle.TrackAgrees | backend/app/middleware/rbac.py:188-201 | the tracker's list agrees with the failures since the last clear at all later times |
| AuthThrottle.FailedAuthThrottle.RecordFailure | backend/app/middleware/rbac.py:188-193 | extends the history by a failure and keeps the lists those of the history |
| AuthThrottle.FailedAuthThrottle.IsBlocked | backend/app/middleware/rbac.py:195-198 | answers by the full history |
| AuthThrottle.FailedAuthThrottle.Clear | backend/app/middleware/rbac.py:200-201 | extends the history by a clear |
| Gherkin.OutlineReproducesIff | backend/app/exporters/gherkin_exporter.py:83-156 | whatever the shapes, the template with a case's example row in place of the placeholders is the plain rendering of that case if and only if they have as many steps and each filled-in step has the case's keyword and text |
| Gherkin.OutlineReproducesCase | backend/app/exporters/gherkin_exporter.py:83-156 | for cases of the template's shape, the template with a case's example row in place of the placeholders is the plain rendering of that case, if and only if there is at most one assertion and it is not first |
| Gherkin.SubstituteLine | backend/app/exporters/gherkin_exporter.py:123-138 | substituting a row into one template line gives that step with the row's texts |
| Gherkin.KeywordsAgreeIff | backend/app/exporters/gherkin_exporter.py:88-138 | template keywords and plain keywords agree exactly when at most one assertion stands and not first |
| Gherkin.OutlineTextOfInput | backend/app/exporters/gherkin_exporter.py:125-128 | cutting out an input value leaves the step with a placeholder exactly when the value is not also the field's name |
| Gherkin.OutlineTextOfExpected | backend/app/exporters/gherkin_exporter.py:129-130 | cutting out an expected text leaves the step with a placeholder |
| Gherkin.InstantiatedLine | backend/app/exporters/gherkin_exporter.py:123-138 | substitution keeps a line's keyword |
| Gherkin.StepsToGherkinLines | backend/app/exporters/gherkin_exporter.py:83-101 | the loop with its flags gives each step its position-determined keyword |
| Gherkin.PlainLinesRead | backend/app/exporters/gherkin_exporter.py:83-101 | line i is eight blanks, the keyword and the step: Then for the first assertion, Given or When for another first step, And otherwise |
| Gherkin.OutlineLinesRead | backend/app/exporters/gherkin_exporter.py:123-138 | the same for the template, where every assertion but a first step reads Then |
| Gherkin.OutlineTextReads | backend/app/exporters/gherkin_exporter.py:123-130 | what a template step reads: the quoted value or expected text replaced by its placeholder |
| Gherkin.BuildOutlineSteps | backend/app/exporters/gherkin_exporter.py:109-156 | template lines from the first case and one row per case, or nothing when the first case has no input |
| Gherkin.BuildRow | backend/app/exporters/gherkin_exporter.py:146-154 | a row holds the last input and the last expected text of its case, or the stand-ins |
| Gherkin.RowInputReads | backend/app/exporters/gherkin_exporter.py:146-152 | the input of a row is the last non-empty value entered in its case, or empty when there is none |
| Gherkin.RowExpectedReads | backend/app/exporters/gherkin_exporter.py:146-153 | the expected text is the last non-empty one asserted, or the case's expected outcome, or "success" |
| Gherkin.Export | backend/app/exporters/gherkin_exporter.py:225-288 | the scenario and outline lists, with and without an outline |
| Gherkin.CasesAreSplit | backend/app/exporters/gherkin_exporter.py:244-245 | each positive case becomes a scenario and each boundary or negative case a data-driven one, in the order given |
| Gherkin.HasOutlineIff | backend/app/exporters/gherkin_exporter.py:276-278 | there is an outline exactly with two data-driven cases, the first of which enters a value |
| Gherkin.PositiveScenarioReads | backend/app/exporters/gherkin_exporter.py:248-261 | a positive case keeps title and description, its own preconditions stand first and in order, then its steps |
| Gherkin.DataScenarioReads | backend/app/exporters/gherkin_exporter.py:264-272 | a data-driven case carries its type in the title and has its steps alone |
| Gherkin.BackgroundReads | backend/app/exporters/gherkin_exporter.py:236-241 | the background holds exactly the lines of the preconditions that every case has |
| Gherkin.DropTaken | backend/app/exporters/gherkin_exporter.py:287-288 | one pass per data-driven case removes exactly the scenarios with a title the outline takes over |
| Gherkin.KeptScenarios | backend/app/exporters/gherkin_exporter.py:244-288 | with an outline no data-driven case is also a scenario, and a positive case stays exactly when its title is not taken |
| Gherkin.SharedPreconditionIsRepeated | backend/app/exporters/gherkin_exporter.py:235-254 | a scenario leaves out a precondition exactly when it spells the rendered line of one that every case has; shared ones that do not start with a blank are repeated |
| Text.ReplaceTwoQuoted | backend/app/exporters/gherkin_exporter.py:125-130 | replacing a quoted text in a line with two quoted texts changes the second one only if it is the same |
| Text.ReplaceQuoted | backend/app/exporters/gherkin_exporter.py:125-130 | replacement looks at one quoted stretch at a time |
| SapCrawler.RunIsForest | backend/app/crawler/sap_fiori_crawler.py:231-254 | in every run edge i leads to page i + 1, from the launchpad at depth 1 or from an earlier page one level up |
| SapCrawler.PagesPerTile | backend/app/crawler/sap_fiori_crawler.py:231-254 | at most `max_pages` - 1 tiles are explored, bringing at most 16 pages each, or 4 if going back never fails |
| SapCrawler.RunBoundsAreReached | backend/app/crawler/sap_fiori_crawler.py:231-254 | for every page limit both bounds of a whole run are reached, by apps whose detail and form pages have other URLs than their lists |
| SapCrawler.SixteenViews | backend/app/crawler/sap_fiori_crawler.py:542-751 | one such app reaches the bound of 16 |
| SapCrawler.TileViewsBelow | backend/app/crawler/sap_fiori_crawler.py:542-751 | one explored tile yields 1 to 16 pages that all hang below the launchpad |
| SapCrawler.RunViewsBelow | backend/app/crawler/sap_fiori_crawler.py:231-254 | the same bounds, times the explored tiles, for a whole run |
| SapCrawler.ExploresUpToLimit | backend/app/crawler/sap_fiori_crawler.py:236-243 | exactly the first tiles that do not raise are explored, up to the limit |
| SapCrawler.TilesClicked | backend/app/crawler/sap_fiori_crawler.py:231-254 | a run clicks the least number of tiles by which `max_pages` - 1 apps have opened, or all: each that raises is one error, and pages and edges are those of the others in order |
| SapCrawler.RowsInTurn | backend/app/crawler/sap_fiori_crawler.py:629-666 | rows are tried in turn until a click stays on the list or going back works; an exception ends only its own attempt |
| SapCrawler.OneRow | backend/app/crawler/sap_fiori_crawler.py:629-666 | a row yields its detail page and what the edit form yields; no row, an exception or a click that stays yield nothing |
| SapCrawler.FormsInTurn | backend/app/crawler/sap_fiori_crawler.py:678-707 | the same for the labels of the create button |
| SapCrawler.EditViewsAre | backend/app/crawler/sap_fiori_crawler.py:719-749 | exactly the first edit label that opens a form counts |
| SapCrawler.SAPFioriCrawler.ExploreEditForm | backend/app/crawler/sap_fiori_crawler.py:711-751 | the first label that opens a form yields one page and one edge |
| SapCrawler.SAPFioriCrawler.ExploreListDetail | backend/app/crawler/sap_fiori_crawler.py:621-668 | pages and edges of the row attempts, going on when an attempt raises |
| SapCrawler.SAPFioriCrawler.ExploreCreateForm | backend/app/crawler/sap_fiori_crawler.py:670-709 | pages and edges of the create attempts |
| SapCrawler.SAPFioriCrawler.ExploreTileApp | backend/app/crawler/sap_fiori_crawler.py:542-619 | a tile raises before anything is recorded, or records its views |
| SapCrawler.SAPFioriCrawler.Crawl | backend/app/crawler/sap_fiori_crawler.py:231-254 | pages, edges and error count of a whole run over the tile groups |
| Explorer.SeesAllReachable | app/worker/tasks.py:47-90 | a run that returns below `max_pages` has seen a page if and only if wanted links lead to it |
| Explorer.NearerPagesAreSeen | app/worker/tasks.py:47-90 | in every run, cut short by the limit or an exception or not, a page is seen only after every wanted page that is fewer links away |
| Explorer.SeenPagesAreWanted | app/worker/tasks.py:32-55 | no more pages are seen than `max_pages`; each starts with the base URL and holds neither a fragment nor any of the five excluded words |
| Explorer.LinkedPageIsSeen | app/worker/tasks.py:86-90 | in a run that returns below the limit, what a link of a seen page names before its fragment is seen, if it is below the base URL and holds no excluded word |
| Explorer.Turn | app/worker/tasks.py:51-90 | one turn takes the head of the queue without its fragment, passes it over or visits it, and queues its wanted links at the end |
| Explorer.WantedInOrder | app/worker/tasks.py:86-90 | links are queued in the order of the page |
| Explorer.ExploreUpdatesSeenPages | app/worker/tasks.py:47-139 | one run keeps one row per page, leaves unseen pages and other applications alone, and leaves on each page it saw what its visit commits: exactly the latest title, hash and elements, except on at most one page, whose visit made the run raise |
| Explorer.LatestRunIsStored | app/worker/tasks.py:47-139 | over any sequence of runs a page holds what the last run that saw it left there, which is that run's title, hash and elements unless that very visit raised |
| Explorer.UnseenPageStays | app/worker/tasks.py:47-139 | over any sequence of runs a page keeps what is stored for it while no run sees it |
| Explorer.RunsKeepRowsUnique | app/worker/tasks.py:68-80 | over any sequence of runs there is one row per application and URL, and applications without a run keep theirs |
| Explorer.SeesSomethingIff | app/worker/tasks.py:34-54 | a run sees anything exactly when the base URL passes its own test, which one with a fragment never does |
| Explorer.PutStores | app/worker/tasks.py:68-80 | an upsert stores its row, keeps rows unique and leaves every other page |
| Explorer.SaveStores | app/worker/tasks.py:68-139 | the commits of one page touch that page only and leave, by how far they get: nothing new; a new title and hash over the old elements; no elements; everything new |
| Explorer.LeftReads | app/worker/tasks.py:73-139 | what each way a visit can end leaves: title and hash of the visit, and the old elements, none, or the first 400 of the visit |
| Explorer.StepLosesNothing | app/worker/tasks.py:51-90 | no wanted link of a seen page is ever lost from seen and queue |
| Explorer.PageStore.Upsert | app/worker/tasks.py:68-80 | overwrites the row found, or appends one |
| Explorer.PageStore.SavePage | app/worker/tasks.py:63-139 | upsert, delete elements, insert at most 400, as far as the visit gets |
| Explorer.PageStore.ExploreApp | app/worker/tasks.py:47-139 | rows, pages seen and exception of a run |
| Execution.RunReportAndMatrixAgree | app/worker/tasks.py:266-311 | for a run that returns: failed if and only if the report counts a failure, if and only if the matrix shows a FAIL row, if and only if some step failed; no row lacks a result |
| Execution.RaisesIff | app/worker/tasks.py:267-304 | the run raises exactly when its first step passes without being critical |
| Execution.OneResultPerStep | app/worker/tasks.py:267-301 | a run that returns stored one result per step, in order, with that step's status |
| Execution.EvidenceIsLastShot | app/worker/tasks.py:278-304 | a result of a run that returns has evidence exactly when the latest step up to it that is critical or failed yielded a screenshot, and then with that step's test, index, failure flag and digest |
| Execution.EvidenceInOrder | app/worker/tasks.py:303-305 | evidence is stored in the order of the results, at most one to each |
| Execution.HeldIsLastAttempt | app/worker/tasks.py:282-297 | what the two variables hold is what the latest attempt left |
| Execution.LastAttemptExists | app/worker/tasks.py:282-297 | in a run that returns every step has such an attempt at or before it |
| Execution.RtmRowCount | app/rtm.py:17-38 | the matrix has, for each test, its steps times its requirements, at least once |
| Execution.RowReportsStep | app/rtm.py:22-37 | each row reports the outcome of its own step |
| Execution.RowShowsLastShot | app/rtm.py:27-37 | each row shows the screenshot of the latest attempt up to its step |
| Execution.MatrixRow | app/rtm.py:18-38 | row by row, by test, requirement and step: each names all three, or "(unmapped)", reports its own step and shows the latest step up to it that is critical or failed |
| Execution.FailsPositiveIff | app/reporting.py:32-34 | the fail count is positive exactly when a result failed |
| Execution.FailsIsCount | app/reporting.py:33 | the fail count is the number of results that are FAIL |
| Execution.ReportCounts | app/reporting.py:32-34 | total, passes and fails of the report add up |
| Execution.BundleRun.ExecuteStep | app/worker/tasks.py:276-305 | one step stores its result, then evidence if a screenshot is held |
| Execution.BundleRun.ExecuteBundle | app/worker/tasks.py:253-311 | results, evidence and status of a run; a run that raises stays RUNNING |
| Execution.BuildRtm | app/rtm.py:17-38 | the three nested loops build the rows the theorems speak about |
| AdminUsers.AnAdminRemains | app/routes/ui.py:687-809 | from any state with an active administrator, every sequence of create, activate, deactivate and role requests by any sessions keeps the table keys and at least one active administrator |
| AdminUsers.CountIsAdmins | app/routes/ui.py:54-61 | under the table keys the joined row count is the number of distinct active administrators |
| AdminUsers.RequestChangesAdmins | app/routes/ui.py:687-809 | a request that goes through changes the set of active administrators as it says; any other leaves it |
| AdminUsers.RolesAfter | app/routes/ui.py:687-809 | for every role and every user: after a request that goes through, the target of a creation or role change holds it exactly when it was named, and everyone else exactly when they did before |
| AdminUsers.RowsAfter | app/routes/ui.py:687-809 | user rows change in the target's active flag or by the new user alone, and link rows of other users never |
| AdminUsers.OnlyAdminsAreServed | app/routes/ui.py:41-52 | a request is served if and only if the session belongs to an active administrator; otherwise nothing changes |
| AdminUsers.ActorIs | app/routes/ui.py:41-46 | the user of a session is the active one with its login |
| AdminUsers.GoesThroughIff | app/routes/ui.py:687-809 | a request goes through exactly when an active administrator asks for something that the tables and the names allow |
| AdminUsers.RefusedBecause | app/routes/ui.py:687-809 | what each refusal before the role look-up means |
| AdminUsers.BadNameReply | app/routes/ui.py:708-715 | the first name that no stored role has decides: an unknown one raises, a known one is answered, and no link row is changed |
| AdminUsers.HandleKeepsKeys | app/models.py:17-39 | every request keeps primary, unique and foreign keys |
| AdminUsers.DeactivateRefusedIff | app/routes/ui.py:727-733 | deactivation is refused as taking the last administrator exactly when the only active one asks for an administrator who is already off |
| AdminUsers.UpdateRefusedIff | app/routes/ui.py:794-797 | a role change is refused so exactly when the only active administrator takes the role from themselves or from someone who is off |
| AdminUsers.CreateIsAllOrRoleless | app/routes/ui.py:698-717 | creation goes through exactly when every name is a stored role and none is repeated; otherwise the user stays without roles and the login is taken |
| AdminUsers.AssignedRoles | app/routes/ui.py:799-807 | after a committed role loop a user holds any given role exactly when the names say so; others are as the kept rows say |
| AdminUsers.AdminPages.AssignRoles | app/routes/ui.py:708-715 | the loop over names and its commit: stored as a whole, or not at all |
| AdminUsers.AdminPages.CreateUser | app/routes/ui.py:687-717 | new tables and reply of a create request |
| AdminUsers.AdminPages.DeactivateUser | app/routes/ui.py:719-738 | new tables and reply of a deactivation |
| AdminUsers.AdminPages.ActivateUser | app/routes/ui.py:740-755 | new tables and reply of an activation |
| AdminUsers.AdminPages.ChangeRoles | app/routes/ui.py:777-809 | new tables and reply of a role change |
| Names.SafeNameIsTidy | backend/app/services/export_service.py:392-397 | a file name is the words of the title joined by single underscores and cut: 1 to 80 word characters, no leading or doubled underscore |
| Names.NameJoinsWords | backend/app/services/export_service.py:392-397 | a file name is the words of the title joined by single underscores, cut to 80 characters, or "test_script" |
| Names.NamePartsAtSeparator | backend/app/services/export_service.py:395-396 | words are parted by blanks, underscores and hyphens |
| Names.NameIgnores | backend/app/services/export_service.py:395 | any other character that is not a word character is as if it were not there |
| Names.NameOfOneWord | backend/app/services/export_service.py:395-396 | a run of word characters without underscore is one word |
| Names.SafeNameSettles | backend/app/services/export_service.py:392-397 | the second application changes a name exactly when the cut left an underscore at its end; the third never does |
| Names.NameKeepsLetters | backend/app/services/export_service.py:395-396 | before the cut a name has exactly the letters of the title, in order |
| Names.CollapsedText | backend/app/services/export_service.py:396 | collapsing and stripping a text joins its maximal separator-free stretches |
| Names.SlugsAreFixed | backend/app/exporters/base.py:103-106 | the slugs are exactly the texts that slugifying leaves alone; slugifying twice is slugifying once |
| Names.SlugifyMakesSlugs | backend/app/exporters/base.py:103-106 | a slug is non-empty, lower-case word characters, with no underscore at either end |
| Names.SlugJoinsWords | backend/app/exporters/base.py:103-106 | a slug is the words of the text joined by single underscores, without underscores at either end, or "test" |
| Names.SlugPartsAtBlank | backend/app/exporters/base.py:105-106 | words are parted by blanks alone |
| Names.SlugIgnores | backend/app/exporters/base.py:105 | other characters that are not word characters are as if they were not there, hyphens too |
| Names.SlugOfOneWord | backend/app/exporters/base.py:105-106 | a run of word characters is one word, in lower case |
| Names.SlugKeepsLetters | backend/app/exporters/base.py:103-106 | a slug has exactly the letters of the lower-cased text, in order |
| Names.AsciiIsConsistent | backend/app/exporters/base.py:105 | the ASCII character classes meet the assumptions of the results above |
| Names.QuotedReadsBackIff | backend/app/exporters/base.py:109-114 | for either quote mark, every language of simple escapes and whichever characters end its lines, an escaped value between quote marks reads back as itself if and only if it has no bare line end and no backslash but before a character whose escape is kept |
| Names.PrintableWithoutBackslash | backend/app/exporters/base.py:109-114 | values without backslash and line end always read back; where no escape is kept, only they do |

## Left out

- Playwright, HTTP, Service Bus, Blob, Cosmos, SQL and Jinja: what they answer is a parameter, and each commit or call is one step that may fail.
- URL parsing and regular-expression search in the web crawler: URLs come parsed, the search is a parameter; link extraction from a page is part of the given site.
- The URL a page has after redirects: the crawl keeps its books by the URL taken from the queue.
- Saving crawled pages (`_persist_page_batch`, `_save_crawl_page`): it swallows every error and feeds nothing back into the crawl.
- Sign-in of both crawlers, launchpad analysis and page classification: the SAP model starts after sign-in, and a page's class is given.
- Prompts, model calls, token counts and the choice of output formats: what generation yields is given.
- `_handle_crawl_job`: it updates job rows that crawl jobs do not have.
- A commit that took effect although it reported an error: every commit either happens or raises.
- Adding and deleting requirements while jobs run: the set of stored requirements of a run is fixed.
- Message lock expiry and dead-lettering: a message may be delivered any number of times in any order.
- JobWorker.Lifecycle: does not say that COMPLETED and FAILED jobs always have `started_at`, because publishing before the commit makes that false; FinishesUnstartedIff gives the exact condition.
- JobWorker cancellation: the read and the write of `cancel_job` are one step, as inside one transaction.
- RowSecurity.TenantsDoNotInterfere: needs keys that no other tenant inserts and no update that moves a row to or from the tenant, because a shared key (ClashingKeyInterferes), a row moved to the tenant (UpdateLeavesViewIff) or a row given away, whose key others can then free, would be noticed.
- Interleaving.InterleavedTenantsDoNotInterfere: statements see committed rows and their own session's changes, and wait for rows that another open session has changed, as under the database's read-committed snapshots; deadlock victims and statements that give up waiting are not modelled.
- Foreign keys between tenants, connection pooling and resetting the session context: sessions are fresh.
- Fairness of the cache's lock: any waiting caller may get it next, which covers the first-come order of the real lock.
- Rounding of clocks: times are real numbers and the clock never goes back.
- The Gherkin template, its narrative lines and the order of background lines; cases of unknown type, which the exporter ignores.
- Gherkin.OutlineReproducesIff: needs a template whose values hold no quote mark or placeholder, because plain text replacement cuts out other texts otherwise; OutlineTextOfInput gives the exact condition on the field.
- Timestamps, page titles' encoding, audit rows and progress messages of the legacy tasks.
- Retries inside a test step, and report layout: a step's outcome is given.
- Concurrent administration requests: the last-administrator check is check-then-act, so requests are handled one at a time.
- The JSON route that creates users: it adds users only, as the modelled page does.
- Ids as the database gives them: a user's id is its row's position.
- Lower-casing that changes a text's length or depends on context: lower-casing works character by character.
- Escapes of more than one character after the backslash (hexadecimal, octal, Unicode names) in quoted values.
- Bulk export counting, permission tables, dashboards and the frontend: settled by reading one branch.
