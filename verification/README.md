# SyncBridge: verified model

A Dafny model of the parts of SyncBridge's server (`cmd/syncbridge`) that decide what runs, when,
and how it ends, with proofs of what these parts keep. `dafny verify dfyconfig.toml` checks it all.

**The run service.** Starts, stops, execute goroutines, log sinks, event subscribers and the ticket
lock of the history move one critical section at a time over shared maps. `RunProtocol` is that state
machine, with compiler, installer and executor free to answer anything; `RunInvariant` proves its
inductive invariant from the parts in `RunThreads`, `RunSinks` and `RunStories`, and `RunTheorems`
draws the conclusions, `RunEndings` those about how runs end. `RunServices.RunService` is the object itself: each method updates the fields
and is proved to do what the machine's step does (`RunCore`, `EventLog` and `History` define the steps).

**The control loop** of a process group (`ExecutionControl`, `ExecutionHandles`): leader exit, stop
requests, deadlines, polling and the grace timer in any order.

**Triggers.** `CronPlans`, `Schedulers` and `CronProtocol`: the cron scheduler's two-phase
reconciliation, as an object and among concurrent callbacks. `WatchPlans`, `WatchManagers` and
`WatchProtocol`: the same for file watchers with their debounce timers.

**The job store.** `AtomicFile`, `JobStore` and `JobRepositories`: several repositories on one file.

**Streams and words.** `LogLines` and `LogBuffers`: splitting and keeping output. `ShellWords` and
`WrapperExec`: quoting, the shell's reading of it, and the import scanner's tokenizer. `LaunchReadings`:
what setpriv and env make of the words read.

**Plans and wrappers.** `Texts`, `HostPaths`, `SyncArgs`, `PlanCompilers`: compiling a job, and the
renderer's independent check; `SyncReadings`: what rsync and rclone make of their command lines. `HostFiles` and `WrapperStores`: installing the wrapper through host
commands. `RenderedPlans` joins the chain from accepted plan to the words the shell reads.

Nondeterminism and outside answers appear as parameters (what the host, the engine or a write answers,
which reports arrive in between) or as arbitrary values. Run ids and engine entries are fresh by
assumption; the executor's result is terminal or empty; a map is gone through in any order.

Where code and comments differ, the model follows the code:

- The comment on `WatchManager.Reconcile` (`cmd/syncbridge/watch_manager.go:126-127`) says that it publishes complete
  watcher sets. If a kept handle is degraded between its two critical sections, a nil handle is
  published and the old one neither published nor stopped. `WatchPlans.PublishOwns` gives the exact
  condition, `WatchProtocol.NilRun` a whole run that ends so. A job listed both validly and invalidly
  can likewise leave a handle open that is not published; the repository lists each job once.
- A published nil handle outlives a reconciliation that is refused and one that finds its job invalid.
  A publication dereferences it exactly if its job is not invalid, and Close always does
  (`WatchProtocol.DereferencedExactly`); that call then does not return. Everything said of every run
  of the watch protocol includes the runs that go on past a nil handle, and past such a call.
- The compiler's plans are not always accepted by the renderer, nor by the installation: the capability
  report does not look for control characters in tool paths, and neither the job's validation
  (`cmd/syncbridge/api_v1_jobs.go:202-300`) nor the compiler refuses or clears fields of other kinds of
  action. `PlanCompilers.Compile` states the exact conditions, `PlanCompilers.StrayFieldsRefused` and
  `PlanCompilers.UnprintableToolsRefused` give plans that compile and do not render.
- An argument equal to the backup token is replaced when the wrapper is rendered, also when it is a
  script's own argument or an exclude pattern. `WrapperExec.ArgvRoundTrip` states the exact condition.
- A plan whose first argument holds an equals sign, a script at such a path for one, is accepted and does
  not run: env takes that argument as a variable. `RenderedPlans.AcceptedPlanLaunches` states the exact
  condition, `RenderedPlans.EqualsSignIsLost` an instance.
- A failed load does not preserve what a repository remembers
  (`JobRepositories.JobRepository.ReplaceLocked`).
- The second look at `closed` in both Reconcile methods never finds it set, because Close takes the
  same reconcile lock; the model asserts nothing there and has no branch for it.

## Model

| member | source | states |
|---|---|---|
| RunTheorems.MutualExclusion | cmd/syncbridge/run_service.go:220-291 | Over every interleaving of starts, stops and goroutines: at most one run of a job is between its executor call and its end, and the executor is called at most once per run |
| RunTheorems.EndedForGood | cmd/syncbridge/run_service.go:321-357 | A run that has ended, by a stop during compilation, installation or start for one, is never revived and never handed to the executor afterwards |
| RunTheorems.LiveRuns | cmd/syncbridge/run_service.go:176-215 | In every reachable state a job's live runs are exactly its active and its held-back one, and the held-back one is its newest accepted request that has not ended |
| RunTheorems.HandOver | cmd/syncbridge/run_service.go:343-356 | Whenever the active run of a job with a held-back run ends, the same step makes the held-back run active, untouched, still in the table after the trim, and with a goroutine |
| RunTheorems.FinishHandsOver | cmd/syncbridge/run_service.go:343-356 | Finishing a run promotes the job's held-back run if it was the active one, and otherwise leaves the active run live |
| RunTheorems.OnlyTableStepsEnd | cmd/syncbridge/run_service.go:300-357 | No other step of a goroutine, sink, history holder or subscriber ends a run |
| RunTheorems.StopsForwarded | cmd/syncbridge/run_service.go:379-417 | A stop noted while the executor was being called is forwarded to the handle, or its goroutine is about to forward it: none is lost |
| RunTheorems.StoriesInOrder | cmd/syncbridge/run_service.go:442-547 | Each run's published events follow the grammar: a lone skipped_overlap, or queued, perhaps running, one terminal status and at most one repeat of it for a history error; the story is over exactly when the run has ended |
| RunTheorems.EveryLineShown | cmd/syncbridge/run_service.go:247-291 | When a goroutine is done, its run's log events are exactly the lines its sink accepted, in order, all before the terminal event, and its sink was closed once |
| RunTheorems.SinkClosedOnce | cmd/syncbridge/host_executor.go:154-182 | No sink is closed twice on any path, and none is sent to once closed |
| RunTheorems.OneTicketEach | cmd/syncbridge/run_service.go:300-319 | Exactly the ended runs took a history ticket, one each, with the terminal status that was published |
| RunTheorems.HistoryMoves | cmd/syncbridge/run_service.go:419-438 | The ticket lock cannot deadlock: while a ticket is held, the holder whose turn it is can move, and that lowers the measure of outstanding turns |
| RunTheorems.DrainedHistory | cmd/syncbridge/history.go:49-68 | When no ticket is held and no write failed, a job's history is its latest 20 ended runs, newest first, ahead of the records from before |
| RunTheorems.RetainedEvents | cmd/syncbridge/run_service.go:533-547 | Retained events are the most recent ones, at most eight times MaxRuns, with consecutive ids ending at the current one |
| RunTheorems.SubscribersSeeOrder | cmd/syncbridge/run_service.go:504-531 | A subscriber receives strictly increasing ids without duplicates, and everything from its first owed event on unless its channel was full at a publication |
| RunTheorems.GoroutineMoves | cmd/syncbridge/run_service.go:220-291 | No execute goroutine is ever stuck: it, its log consumer or the executor has an enabled step |
| RunEndings.EndsExactly | cmd/syncbridge/run_service.go:149-417 | Every step of every behaviour ends exactly the run it must with exactly the status it must, in the published story and in the history record: a stop before the executor call killed, a rejected or replaced request skipped_overlap, a failed compilation, installation or start start_failed, otherwise as the executor said, or failed; stories that were over keep what they said |
| RunEndings.ExecutorDecides | cmd/syncbridge/run_service.go:264-291 | The result a goroutine ends its run with is the one its executor gave; a run ended for a failed start was never launched |
| RunEndings.RequestsStand | cmd/syncbridge/run_service.go:176-215 | A request for an idle job is at once active, queued and has a goroutine; for a busy one it is held back, or ended as skipped, and nothing else moves |
| RunEndings.StopIsNoted | cmd/syncbridge/run_service.go:389-396 | A stop during the executor call marks the run and changes nothing else |
| RunEndings.StopNeverLost | cmd/syncbridge/run_service.go:272-287 | At every later time the run has ended, is queued with the stop noted, or runs with the stop forwarded or about to be |
| RunEndings.CalledAfterInstall | cmd/syncbridge/run_service.go:220-265 | The executor is called only for a run whose job was compiled and then installed successfully, in this order |
| RunEndings.LinesAreTaken | cmd/syncbridge/host_executor.go:462-478 | A line sent reaches the sink unless 256 lines wait there, and only then is it lost |
| RunEndings.ErrorShownExactly | cmd/syncbridge/run_service.go:419-438 | The story of an ended run changes only by showing a history error, exactly when its own write failed and it is still in the table |
| RunInvariant.AlwaysInv | cmd/syncbridge/run_service.go:149-460 | The inductive invariant of the whole protocol holds in every state of every behaviour |
| RunThreads.TableThreads | cmd/syncbridge/run_service.go:149-357 | Every critical section that reserves, ends or drops runs keeps the agreement between run table, slots and goroutines |
| RunThreads.ThreadThreads | cmd/syncbridge/run_service.go:220-291 | Every other move of a goroutine keeps that agreement |
| RunSinks.SinkSinks | cmd/syncbridge/host_executor.go:63-102 | Filling, draining and closing a log sink keeps its counts, capacity and single close |
| RunStories.TableStories | cmd/syncbridge/run_service.go:149-357 | Every critical section keeps all runs' published stories in step with the run table |
| RunStories.SinkStories | cmd/syncbridge/run_service.go:442-460 | Publishing a log line keeps the stories: a line is shown only while its run is live |
| RunInvariant.TableTickets | cmd/syncbridge/run_service.go:300-319 | Every critical section takes a history ticket exactly when it ends a run |
| RunCore.FinishKeeps | cmd/syncbridge/run_service.go:321-357 | Ending a run keeps the table invariant: live runs are those in the two slot maps, and a held-back run implies another active one |
| RunCore.ReserveKeeps | cmd/syncbridge/run_service.go:176-215 | Reserving a run keeps the table invariant in all its branches: rejected, held back in place of another, active at once |
| RunCore.TrimExists | cmd/syncbridge/run_service.go:554-573 | A legal trim exists for every table and limits: expired runs go, then just enough of the oldest |
| RunCore.TrimByRank | cmd/syncbridge/run_service.go:554-573 | With distinct finishing times, a legal trim keeps an ended run exactly if it is not too old and fewer than MaxRuns runs finished after it |
| RunServices.RunService.Start | cmd/syncbridge/run_service.go:149-218 | The class method does exactly what the protocol's reservation does, and refuses unknown jobs, stale revisions and overlaps as stated; told on its fields: which run and slot maps result, which events are appended, and whether a ticket is taken |
| RunServices.RunService.Stop | cmd/syncbridge/run_service.go:379-417 | Ends a queued run as killed, in the table, by one event and with a ticket, with a legal trim; only notes a stop during the executor call; asks for forwarding when running; refuses otherwise |
| RunServices.RunService.FinishLocked | cmd/syncbridge/run_service.go:321-357 | Ends a live run with all the effects of the protocol's step, and does nothing to one that has ended |
| RunServices.RunService.EndLocked | cmd/syncbridge/run_service.go:325-356 | The order release, publish, trim, promote amounts to the protocol's single step, the trim being legal |
| RunServices.RunService.FinishRun | cmd/syncbridge/run_service.go:300-319 | A live run ends with the result's status, or failed without one, in the table and by one event, and takes a ticket; an ended one is left alone |
| RunServices.RunService.TrimLocked | cmd/syncbridge/run_service.go:554-573 | The loop removes every expired ended run and then the oldest ones down to the limit, and no live run |
| RunServices.RunService.Prune | cmd/syncbridge/run_service.go:502 | Pruning is a legal trim and nothing else |
| RunServices.RunService.PublishLocked | cmd/syncbridge/run_service.go:533-547 | One event with the next id is appended, retained within the bound, and offered to every subscriber |
| RunServices.RunService.PublishLog | cmd/syncbridge/run_service.go:442-460 | A log line is published only for a live run, with its status at that moment |
| RunServices.RunService.Subscribe | cmd/syncbridge/run_service.go:504-531 | A new subscriber gets the retained events after its cursor, then live ones |
| RunServices.RunService.ClaimStart | cmd/syncbridge/run_service.go:257-264 | The executor call is claimed only for a run that is still queued |
| RunServices.RunService.AttachHandle | cmd/syncbridge/run_service.go:272-284 | Attaching publishes the running state, and tells whether a noted stop must be forwarded |
| RunServices.RunService.PersistHistory | cmd/syncbridge/run_service.go:419-438 | A holder writes at its turn and passes the turn on; a failed write is shown on the run if it is still in the table |
| RunServices.RunService.AppendHistory | cmd/syncbridge/history.go:49-68 | The file gets the record at the head of the job's list, cut to 20, or is left as it was |
| EventLog.PublishKeeps | cmd/syncbridge/run_service.go:533-547 | Publishing keeps ids consecutive, the retained suffix exact, and every subscriber's past a run of the log |
| EventLog.SubscribeReplays | cmd/syncbridge/run_service.go:504-531 | A replay is exactly the log from the first retained event above the cursor on |
| EventLog.SubscriberStarts | cmd/syncbridge/run_service.go:504-531 | A new subscriber is sent exactly the retained events above its cursor, and has room for 64 more |
| EventLog.PublishDelivers | cmd/syncbridge/run_service.go:533-547 | An event is missed only by a subscriber whose channel was full when it was published |
| EventLog.SubscribeKeeps | cmd/syncbridge/run_service.go:504-531 | Subscribing keeps the event log invariant, the new subscriber included |
| EventLog.ReceiveKeeps | cmd/syncbridge/run_service.go:504-531 | Reading from a subscription keeps it |
| History.ReplayIsNewest | cmd/syncbridge/history.go:49-68 | After any sequence of writes, of which some failed with or without effect, a job's list is the effective records newest first ahead of the prior ones, cut to 20 |
| History.AppendKeeps | cmd/syncbridge/run_service.go:419-438 | Writes happen in ticket order, each once |
| ExecutionControl.SignalProtocol | cmd/syncbridge/host_executor.go:310-387 | For every order of events: KILL at most once, as the last act, after a TERM that found the group; nothing is signalled or probed after the group was seen empty, when the loop has returned |
| ExecutionControl.ProtocolMeaning | cmd/syncbridge/host_executor.go:310-387 | What following the escalation automaton means for each signal sent |
| ExecutionControl.KillOnlyAtGrace | cmd/syncbridge/host_executor.go:369-384 | KILL is sent only when the grace period armed at initiation expires |
| ExecutionControl.TurnsTold | cmd/syncbridge/host_executor.go:332-386 | Every turn told without the loop's variables: an event is received exactly if it is awaited given what was heard and done before, and what is then done is exactly what is due |
| ExecutionControl.ReturnedExactly | cmd/syncbridge/host_executor.go:332-386 | The loop has returned exactly if it found the group empty, or knows of the leader's exit and has sent KILL or found nothing to terminate; after a TERM that found the group it returns only with KILL sent or the group found empty |
| ExecutionControl.GraceKills | cmd/syncbridge/host_executor.go:369-384 | A grace expiry received sends KILL, unless the leader's exit was observed and the group is then found empty |
| ExecutionControl.EscalatedExactly | cmd/syncbridge/host_executor.go:374-379 | An escalation is reported exactly when some KILL was sent and reached the group |
| ExecutionControl.TroublesTold | cmd/syncbridge/host_executor.go:298-340 | Which problems a turn reports: every refused signal, an unobservable leader, and an unreadable process table once |
| ExecutionControl.RunKeeps | cmd/syncbridge/host_executor.go:274-387 | The control invariant holds after every sequence of events |
| ExecutionControl.NeverStuck | cmd/syncbridge/host_executor.go:274-387 | Until it returns, the loop waits for the leader or the grace timer; each of these returns or strictly lowers a rank of at most 2, and no other event raises it |
| ExecutionControl.DecisiveBound | cmd/syncbridge/host_executor.go:274-387 | A loop that has not returned has handled at most one of those events |
| ExecutionControl.ReasonIsHighest | cmd/syncbridge/host_executor.go:310-330 | The final reason is at least that of every request received once termination was initiated, so that a manual stop outranks a timeout in either order |
| ExecutionControl.ReasonWasAsked | cmd/syncbridge/host_executor.go:310-330 | The final reason is that of some request received |
| ExecutionControl.StatusByRequests | cmd/syncbridge/host_executor.go:234-242 | The reported status follows from the reasons of the requests that counted and, without any, from the exit code |
| ExecutionControl.SignalsBeforeReap | cmd/syncbridge/host_executor.go:226-253 | In every life of a process group all signals precede the single reap |
| ExecutionHandles.ExecutionHandle.Control | cmd/syncbridge/host_executor.go:274-387 | The loop over its fields and timers stays in the state of the machine, for every sequence of events; it returns exactly as stated, with KILL sent or the group empty once a TERM found it, and reports an escalation exactly if a KILL reached the group |
| ExecutionHandles.ExecutionHandle.HandleEvent | cmd/syncbridge/host_executor.go:332-386 | One turn of the loop is one step of the machine |
| ExecutionHandles.ExecutionHandle.LeaderExited | cmd/syncbridge/host_executor.go:334-352 | The leader's exit: stop waiting for it, probe, clean up, start polling or return |
| ExecutionHandles.ExecutionHandle.GraceOver | cmd/syncbridge/host_executor.go:369-384 | The grace period's end: return if the observed group is gone, otherwise KILL is the last act, and the loop returns if the leader's exit is known |
| LogLines.Scan | cmd/syncbridge/host_executor.go:462-521 | For every cut of a byte stream into non-empty reads and an end of file of its own, the stateful splitter emits exactly the lines of the one-shot split of the whole stream |
| LogLines.LineSplitter.Split | cmd/syncbridge/host_executor.go:493-521 | One call with its carried state does what the splitting of the remaining bytes requires |
| LogLines.SplitMoves | cmd/syncbridge/host_executor.go:493-521 | What a call consumes and emits, and the state it leaves, account for the rest of the stream |
| LogLines.LinesBreakFree | cmd/syncbridge/log_buffer.go:42-61 | No line contains a CR or an LF |
| LogLines.LinesOfUnlines | cmd/syncbridge/log_buffer.go:42-61 | Splitting lines that were written with newlines gives them back |
| LogLines.LinesOfBroken | cmd/syncbridge/log_buffer.go:42-61 | So does splitting lines written with any mixture of CR, LF and CRLF, a last line without a break included |
| LogBuffers.LogBuffer.AppendAt | cmd/syncbridge/log_buffer.go:42-61 | Appends exactly the lines of the one-shot split, truncated and filtered as stated, and keeps the buffer valid |
| LogBuffers.LogBuffer.AppendLine | cmd/syncbridge/log_buffer.go:63-76 | One line is truncated, appended and evicts just enough of the oldest |
| LogBuffers.LogBuffer.TrimLocked | cmd/syncbridge/log_buffer.go:87-92 | Lines before the cutoff go, and the byte count follows |
| LogBuffers.LogBuffer.TrimBefore | cmd/syncbridge/log_buffer.go:78-85 | Dropping by age keeps the byte count exact and a suffix of what was accepted |
| LogBuffers.LogBuffer.Bytes | cmd/syncbridge/log_buffer.go:94-105 | The contents are the retained lines joined, never longer than the limit |
| LogBuffers.FitIsLongest | cmd/syncbridge/log_buffer.go:63-92 | Without age trims the retained lines are the longest suffix of the accepted ones that fits |
| LogBuffers.TrimExactly | cmd/syncbridge/log_buffer.go:78-92 | A trim by age and size keeps a suffix that starts young enough and fits, and drops no entry that could stay |
| LogBuffers.AcceptedIsBeginning | cmd/syncbridge/log_buffer.go:63-76 | What is kept of a line is its beginning up to the limit and a newline, or nothing if that does not fit the buffer |
| LogBuffers.FitTwice | cmd/syncbridge/log_buffer.go:63-92 | Trimming again after more lines is trimming once |
| LogBuffers.NextLine | cmd/syncbridge/log_buffer.go:42-61 | One line is cut off at LF, CR or CRLF |
| LogBuffers.Stream | cmd/syncbridge/host_executor.go:462-491 | A run's output, scanned in any pieces, each line dropped at a full queue or appended at its own time: the buffer accepts exactly what the lines of the whole output become under their fates, and the drops are counted |
| LogBuffers.DeliveredAtOnce | cmd/syncbridge/run_service.go:249-255 | At one time, lines appended one by one are accepted exactly as the lines not dropped, appended together |
| LogBuffers.KeptAll | cmd/syncbridge/host_executor.go:468-475 | The lines not dropped are the whole output's exactly when none is dropped |
| ShellWords.ReadEscaped | cmd/syncbridge/wrapper.go:370-372 | Quoted text read by the shell's rules inside single quotes is the text itself, or unreadable if it holds a NUL |
| ShellWords.ReadItem | cmd/syncbridge/wrapper.go:370-372 | A quoted argument or a double-quoted parameter reads as one word |
| ShellWords.ReadRendered | cmd/syncbridge/wrapper.go:682-692 | A rendered list reads back as its items, unless an argument holds a NUL |
| ShellWords.Tokenize | cmd/syncbridge/import_scanner.go:176-203 | The loop over characters computes the tokens of the specification |
| ShellWords.TokenizeQuoted | cmd/syncbridge/import_scanner.go:176-203 | Tokenizing space-joined quoted words gives the words back, the empty ones dropped |
| ShellWords.TokenizeRoundTrip | cmd/syncbridge/import_scanner.go:176-203 | It gives back every list exactly when no word is empty |
| WrapperExec.RenderExec | cmd/syncbridge/wrapper.go:670-700 | The writer's output is the text specified: keyword, prelude, environment, arguments, and the tail that keeps the command's result when backups are made |
| WrapperExec.WriteArguments | cmd/syncbridge/wrapper.go:681-692 | The argument loop writes each argument's word, the last without continuation |
| WrapperExec.ExecReadsBack | cmd/syncbridge/wrapper.go:670-700 | A shell reads it, up to the end of that command, as the keyword, the prelude, the environment as it is, and the arguments, the backup token standing for the directory chosen at run time |
| WrapperExec.ArgvRoundTrip | cmd/syncbridge/wrapper.go:670-700 | The arguments arrive as they were exactly when none holds a NUL and none is the backup token |
| CronPlans.NormalForm | cmd/syncbridge/scheduler.go:233-242 | A normalized expression has six fields and is its own normal form |
| CronPlans.VisitPlans | cmd/syncbridge/scheduler.go:104-132 | Taking one more job into the plan keeps it a plan |
| CronPlans.ServedIsSettled | cmd/syncbridge/scheduler.go:76-178 | What a reconciliation leaves needs nothing done for the same jobs |
| CronPlans.PlanOfSettled | cmd/syncbridge/scheduler.go:101-132 | Planning for jobs already served registers nothing, removes nothing and keeps every entry |
| CronPlans.PublishReconciles | cmd/syncbridge/scheduler.go:164-172 | The published entries are the desired jobs as desired, and those invalid as they were |
| CronPlans.PublishMirrors | cmd/syncbridge/scheduler.go:135-176 | Once the additions are live and the replaced entries removed, engine and entries correspond one to one |
| CronPlans.ServedRuns | cmd/syncbridge/scheduler.go:76-178 | Every enabled, reviewed cron job of SyncBridge with a valid expression, if listed once, has a live callback with its current revision and the fields of its expression; whatever is published is such a job's, or was there before and has an invalid mention |
| Schedulers.Scheduler.Reconcile | cmd/syncbridge/scheduler.go:76-178 | Succeeds exactly if the engine accepts every new registration, and then every job is run for at its current revision and times, and no other; a refusal restores entries and engine; bijection kept; nothing done at the engine when already settled; nothing at all once closed |
| Schedulers.Scheduler.ReconcileOpen | cmd/syncbridge/scheduler.go:101-177 | The part under the reconcile lock |
| Schedulers.Scheduler.Carry | cmd/syncbridge/scheduler.go:135-177 | What follows the plan: registering, publishing and removing, or all as before |
| Schedulers.Scheduler.Wanted | cmd/syncbridge/scheduler.go:80-92 | The loop over jobs computes what is desired and what is invalid |
| Schedulers.Scheduler.PlanLocked | cmd/syncbridge/scheduler.go:101-133 | The first critical section computes a plan, with generations never used before, in which every desired job has the revision and expression wanted |
| Schedulers.Scheduler.Register | cmd/syncbridge/scheduler.go:135-154 | Registers all additions, or restores the engine exactly |
| Schedulers.Scheduler.Unregister | cmd/syncbridge/scheduler.go:139-143 | The rollback removes just what was registered |
| Schedulers.Scheduler.Publish | cmd/syncbridge/scheduler.go:156-176 | Publishing and removing makes the engine mirror the entries again |
| Schedulers.Scheduler.PublishLocked | cmd/syncbridge/scheduler.go:164-172 | The new entries, and exactly which errors are set and cleared |
| Schedulers.Scheduler.Claim | cmd/syncbridge/scheduler.go:180-189 | A fired callback starts a run only if its registration is the published one |
| Schedulers.Scheduler.Settle | cmd/syncbridge/scheduler.go:191-199 | A failed start is remembered only while its registration is still published |
| Schedulers.Scheduler.CloseLocked | cmd/syncbridge/scheduler.go:213-222 | Closing empties the entries |
| CronProtocol.AlwaysInv | cmd/syncbridge/scheduler.go:76-227 | The protocol invariant holds in every state of every run |
| CronProtocol.OnlyPublishedFire | cmd/syncbridge/scheduler.go:180-189 | Under every interleaving, also between registration and publication, a callback claims a start exactly when the scheduler is open and its own registration is published; it then carries the published revision |
| CronProtocol.IdleMirrors | cmd/syncbridge/scheduler.go:76-178 | Between reconciliations, until Close, engine entries and published entries are in bijection |
| CronProtocol.RefusedRestores | cmd/syncbridge/scheduler.go:135-150 | A reconciliation that does not publish returns with entries and engine as they were when it began |
| CronProtocol.QuietForGood | cmd/syncbridge/scheduler.go:207-227 | Once Close has returned no start is in flight and none can begin, ever again |
| CronProtocol.StepKeeps | cmd/syncbridge/scheduler.go:76-227 | Every step keeps the protocol invariant |
| WatchPlans.MentionedOnce | cmd/syncbridge/watch_manager.go:132-150 | Jobs listed once each are not both desired and invalid |
| WatchPlans.DegradedByReport | cmd/syncbridge/watch_manager.go:422-439 | Only a degrade report of the published handle makes a job degraded |
| WatchPlans.DegradedExactly | cmd/syncbridge/watch_manager.go:336-439 | After any reports a job is degraded exactly if its published handle degraded it and did not arm again since, or it was from the start and never armed again |
| WatchPlans.NilExactly | cmd/syncbridge/watch_manager.go:192-218 | A job's next handle is nil exactly when the first section left the job alone and the second found it degraded, or the job is invalid and had a nil handle |
| WatchPlans.NilRetires | cmd/syncbridge/watch_manager.go:194-212 | A nil handle is among those to be stopped, and so dereferenced, exactly when its job is not invalid; its specification is never asked for |
| WatchPlans.PublishOwns | cmd/syncbridge/watch_manager.go:192-231 | After publishing and stopping, open handles and published handles correspond one to one if and only if no job fell between the sections and none was created in vain |
| WatchPlans.NothingFalls | cmd/syncbridge/watch_manager.go:152-231 | With jobs listed once each and no degrade of a published handle in between, neither happens |
| WatchPlans.FallingHappens | cmd/syncbridge/watch_manager.go:204-218 | A concrete job and report for which a nil handle is published and nothing is stopped |
| WatchPlans.StoppingRestores | cmd/syncbridge/watch_manager.go:174-180 | Stopping what was opened leaves open exactly the handles that were open before |
| WatchPlans.NextWatches | cmd/syncbridge/watch_manager.go:132-218 | Every watchable job, if listed once, is published, and its handle, unless nil, watches for its current revision what and how the job says; whatever is published is such a job's, or was there before and has an invalid mention |
| WatchManagers.WatchManager.Reconcile | cmd/syncbridge/watch_manager.go:128-236 | From any state, nil handles included: refused exactly if a handle cannot be opened, then with everything opened stopped and no handle changed; crashed exactly if a nil handle's job is not invalid; otherwise reconciled, every job watched for at its current revision, and a sound state stays sound exactly if no job fell between the sections |
| WatchManagers.WatchManager.Wanted | cmd/syncbridge/watch_manager.go:132-150 | The loop over jobs computes what is desired and what is invalid |
| WatchManagers.WatchManager.PlanLocked | cmd/syncbridge/watch_manager.go:159-168 | Which handles to create, each with a new generation |
| WatchManagers.WatchManager.Prepare | cmd/syncbridge/watch_manager.go:171-182 | Opens all handles or leaves none of them open |
| WatchManagers.WatchManager.PublishLocked | cmd/syncbridge/watch_manager.go:192-228 | What is published, retired and cleared by the second section, with nil handles among the active ones or not |
| WatchManagers.WatchManager.Publish | cmd/syncbridge/watch_manager.go:192-231 | Publishing, then stopping what is replaced: all of it, or a part of it if a nil handle is among it, and exactly then the call crashes |
| WatchManagers.SameWatchSpec | cmd/syncbridge/watch_manager.go:526-536 | The field and list comparison decides equality of specifications |
| WatchManagers.WatchManager.PublishError | cmd/syncbridge/watch_manager.go:429-439 | A report counts only for the published handle of an open manager |
| WatchManagers.WatchManager.RearmLocked | cmd/syncbridge/watch_manager.go:336-341 | Rearming clears degradation and error of the published handle only |
| WatchManagers.WatchManager.Claim | cmd/syncbridge/watch_manager.go:400-408 | A fired timer starts a run only for the published handle, not degraded, of an open manager |
| WatchManagers.WatchManager.Settle | cmd/syncbridge/watch_manager.go:410-420 | What follows a claim, and when it is reported |
| WatchManagers.WatchManager.Close | cmd/syncbridge/watch_manager.go:454-477 | Closing unpublishes every handle and stops it, or crashes exactly if a nil handle was published; from a sound state nothing stays open |
| WatchProtocol.OnlyPublishedFire | cmd/syncbridge/watch_manager.go:400-408 | Under every interleaving a claim is made only for the published handle of its job, with its revision, while not degraded |
| WatchProtocol.StoppedForGood | cmd/syncbridge/watch_manager.go:380-398 | A handle that was stopped never has its timer armed again, whatever signals were under way |
| WatchProtocol.QuietForGood | cmd/syncbridge/watch_manager.go:454-477 | Once Close has returned no start is in flight and none can begin |
| WatchProtocol.NoHandleLost | cmd/syncbridge/watch_manager.go:152-231 | In runs where no job falls between the sections, between reconciliations the running handles are exactly the published ones |
| WatchProtocol.AllStopped | cmd/syncbridge/watch_manager.go:454-477 | In such runs every handle ever opened is stopped, with no timer armed, once Close has returned |
| WatchProtocol.AlwaysInv | cmd/syncbridge/watch_manager.go:152-501 | The protocol invariant holds in every state of every run, also past a nil handle |
| WatchProtocol.DereferencedExactly | cmd/syncbridge/watch_manager.go:194-231 | A publication dereferences a nil handle exactly if some nil handle's job is not invalid, Close exactly if there is one; a call that does so never returns |
| WatchProtocol.NilRun | cmd/syncbridge/watch_manager.go:204-218 | A concrete run of two reconciliations and one degrade report that ends with a nil handle published, the former handle running on, and the job shown as healthy |
| WatchProtocol.NoneBegins | cmd/syncbridge/watch_manager.go:454-477 | Once Close has begun no start begins, whether Close returns or not |
| WatchProtocol.AlwaysTidy | cmd/syncbridge/watch_manager.go:152-501 | So does the accounting of handles, in runs where no job falls between the sections |
| AtomicFile.Directory.AtomicWrite | cmd/syncbridge/atomic_file.go:51-100 | The file ends whole, old or new; new exactly when the rename was reached, and so also when only the directory sync fails, which is reported; at most a temporary file is left besides |
| JobStore.LoadPersisted | cmd/syncbridge/job_repository.go:224-260 | Loading gives back what was persisted, for every valid store |
| JobStore.LoadValid | cmd/syncbridge/job_repository.go:149-243 | Whatever loads has positive distinct ids below the next one, and current schema |
| JobStore.LoadsExactly | cmd/syncbridge/job_repository.go:149-243 | A file of the current version loads exactly if its ids are positive and distinct and its schemas current, to just its jobs, and with the least next id above all |
| JobStore.MigratesExactly | cmd/syncbridge/job_repository.go:184-222 | A file of the first version loads exactly if its ids are positive and distinct, and every job keeps its name, action, owner and enablement, at revision one and awaiting review |
| JobStore.AnswersArePermitted | cmd/syncbridge/job_repository.go:69-147 | Every operation, whatever fails, is one that the shared store permits |
| JobStore.OutcomeOf | cmd/syncbridge/job_repository.go:69-147 | Told by the stores before and after: a success creates, revises or removes just the one job, with the body submitted and the revision raised; a refusal changes nothing; a failed write does either |
| JobStore.LastWriteStands | cmd/syncbridge/job_repository.go:69-147 | In every state of every history a job is there exactly if created, or there from the start, and not deleted since; its body is the one last submitted and its revision counts the updates |
| JobStore.RepliesHold | cmd/syncbridge/job_repository.go:69-147 | A job returned is in the store with the body submitted; every change of the store is what its operation asked for |
| JobStore.OneWinner | cmd/syncbridge/job_repository.go:91-147 | Each revision of a job admits at most one effective update or delete, by whichever repository |
| JobStore.IdsIncrease | cmd/syncbridge/job_repository.go:69-89 | Ids of effective creations strictly increase and are never reused |
| JobStore.PastForGood | cmd/syncbridge/job_repository.go:69-147 | A revision once passed, or a job once deleted, never comes back |
| JobStore.AlwaysValid | cmd/syncbridge/job_repository.go:69-147 | The shared store stays valid through every history |
| JobStore.EffectValid | cmd/syncbridge/job_repository.go:69-147 | Each operation keeps the store valid |
| JobStore.AbsorbLists | cmd/syncbridge/job_repository.go:224-243 | Taking in a list of distinct valid jobs gives exactly those jobs |
| JobRepositories.JobRepository.Create | cmd/syncbridge/job_repository.go:69-89 | Reply and new file depend only on the file and on what fails; on success the submitted body is stored under the next id at revision one, nothing else changes, and memory equals the file |
| JobRepositories.JobRepository.Update | cmd/syncbridge/job_repository.go:91-119 | The same for an update: on success, only at the current revision, the submitted body replaces the job's and the revision is raised |
| JobRepositories.JobRepository.Delete | cmd/syncbridge/job_repository.go:121-147 | The same for a delete: on success, only at the current revision, the job is gone and nothing else changes |
| JobRepositories.JobRepository.LoadLocked | cmd/syncbridge/job_repository.go:149-182 | Succeeds exactly on readable, valid files; a migration does not change what the file amounts to |
| JobRepositories.JobRepository.MigrateLegacyLocked | cmd/syncbridge/job_repository.go:184-222 | The file is rewritten only after its exact former contents were backed up |
| JobRepositories.JobRepository.ReplaceLocked | cmd/syncbridge/job_repository.go:224-243 | All jobs are taken in, or memory holds those before the first bad one: it is not preserved |
| JobRepositories.JobRepository.PersistCandidateLocked | cmd/syncbridge/job_repository.go:245-260 | The file becomes the candidate, sorted by id, or stays |
| JobRepositories.JobRepository.List | cmd/syncbridge/job_repository.go:51-60 | The remembered jobs in the order of ids |
| WrapperStores.WrapperStore.Install | cmd/syncbridge/wrapper.go:48-140 | Whatever commands fail, the target is untouched or exactly the text as a private regular file of root; only managed directories, staging paths and the target are named by mutating commands or changed; success implies safe directories; a host where nothing fails succeeds |
| WrapperStores.WrapperStore.InstallSecured | cmd/syncbridge/wrapper.go:71-140 | The same for the part after the directories are secured |
| WrapperStores.WrapperStore.SecureManagedHierarchy | cmd/syncbridge/wrapper.go:193-235 | Only missing managed directories are made; success means that all are safe |
| WrapperStores.WrapperStore.MakeDirectory | cmd/syncbridge/wrapper.go:207-232 | A missing directory is made, given to root and closed, or the call fails |
| WrapperStores.WrapperStore.Revalidate | cmd/syncbridge/wrapper.go:237-248 | Succeeds only if every component is a safe directory |
| WrapperStores.WrapperStore.ValidateRegularRootFile | cmd/syncbridge/wrapper.go:282-306 | What a regular root file must be |
| WrapperStores.WrapperStore.ValidateTarget | cmd/syncbridge/wrapper.go:267-276 | A missing target is fine, a present one must be root's |
| WrapperStores.WrapperStore.ValidateWrapperTempPath | cmd/syncbridge/wrapper.go:350-363 | Only a staging name in the wrapper's own directory is accepted |
| WrapperStores.WrapperStore.Stage | cmd/syncbridge/wrapper.go:93-116 | The staging file ends with exactly the text, private to root, and nothing else changes |
| WrapperStores.WrapperStore.Replace | cmd/syncbridge/wrapper.go:117-139 | The rename is the one change to the target |
| WrapperStores.WrapperStore.Deliver | cmd/syncbridge/wrapper.go:86-139 | The staging file is renamed or removed |
| HostPaths.WithinMeansBelow | cmd/syncbridge/execution_plan.go:515-520 | The text test for containment finds exactly the paths whose components go on from the parent's |
| HostPaths.WrapperPathIsManaged | cmd/syncbridge/wrapper.go:331-348 | The compiler's wrapper path always passes the store's check |
| HostPaths.ManagedPathParts | cmd/syncbridge/wrapper.go:331-348 | What a path that passes the check consists of |
| HostPaths.PartsOfPath | cmd/syncbridge/execution_plan.go:505-513 | A path made of names is canonical and has those names |
| Texts.AtoiOfItoa | cmd/syncbridge/wrapper.go:343-346 | A job id written in decimal reads back |
| Texts.SplitJoin | cmd/syncbridge/wrapper.go:339-342 | Joining and splitting at a separator are inverse |
| Texts.SortedOnce | cmd/syncbridge/execution_plan.go:605-616 | Sorting gives every name once, in order |
| SyncReadings.BuildArgv | cmd/syncbridge/execution_plan.go:421-489 | The command line is built group by group as specified, and asks for what the job says |
| SyncReadings.AsksAsIntended | cmd/syncbridge/execution_plan.go:421-489 | Read as rsync or rclone reads its words, the command line of every valid synchronization asks for its engine, source, destination, deletion exactly for mirror, removal exactly for move, comparison, rate, maximum of deletions, backups, update, exclusions in order and dry run |
| SyncReadings.PatternsRoundTrip | cmd/syncbridge/main.go:140-148 | Exclusions joined by commas come back as they were, if trimmed, not empty and without commas |
| SyncReadings.RateIsGiven | cmd/syncbridge/execution_plan.go:425-427 | The rate passed on is the one given without a trailing letter for bytes |
| SyncArgs.DryRunIsSaid | cmd/syncbridge/execution_plan.go:421-489 | The dry-run flag is among the arguments exactly for a dry run, whatever the job's values |
| SyncArgs.BackupTokenIsThere | cmd/syncbridge/execution_plan.go:421-489 | The backup token is among the arguments exactly for backups, or as an exclude pattern |
| PlanCompilers.Compile | cmd/syncbridge/execution_plan.go:133-252 | A plan is returned exactly under the stated conditions, and what its arguments run, guard and limit, its account, directory and environment are what job and request say; the store accepts its wrapper path; the renderer accepts it if and only if the other kinds' fields are empty and the rendered tool paths printable; an installation goes ahead with it if and only if moreover the paths of its own tools are printable |
| PlanCompilers.PlanAgrees | cmd/syncbridge/wrapper.go:434-532 | The comparison of compiler and renderer behind it |
| PlanCompilers.StrayFieldsRefused | cmd/syncbridge/execution_plan.go:133-252 | A concrete command job with a synchronization engine left in it, request and answers for which everything compiling asks is given, and whose plan the renderer refuses |
| PlanCompilers.UnprintableToolsRefused | cmd/syncbridge/capabilities.go:243-275 | A concrete job without stray fields that compiles with a toolchain the capability report accepts, and whose plan the renderer refuses |
| PlanCompilers.ValidateForInstall | cmd/syncbridge/wrapper.go:52-66 | The checks before an installation, of path, plan and the tools it runs itself, decide the predicate |
| PlanCompilers.ValidatePlan | cmd/syncbridge/wrapper.go:434-532 | The renderer's check decides the predicate |
| PlanCompilers.ValidateEnvironment | cmd/syncbridge/wrapper.go:502-525 | The loop with its seen set decides whether an environment is acceptable |
| PlanCompilers.CompileEnvironment | cmd/syncbridge/execution_plan.go:566-617 | Defaults overridden by the job's valid, unreserved, distinct entries, sorted by name; refused otherwise |
| PlanCompilers.EnvironmentIsSaid | cmd/syncbridge/execution_plan.go:566-617 | An environment is compiled exactly if the job's entries are valid, unreserved and distinct in name; it has just these entries and the default lines whose names they leave free, sorted by name |
| PlanCompilers.EnvironmentAccepted | cmd/syncbridge/execution_plan.go:566-617 | Every environment compiled passes the renderer's check |
| PlanCompilers.ValidateIdentity | cmd/syncbridge/execution_plan.go:254-296 | The identity is granted exactly if it agrees with the host's accounts |
| PlanCompilers.CompileAction | cmd/syncbridge/execution_plan.go:298-335 | An action is compiled exactly if granted; a script's arguments follow its path, a command is the shell's, and a synchronization's arguments ask for what it says |
| PlanCompilers.CompileSync | cmd/syncbridge/execution_plan.go:337-378 | Paths confirmed, apart and fit; the arguments ask for what the job says; the non-empty guard exactly when the mode may delete |
| PlanCompilers.BoundsOf | cmd/syncbridge/execution_plan.go:541-564 | Timeout, grace and mask within their limits, defaults for zero, refused exactly outside |
| PlanCompilers.ReportedTools | cmd/syncbridge/capabilities.go:243-275 | The tools are returned exactly if all are at canonical paths and the profile is known |
| RenderedPlans.AcceptedPlanReadsBack | cmd/syncbridge/wrapper.go:670-700 | For every plan the renderer accepts, a shell reads the wrapper's last command with environment and arguments as they are, exactly when no argument is the backup token |
| RenderedPlans.AcceptedSyncReadsBack | cmd/syncbridge/execution_plan.go:421-489 | For a synchronization: exactly when it makes no backups and excludes no pattern equal to the token |
| LaunchReadings.LaunchesExactly | cmd/syncbridge/wrapper.go:676-692 | Read as setpriv and env read their words, the last command runs under the run's account with its groups, in a fresh environment of the account's variables and the plan's, the plan's arguments, exactly if the first of these has no equals sign |
| RenderedPlans.AcceptedPlanLaunches | cmd/syncbridge/wrapper.go:670-700 | The same of the whole chain, shell included, for every plan the renderer accepts |
| RenderedPlans.AcceptedSyncLaunches | cmd/syncbridge/wrapper.go:670-700 | A synchronization is always launched so, and its arguments ask for what it says |
| RenderedPlans.EqualsSignIsLost | cmd/syncbridge/wrapper.go:676-692 | A concrete script at a path with an equals sign: its plan compiles and is accepted, and is not launched |
| RenderedPlans.ManagedPathIsInstallable | cmd/syncbridge/wrapper.go:331-348 | Every accepted wrapper path can be handed to the installation |
| RenderedPlans.InstallPlan | cmd/syncbridge/wrapper.go:48-140 | A plan that fails a check touches nothing; one that passes all is installed with the guarantees of `Install`, and always so on a host where nothing fails |

## Left out

- HTTP handlers, server-sent events, sessions, remotes, notifications, health checks and the user interface: plumbing around the modelled parts.
- Real processes, signals, `waitid` and `/proc`: their answers are events of the control machine.
- fsnotify, directory walks, globs and signatures: reports and signals may come at any time.
- Cron times: callbacks may fire at any moment, late ones included.
- JSON: the file codec is lossless, so that a file is its decoded content; files changed by others are not modelled.
- Wall-clock values: trims, events and lines carry arbitrary times, and run ids are fresh rather than random.
- The generated script's behaviour beyond its last command's words, and the shell's grammar beyond simple commands.
- System scheduling, trash, toggling and imports other than the tokenizer.
- `RunService`'s panic recovery and terminal hook: calls out of the protocol; removal of a deleted job's history.
- Unsigned 64-bit counters (events, tickets, generations, revisions) are unbounded naturals, and a watch's delays are seconds without an upper limit.
- RunTheorems.HandOver: says nothing about the wrapper on disk, which a stopped predecessor may still be installing.
- RunServices.RunService.Start: the overlap branch adds an ended run without trimming, as in the code, so no bound on ended runs is stated after it.
- ShellWords.TokenizeRoundTrip: strings are sequences of characters, so that ill-formed UTF-8 is not modelled.
- RunServices.RunService.TrimLocked: the trim by age of each run's log buffer (`LogBuffers.LogBuffer.TrimBefore`) in the same loop is not part of it, as the buffers are not part of the service's model.
- SyncReadings.AsksAsIntended: the options' meaning stops at what is asked; what rsync and rclone then do, the syntax of rates and patterns included, is theirs.
- LogLines.Scan: an end of file arrives in a read of its own, and the scanner's limit on the length of a line is not modelled.
- ExecutionHandles.ExecutionHandle.Control: waiting in the handle's Stop and log delivery after the end are not part of the loop; the order of problems found is kept, their texts are not.
- WrapperExec.RenderExec: the text that removes old backups is a parameter, and the directory and retention variables that `renderRuntimeBackup` sets before are not part of it.
- LogBuffers.LogBuffer.TrimBefore: after a trim by age the retained lines are a suffix of the accepted ones but need not be the longest that fits.
- Schedulers.Scheduler.Reconcile: error texts are kinds; errors that callbacks may set while no lock is held are arbitrary.
- WatchManagers.WatchManager.Reconcile: starting the goroutines of the new handles is a step of the protocol's environment, not of the method; which of the retired handles were stopped before a call dereferenced a nil one depends on the order of a Go map and is left open.
- JobRepositories.JobRepository.Create: the lock file is the atomicity of the method; deep copies of jobs are values.
- WrapperStores.WrapperStore.Install: paths are lists of components, the output formats of `stat` and `readlink` are not parsed, no other process changes the host meanwhile, and the checks of path, tools and plan are made beforehand (`RenderedPlans.InstallPlan` joins the two).
- PlanCompilers.Compile: lexical cleaning is the predicate of paths it leaves alone, and the request's time is left out, as no argument depends on it.
- PlanCompilers.CompileEnvironment: decimal conversion is unbounded, as job ids are within range by type.
- HostPaths.WrapperPathIsManaged: the same for reading the id back.
