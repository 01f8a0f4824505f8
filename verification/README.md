# Gateway manager: verified model

This project models the part of the IBKR gateway manager that is hard to get right, and proves what its code and
documentation promise about it. The server supervises several Gateway instances; each has a manager that starts,
stops, upgrades and watches one Java process and its broker session.

| File | What it covers |
|---|---|
| `SessionProtocol.dfy` | One manager as a labelled transition system: events, when they are enabled, what they do, and the decision table of one refresh pass |
| `SnapshotTheorems.dfy`, `TakeoverTheorems.dfy`, `IntentTheorems.dfy`, `SupervisionTheorems.dfy` | What holds over every run of that system |
| `LoginInitialization.dfy`, `RestartBudget.dfy` | The bounded takeover permission and the sliding window of restarts |
| `GatewayManager.dfy`, `PassProgress.dfy`, `ProgramChanges.dfy`, `ManagerRuns.dfy` | The manager as a class, operation by operation; every critical section logs one event, and its invariant says that the log is a run that ends in the current fields |
| `GatewayCalls.dfy` | The manager's operations refine what the configuration transaction assumes of a gateway |
| `SharedHost.dfy`, `HostTheorems.dfy`, `UninspectedExchange.dfy` | Any number of managers, crashes and process deaths on one host; whose process, whose file, and what the idle check can promise |
| `Installation.dfy` | Program trees, renames and YAML files |
| `ProxyListeners.dfy`, `ConfigTransaction.dfy`, `ConfigAcceptance.dfy` | The configuration transaction of the server: acceptance, listeners, gateways, undo |
| `BrowserGrants.dfy`, `LoginLimiter.dfy` | Logins, one-time tickets and grants; the login limiter |
| `LocalTls.dfy` | The local certificate authority |

How to read it. What the outside decides (replies, failing system calls, clock ticks, the moments at which another
goroutine finds a mutex free) is a list the model consumes, so a theorem quantifies over all of it; a list that has
run out fails nothing. A single `mu` section is one step. Between steps of an operation the model lets any cancelled
or stale supervisor run its deferred exit and lets request contexts be cancelled. A context is sheltered if it descends
from the background context or from one without cancellation. Fields of the manager are grouped in the records
`Record`, `Watch` and `Holdings`. Copying one file, with its permissions, counts as one file operation, and so does
removing a tree, which may leave it partly gone.

Where a promise does not hold of the code as it stands, the model follows the code, shows the input that breaks it and
says exactly when the code keeps it:

- The idle check inspects nobody when the live tree is not complete, and a rollback exchanges such a tree: trees are
  exchanged only while nobody unlike the instance runs in them exactly if the installation was complete at the check
  (`HostTheorems.InspectionIsExact`, `UninspectedExchange.RollbackOverStranger`).
- Recovery compares program directory, configuration file and port, never the state directory. Two manager
  configurations that deploy look-alike instances terminate each other's process; within a fleet this is excluded
  exactly if no two instances look alike (`HostTheorems.OwnershipIsExact`, `HostTheorems.MistakenRun`), which one
  accepted configuration guarantees for its own instances.
- The undo of a configuration change goes by the status taken before, which calls a gateway running if its process
  answered the last probe. A supervised gateway that did not answer is left down
  (`ConfigTransaction.RestoredExactly`, `GatewayCalls.ChangeAndUndo`, `GatewayCalls.SilentlySupervised`).
- A manager reads its intent file when it is made, not when it takes the lock; an intent saved by another manager in
  between is not seen. File and memory agree exactly if what the manager saved last is what anyone saved last
  (`HostTheorems.FileAgreesExactly`, `HostTheorems.Handover`).
- A resumed session's supervisor is dead exactly if the manager still has the cancelled context of an earlier failed
  start (`GatewayManager.GatewayManager.ResumeSession`, `ManagerRuns.ResumeAfterFailedStart`).
- A failure of the last two steps of a swap leaves the versions exchanged, and a rollback then ends there without
  going back (`Installation.ProgramTrees.Exchange`, `GatewayManager.GatewayManager.Rollback`).
- A version that does not start is exchanged for the complete one before it exactly if the listing, every copy and both
  renames of the way back work; if not that one stays the rollback (`GatewayManager.GatewayManager.GoBack`). So an
  upgrade or rollback of a complete installation is stuck only if an operation of a way back fails
  (`GatewayManager.GatewayManager.Upgrade`, `GatewayManager.GatewayManager.Rollback`).
- Names added to the local certificate are not withdrawn when a listener change is rolled back
  (`ProxyListeners.NamesStay`, `ConfigTransaction.Service.ApplyConfig`).
- Gateway ports are not compared with the manager's own port (`ConfigAcceptance.ManagerPortIsExact`,
  `ConfigAcceptance.BothOnOnePort`).
- A takeover whose permission is dropped between the action and its attempt, by a supervisor's exit for instance, still
  sends one competing initialisation; it counts towards the three of its action. That never happens while no monitor
  context descends from a request (`ManagerRuns.UngrantedTakeover`, `TakeoverTheorems.UngrantedExactly`,
  `TakeoverTheorems.ShelteredTakeoversAreGranted`).
- The failures that earn a restart are counted by probes alone: an answered logout between them proves the process is
  there and resets nothing (`IntentTheorems.RestartAcrossLogout`, `IntentTheorems.RestartsAreEarned`).

## Model

| member | source | states |
|---|---|---|
| `LoginInitialization.RetryDelay` | gateway/session.go:308-317 | every retry delay lies between five seconds and five minutes, whatever the attempt number |
| `LoginInitialization.AttemptAccounted` | gateway/login_initialization.go:35-57 | an attempt keeps the books of its permission: a grant is at most the third, inside the two-minute window and spaced from the one before; anything else adds no grant |
| `LoginInitialization.ExhaustionIsFinal` | gateway/login_initialization.go:46-49 | a denied attempt denies every later one and changes nothing any more |
| `LoginInitialization.NewLoginAccounted` | gateway/login_initialization.go:21-23 | a new permission owes nothing and waits ten minutes |
| `RestartBudget.KeepRecent` | gateway/tickler.go:109-116 | the filter that writes over the slice it reads leaves exactly the attempts of the last fifteen minutes, in order |
| `RestartBudget.RecentIsSuffix` | gateway/tickler.go:109-116 | on ordered attempts the filter drops exactly those at least fifteen minutes old, which form a prefix |
| `RestartBudget.FilterRemembers` | gateway/tickler.go:109-116 | filtering forgets no restart that is still inside the window |
| `RestartBudget.GrantRemembers` | gateway/tickler.go:117-123 | a grant with fewer than three remembered comes a full window after the third grant before it |
| `SnapshotTheorems.AlwaysConsistent` | gateway/session_state.go:24-35 | over every run the snapshot is consistent: ready iff state ready iff an authentication time is set; an account only when ready; ready implies connected, established, not competing, SSO valid, not stale, no retries |
| `SnapshotTheorems.StepConsistent` | gateway/session.go:231-306 | every writer of the snapshot keeps it consistent |
| `SnapshotTheorems.ReadyVerdict` | gateway/session.go:320-438 | a pass reports ready only on a complete brokerage answer with a valid single sign-on and without an error |
| `SnapshotTheorems.VerdictsAreEarned` | gateway/session.go:320-463 | each verdict of the decision table is earned: ready only on a complete brokerage answer, login required exactly with an expired single sign-on and only after it was rejected, SSO valid only on a ready brokerage or a confirmed validation, competing only if the brokerage said so, takeover required only after a denial or a force-compete failure |
| `SnapshotTheorems.GenerationEdge` | gateway/session.go:267-272 | the session generation moves exactly when a session that was not ready becomes ready, and is then the authentication time |
| `SnapshotTheorems.GenerationsIncrease` | gateway/session.go:18-19 | over a run the generations never go back and the published one is the latest edge |
| `SnapshotTheorems.GenerationsNeverRepeat` | gateway/session.go:18-19 | over any run the published generations strictly increase exactly if the clock moves on between one edge to ready and the next |
| `SnapshotTheorems.StartedConsistent` | gateway/gateway.go:90-103 | a new manager publishes a consistent snapshot |
| `SnapshotTheorems.VerdictsAreCounted` | gateway/session.go:244-306 | the count of verdicts that passes are held to is the number of observations in the log |
| `TakeoverTheorems.AlwaysConserved` | gateway/session.go:320-438 | over every run the takeover books balance: grants since the latest action are at most three, in a two-minute window within twelve minutes of it, spaced by 5 s and then 15 s, and while a permission is pending no more takeovers were sent than granted |
| `TakeoverTheorems.AtMostThreePerAction` | gateway/login_initialization.go:7-11 | counted over the log alone, at most three competing initialisations follow an explicit action, at most three per action in total, and none without one |
| `TakeoverTheorems.ExhaustedMeansSilent` | gateway/login_initialization.go:46-49 | once the permission is exhausted no initialisation of any kind is sent until an action, an invalidation or a ready observation renews it |
| `TakeoverTheorems.InitializationFollowsValidation` | gateway/session.go:363-415 | every initialisation, competing or not, follows a true SSO validation in the same pass |
| `TakeoverTheorems.InitializationIsEarned` | gateway/session.go:378-415 | an initialisation is due only in a recovering pass whose validation said yes, and competes only if the pass was told to or the permission was granted |
| `TakeoverTheorems.ValidationIsInTheLog` | gateway/session.go:363-376 | a validated pass has its own positive validation in the log, after it began |
| `TakeoverTheorems.StartedConserved` | gateway/gateway.go:90-103 | a new manager holds no permission and has sent nothing |
| `TakeoverTheorems.PendingExactly` | gateway/session.go:231-243 | over any run a permission is pending exactly if there was an explicit action and nothing dropped its permission since |
| `TakeoverTheorems.ShelteredTakeoversAreGranted` | gateway/gateway.go:207-241 | over any run in which no monitor context descends from a request, every takeover is granted: never were more sent than granted, pending or not |
| `TakeoverTheorems.StartedCovered` | gateway/gateway.go:90-103 | a new manager is where such a run may begin |
| `TakeoverTheorems.UngrantedExactly` | gateway/login_initialization.go:35-38 | over any run, a competing initialisation is sent without a grant exactly if, between the explicit action it belongs to and the attempt of its pass, the session was cleared, reset or invalidated, observed ready, or invalidated by the current supervisor's exit |
| `IntentTheorems.FileAgreesWithMemory` | gateway/session.go:172-213 | for a fixed state directory the intent this manager saved last equals the one in memory at every moment outside setIntent, and inside it is the new one; HostTheorems.FileAgreesExactly says when that is what the file holds |
| `IntentTheorems.CrashKeepsIntent` | gateway/session.go:141-213 | a crash at any moment restarts with the intent in memory or the one being saved, as long as no other manager wrote the file |
| `IntentTheorems.SilentUntilConnected` | gateway/session.go:320-327 | after a logout or a stop no refresh pass, request or automatic restart happens until an operation connects again |
| `IntentTheorems.RestartsAreSpaced` | gateway/tickler.go:103-124 | over any run the fourth of any four automatic restarts comes at least fifteen minutes after the first |
| `IntentTheorems.RestartsAreEarned` | gateway/session.go:467-477 | every automatic restart is earned by at least three dial failures since the latest answered probe, other failure or restart, and happens only when connected; since the first of them no request of any pass was answered |
| `IntentTheorems.RestartAcrossLogout` | gateway/session.go:539-570 | a run in which a logout is answered between the failures that earn a restart, which is granted all the same |
| `IntentTheorems.AlwaysInSeries` | gateway/session.go:467-477 | over any run no request of a pass was answered since the first failure counted, but for a tickle whose pass is about to reset the count |
| `IntentTheorems.FailuresAreCounted` | gateway/session.go:467-477 | over any run the count of failures is the number of dial failures since the latest reset |
| `IntentTheorems.DesiredChangesOnlyByIntentSet` | gateway/session.go:206-212 | nothing but setIntent moves the desired state |
| `SupervisionTheorems.AlwaysSupervised` | gateway/tickler.go:12-41 | over every interleaving supervisors of an earlier generation are cancelled, the started flag is the current supervisor, and a held lock is the lock of the configured directory |
| `SupervisionTheorems.OneSupervisor` | gateway/tickler.go:10-22 | at any moment at most one supervisor is not cancelled; it is of the current generation and the process lock is held |
| `SupervisionTheorems.PassIsCurrent` | gateway/tickler.go:51-59 | a supervisor's pass runs only in the current generation and under the process lock, and every pass runs while connected |
| `SupervisionTheorems.ReplacementIsLive` | gateway/session.go:529-537 | a supervisor started on a context that only the manager can cancel is live at once |
| `SupervisionTheorems.StepSupervised` | gateway/gateway.go:456-466 | every single step keeps the supervision invariant |
| `SessionProtocol.ReachesReplays` | gateway/session.go:320-438 | a machine whose states follow one another by enabled steps has replayed exactly that legal log |
| `PassProgress.RefusedMeans` | gateway/session.go:440-450 | after a brokerage 401 the decision table leads to one SSO recheck and to the verdict that depends on it |
| `PassProgress.FailingMeans` | gateway/session.go:452-463 | after a failure answer the decision table leads to the retry check and to the verdict that depends on it |
| `GatewayManager.GatewayManager.constructor` | gateway/gateway.go:90-103 | a new manager is between operations with an empty log and the saved intent in force, stopped with an error if the file cannot be read |
| `GatewayManager.GatewayManager.DeferredExit` | gateway/tickler.go:24-34 | the deferred exit of a supervisor touches the session only if its generation is current and its context is done |
| `GatewayManager.GatewayManager.Yield` | gateway/tickler.go:24-34 | what asynchronous steps may change while an operation holds the operation mutex |
| `GatewayManager.GatewayManager.Invalidate` | gateway/session_state.go:27-35 | the common way out of an observed session drops permission, account, age and every flag |
| `GatewayManager.GatewayManager.ClearSession` | gateway/session.go:231-243 | the whole session record after clearing, and the one step logged for it |
| `GatewayManager.GatewayManager.SetLifecycle` | gateway/gateway.go:114-130 | the record after a lifecycle change; every state but running and authentication required invalidates the session |
| `GatewayManager.GatewayManager.BeginLogin` | gateway/session.go:508-523 | an explicit action creates a fresh permission and arms a takeover only when told to |
| `GatewayManager.GatewayManager.SetIntent` | gateway/session.go:172-213 | either nothing changed, or file and memory hold the new intent; a cancelled supervisor's exit may come in between |
| `GatewayManager.GatewayManager.Send` | gateway/session.go:98-139 | the pass asks only what is due next and its reply is the newest log entry; an answer in time marks the process online, a transport failure leaves that as it was, and only a competing initialisation counts as one |
| `GatewayManager.GatewayManager.NoteProbeFailure` | gateway/session.go:467-477 | a dial failure adds one to the failures that earn a restart and marks the process offline; any other failure resets the count |
| `GatewayManager.GatewayManager.AttemptLogin` | gateway/login_initialization.go:35-57 | the step-by-step attempt answers and leaves what the window of the permission says |
| `GatewayManager.GatewayManager.WriteVerdict` | gateway/session.go:246-300 | the field-by-field observation publishes the record that the snapshot theorems are about |
| `GatewayManager.GatewayManager.ScheduleRetry` | gateway/session.go:276-294 | the retry count and time shown to the operator follow the permission while one is pending, else the backoff |
| `GatewayManager.GatewayManager.Observe` | gateway/session.go:244-249 | a pass ends with its verdict published, or without one if its context was cancelled |
| `GatewayManager.GatewayManager.RefreshSession` | gateway/session.go:320-438 | nothing at all happens unless connected; otherwise exactly one verdict is published if the context is still there at the end, and at most one in any case; a pass told to compete that meets an uninitialised brokerage, a confirmed single sign-on and no permission pending sends one takeover without a grant |
| `GatewayManager.GatewayManager.ValidateSso` | gateway/session.go:363-388 | the validation is asked and heard; a rejection publishes login required, an unclear answer unknown, a confirmation without need or leave to initialise publishes initializing; only otherwise may an initialisation be sent |
| `GatewayManager.GatewayManager.InitializeBrokerage` | gateway/session.go:412-423 | one initialisation is sent and heard, and counts as competing exactly if the pass was told to or a grant was given; a 401, a lost request and a failure answer each determine what the verdict reports |
| `GatewayManager.GatewayManager.ObserveUnauthorized` | gateway/session.go:440-450 | a 401 from the brokerage ends in login required exactly if the recheck rejects the single sign-on, in a valid one exactly if it confirms it, and reports the 401 |
| `GatewayManager.GatewayManager.ObserveFailure` | gateway/session.go:452-463 | an initialisation failure ends in competing exactly if the brokerage competes and the permission, as looked up in this pass, is not active, in takeover required exactly on the force-compete failure without an active permission, else in recovering |
| `GatewayManager.GatewayManager.AcquireProcessLock` | gateway/process.go:40-69 | a lock already held is kept; otherwise only the configured directory's lock can be taken, and success is holding it |
| `GatewayManager.GatewayManager.ReleaseProcessLock` | gateway/process.go:71-79 | the lock is given up only with no live supervisor and no context |
| `GatewayManager.GatewayManager.LockInstallation` | gateway/shared_install.go:18-35 | the install lock is that of the configured program directory, and taking it forgets any earlier idle check |
| `GatewayManager.GatewayManager.CheckInstallationIdle` | gateway/shared_install.go:39-65 | the idle check holds only under the install lock, passes over no process but the one that recovery takes for its own, and without a complete installation passes uninspected |
| `GatewayManager.GatewayManager.Recover` | gateway/process.go:335-371 | recovery takes a process whose program, configuration file and port are the configured ones, whoever started it, and nothing else |
| `GatewayManager.GatewayManager.CancelMonitoring` | gateway/gateway.go:456-466 | afterwards no supervisor is live, none counts as started and the generation has moved on |
| `GatewayManager.GatewayManager.StartTickler` | gateway/tickler.go:12-22 | a second supervisor is never started; the one started is of a new generation and live if its context is sheltered |
| `GatewayManager.GatewayManager.EnsureSessionMonitor` | gateway/session.go:529-537 | afterwards a supervisor is started, and it is live exactly if there was no context or the one there was is not cancelled |
| `GatewayManager.GatewayManager.StopProcess` | gateway/process.go:205-245 | success means the lock is held and the process is offline; each process terminated is logged, looks like the instance's own, and is terminated only under the lock |
| `GatewayManager.GatewayManager.EnsureRunning` | gateway/process.go:95-203 | whatever happens the live program keeps its version and every YAML file; without failures the process runs |
| `GatewayManager.GatewayManager.EnsureInstalled` | gateway/installation.go:19-56 | an existing installation keeps its version and YAML files; success leaves a complete one, of the bundled or pinned version if it is new |
| `GatewayManager.GatewayManager.StartWithInstallationLock` | gateway/gateway.go:207-241 | a start ends either running and supervised under the lock, or in the error state with no supervisor; a sheltered one is live; it never moves the live tree away |
| `GatewayManager.GatewayManager.Start` | gateway/gateway.go:186-196 | success means connected, in file and memory, running and supervised; without failures it succeeds |
| `GatewayManager.GatewayManager.AutoStart` | gateway/session.go:216-229 | without a connected intent nothing at all happens |
| `GatewayManager.GatewayManager.StopGatewayLocked` | gateway/gateway.go:285-318 | success leaves no supervisor, no lock and nothing published as known, detached or stopped; a failed stop keeps the lock |
| `GatewayManager.GatewayManager.StopGateway` | gateway/gateway.go:273-283 | success means the stop is saved and the manager at rest |
| `GatewayManager.GatewayManager.Shutdown` | gateway/gateway.go:253-263 | shutting down never changes the saved intent, and detaches exactly the persistent instances |
| `GatewayManager.GatewayManager.Reconfigure` | gateway/gateway.go:148-183 | success runs the new configuration under its own lock with the intent saved there; any lock still held is that of the current configuration |
| `GatewayManager.GatewayManager.RestoreConfiguration` | gateway/reconfigure.go:7-41 | success restores configuration, intent and the running, detached or stopped state; nothing is terminated without owning the directory |
| `GatewayManager.GatewayManager.Upgrade` | gateway/gateway.go:361-410 | active means the pinned release is live and the old tree is the rollback; aborted and reverted mean the program live before is live again with every YAML file; stuck means it is the rollback. From a complete installation the coming file operations decide: if the download is complete and those of preparing and activating it work, the upgrade is active, reverted, or stuck with its last or last but one operation failed; if not it is stuck exactly if the activation and its own way back fail, else aborted. Without failures and with a complete download it is active; every time the live tree moved away an exchange had been logged |
| `GatewayManager.GatewayManager.Rollback` | gateway/gateway.go:415-454 | active means the rollback's program is live with the live YAML files and the old tree is the rollback; unfinished the same but for a last step that failed; aborted and reverted mean the program live before is back; stuck means it is the rollback, or set aside with nothing live. The coming file operations decide: if those of the swap work it is active, reverted, or, from a complete installation, stuck only with its last or last but one operation failed; if not it is unfinished exactly if the first two renames work, stuck exactly if the second and its compensation fail, else aborted. Every exchange of a live tree is logged, and an incomplete one is exchanged uninspected |
| `GatewayManager.GatewayManager.ExchangeTrees` | gateway/gateway_install.go:210-231 | an exchange of an existing live tree, complete or not, is logged before the trees move; it takes effect exactly if both trees are there, the rollback complete, and the copies and first two renames work, completes exactly if all of them do, and leaves nothing live exactly if the second rename and its compensation fail |
| `GatewayManager.GatewayManager.Settle` | gateway/gateway.go:383-405 | a version that does not start is exchanged for the complete one before it, files included, exactly if the file operations of the way back work from the moment `trial` of the call on, when the version tried was live; otherwise the last or last but one operation of the call failed, the previous version stays the rollback, and the version tried is kept too |
| `GatewayManager.GatewayManager.GoBack` | gateway/gateway.go:386-399 | the way back takes effect exactly if the previous version is complete and its copies and two renames work, whatever failed before; if a complete one does not come back the last or last but one file operation failed; in every case both programs are kept, and without effect the previous one stays the rollback |
| `ProgramChanges.SoundDiskReverts` | gateway/gateway.go:386-399 | a change of a complete installation that ends stuck met a failing file operation, in the upgrade and in the rollback |
| `ProgramChanges.SettledUpgrade` | gateway/gateway.go:381-405 | installing the download and settling it make up the course of an upgrade |
| `ProgramChanges.AbortedUpgrade` | gateway/gateway.go:381-387 | an installation that failed is stuck exactly if the activation and its way back fail |
| `ProgramChanges.SettledRollback` | gateway/gateway.go:437-452 | a completed swap and settling it make up the course of a rollback |
| `ProgramChanges.RefusedRollback` | gateway/gateway.go:434-436 | a swap that did not complete is unfinished, stuck or aborted by the operation that failed |
| `ProgramChanges.UpgradeLosesNothing` | gateway/gateway.go:361-410 | an upgrade may end in any way, stuck included: the program that was live is still in a lasting place |
| `ProgramChanges.RollbackLosesNothing` | gateway/gateway.go:415-454 | a rollback may end in any way, stuck included: the program that was live and the one that was the rollback are both still in a lasting place |
| `GatewayManager.GatewayManager.Reserve` | gateway/gateway.go:361-374 | trees are exchanged only under the install lock, after the idle check and under the process lock |
| `GatewayManager.GatewayManager.RestartLocked` | gateway/gateway.go:502-527 | a restart ends running with a live supervisor of a later generation, or failed with none and in the error state |
| `GatewayManager.GatewayManager.Restart` | gateway/gateway.go:484-500 | a restart connects a stopped instance and keeps any other intent |
| `GatewayManager.GatewayManager.ForgetOldRestarts` | gateway/tickler.go:109-116 | the manager remembers exactly the restarts of the last fifteen minutes |
| `GatewayManager.GatewayManager.ShouldRestartProcess` | gateway/tickler.go:103-124 | a grant needs the intent, three failures and room in the window, and these are enough; it resets the count and is booked once |
| `GatewayManager.GatewayManager.SupervisorPass` | gateway/tickler.go:46-72 | a cancelled supervisor does nothing and a live one runs a pass; every granted restart is carried out, and failed or not leaves exactly one live supervisor of a later generation |
| `GatewayManager.GatewayManager.NextSessionDelay` | gateway/tickler.go:80-101 | the supervisor waits between five seconds and five and a half minutes, at least the published retry delay outside the fixed waits |
| `GatewayManager.GatewayManager.RecoverSession` | gateway/session.go:479-504 | success is a ready session; in any case without failures the intent is connected and a supervisor started, live exactly if the manager had no context or an uncancelled one |
| `GatewayManager.GatewayManager.ResumeSession` | gateway/session.go:508-527 | success means connected, login required, a fresh permission and a started supervisor, which is live exactly if the manager had no context or an uncancelled one |
| `GatewayManager.GatewayManager.Logout` | gateway/session.go:539-570 | once the intent is saved the session is logged out for good, confirmed or not, and only a confirmation expires the single sign-on |
| `GatewayManager.GatewayManager.EnsureAuthenticated` | gateway/gateway.go:468-476 | success is exactly a ready session; intent and locks are left alone |
| `ManagerRuns.Serve` | gateway/gateway.go:54-59 | after any sequence of calls, in any order, the manager is between operations and its log is a legal run |
| `ManagerRuns.AtEveryMoment` | gateway/gateway.go:54-59 | at every moment of every sequence of calls the snapshot is consistent, takeovers are at most three per action, one supervisor is live at most, and restarts keep to the budget |
| `ManagerRuns.ResumeAfterFailedStart` | gateway/session.go:508-537 | a start that finds no program fails after it made its context, the caller's context ends, and the session is resumed: connected, counted as supervised, and no supervisor is live |
| `ManagerRuns.UngrantedTakeover` | gateway/session.go:387-415 | between an explicit takeover and its pass the starter's context ends and the supervisor that leaves drops the permission; the pass sends its one competing initialisation, and none was granted |
| `GatewayCalls.StartGateway` | internal/service/server.go:27-37 | what the transaction takes a start to do is what the manager's start guarantees |
| `GatewayCalls.StopGateway` | internal/service/server.go:27-37 | the same for a stop |
| `GatewayCalls.Reconfigure` | internal/service/server.go:27-37 | the same for a reconfiguration, which runs exactly if the intent is connected |
| `GatewayCalls.Restore` | internal/service/configuration.go:287-301 | the same for the undo: configuration, intent, and detached if it was, else running exactly if the status taken before called it running |
| `GatewayCalls.ChangeAndUndo` | internal/service/configuration.go:233-252 | after a change, failed or not, and a successful undo the manager looks as if it had never been called exactly if its status had told where it was; a supervised one that did not answer its last probe is left down, unlocked and unsupervised |
| `GatewayCalls.SilentlySupervised` | gateway/gateway.go:320-336 | any manager that is started without failures and then asked for its session while its process does not answer is running and supervised, and its status does not tell so |
| `SharedHost.EveryMoveIsLawful` | gateway/shared_install.go:16-65 | in every interleaving of any number of managers, crashes and process deaths: an intent file is written, a process started or one that looks like the instance's own terminated only under the configured directory's one lock, and trees are exchanged only while nobody else holds the install lock and, if the installation was inspected, nobody runs in it but processes that look like the instance's own |
| `SharedHost.MoveSound` | gateway/process.go:40-79 | every move keeps host and managers agreed on who holds which lock, and every inspection true |
| `SharedHost.KeepsIdle` | gateway/shared_install.go:37-65 | only the holder of the install lock starts a process, and one of its own, so what an inspection found lasts while the lock is held |
| `SharedHost.FreshHostIsSound` | gateway/gateway.go:90-103 | freshly started managers are sound over any processes left running |
| `HostTheorems.OwnershipIsExact` | gateway/process.go:247-371 | in every run of a fleet a process is terminated only by the holder of its directory's lock, and inspected trees are exchanged only while no other instance runs in them, exactly if no two instances of the fleet share program, configuration file and port |
| `HostTheorems.MistakenRun` | gateway/shared_install.go:39-65 | for any two instances that do: a run in which the second manager takes the first one's process for its own, passes the idle check over it, terminates it while the first holds its lock, and exchanges the trees |
| `HostTheorems.AcceptedTellApart` | internal/appconfig/config.go:294-458 | instances of one accepted configuration never look alike, so only two configurations together can clash |
| `HostTheorems.InspectionIsExact` | gateway/shared_install.go:39-42 | when trees are about to be exchanged, nobody but processes that look like the instance's own can run in the directory exactly if the idle check inspected it |
| `HostTheorems.IdlenessIsExact` | gateway/shared_install.go:37-65 | in a fleet, no other instance can run there exactly if every other one that shares the program can be told apart and the directory was inspected |
| `UninspectedExchange.RollbackOverStranger` | gateway/gateway.go:415-437 | a rollback over a live tree that is not complete succeeds, and its log is a run of the host in which the trees are exchanged under the process of another instance |
| `HostTheorems.KnowledgeIsExact` | gateway/session.go:172-213 | what a manager knows of an intent file stays true until another manager saves there, and then exactly if it saves the same intent |
| `HostTheorems.LockKeepsKnowledge` | gateway/process.go:40-79 | while a manager keeps a directory's lock, what it knows of its intent file stays true |
| `HostTheorems.FileAgreesExactly` | gateway/session.go:141-213 | over every run of the host and any number of managers: the file agrees with a manager's memory outside setIntent, and holds the new intent inside it, exactly if the intent that this manager saved last in the directory is the one that anyone saved last; and exactly then a crash reloads it |
| `HostTheorems.AlwaysTracks` | gateway/session.go:172-213 | over every run the file holds what anyone saved last, and the manager takes it to hold what it saved last itself |
| `HostTheorems.Handover` | gateway/session.go:216-229 | a run in which a manager takes the lock of a directory after another one saved there that the instance is stopped, and still wants to be connected |
| `Installation.ProgramTrees.Activate` | gateway/gateway_install.go:182-208 | over a complete live tree it succeeds exactly if its four operations work; after a failure the tree from before is live, or in the rollback place exactly if both moves work, the third or fourth operation fails and so does the way back; it is never lost |
| `Installation.ProgramTrees.Swap` | gateway/gateway_install.go:210-231 | the versions are exchanged with the live YAML files carried along exactly if the copies and the first two renames work, even when one of the last two steps fails; nothing is live afterwards exactly if the second rename and its compensation fail; the live tree is in a lasting place at every intermediate rename |
| `Installation.ProgramTrees.Exchange` | gateway/gateway_install.go:218-231 | the live tree is never lost between the renames, and each outcome names where both trees are; the versions are exchanged exactly if the first two renames work, and it succeeds exactly if the third rename and the step after it do too |
| `Installation.ProgramTrees.PreserveConfigs` | gateway/shared_install.go:69-89 | it succeeds exactly if the listing and every single copy work; then every YAML file of the source is over the destination's, which keeps its others; the source is untouched |
| `Installation.ProgramTrees.InstallRelease` | gateway/gateway_install.go:112-141 | it succeeds exactly if the download is complete, the live place holds a complete tree or none, and every operation of preparing and activating it works, and then the wanted version is live with every live YAML file kept; a failure leaves the old tree live, or in the rollback place exactly if the activation and its way back fail |
| `Installation.ProgramTrees.Prepare` | gateway/gateway_install.go:164-180 | it succeeds exactly if the download is complete and its operations work; then the staged tree is complete and has every live YAML file; every other file is the shipped one, and only the default configuration may be patched |
| `Installation.ProgramTrees.EnsureConf` | gateway/runtime_files.go:13-25 | only the instance's own YAML file changes, and only by patching; the file is broken only if a write was cut short |
| `Installation.ProgramTrees.Maintain` | gateway/gateway_install.go:164-231 | over any sequence of installs, swaps and patches every YAML file ever live stays live, changed only by patches of the instance it belongs to and unbroken unless one of them was cut short, until a compensating rename fails; then the last live tree is still in a lasting place; where nothing fails none of this happens |
| `Installation.TwoSwapsRestore` | gateway/gateway.go:412-414 | two completed swaps bring both versions back, the live YAML files unchanged |
| `ProgramChanges.RoundTrip` | gateway/gateway.go:386-399 | exchange, try, exchange back: the version from before is live again with every YAML file, each patched by its own instance only |
| `ProgramChanges.TwoRollbacks` | gateway/gateway.go:412-414 | two rollbacks that took effect bring the version back, with every YAML file |
| `ProgramChanges.SwapWentBack` | gateway/gateway_install.go:210-231 | a swap followed by a start leaves the rollback's version live with the live YAML files |
| `ProgramChanges.StillExchanged` | gateway/gateway.go:383-385 | trying the new version does not touch the rollback |
| `ProxyListeners.Listeners.Start` | internal/service/listeners.go:50-85 | all listeners of the configuration are opened, or none; without failures they are if every address is free |
| `ProxyListeners.Listeners.Prepare` | internal/service/listeners.go:254-332 | failure leaves every socket as it was; success serves exactly the new configuration in its next tables and opened exactly what is new; it succeeds whenever no address changes hands, no scheme changes in place and every address is free; the local certificate gains the new names exactly if it succeeds or the shared listener stays, and may if a new one cannot be opened |
| `ProxyListeners.Listeners.Rollback` | internal/service/listeners.go:334-342 | exactly the old set is open again |
| `ProxyListeners.Listeners.Commit` | internal/service/listeners.go:344-363 | exactly the next tables and the shared listener are open, or none if the listeners were shut down meanwhile |
| `ProxyListeners.Listeners.Shutdown` | internal/service/listeners.go:215-235 | every published listener is closed and nothing else |
| `ProxyListeners.Listeners.Relisten` | internal/service/listeners.go:254-363 | prepare, then rollback or commit, with a shutdown in between or not: no socket leaks and none is lost, and prepared names stay in the certificate |
| `ProxyListeners.NamesStay` | internal/service/listeners.go:303-310 | a change of names prepared and rolled back: sockets and tables are as before, the certificate keeps the new name |
| `ProxyListeners.Joined` | internal/service/listeners.go:296-332 | retired is current without next and started is next without current, for the dedicated and the shared listeners |
| `ProxyListeners.RetiredOnly` | internal/service/listeners.go:344-363 | closing what is retired leaves exactly the next tables open |
| `ProxyListeners.ClosingUndoes` | internal/service/listeners.go:334-342 | closing what was started gives back the sockets from before, also after a shutdown |
| `ProxyListeners.SplitDivides` | internal/service/listeners.go:267-300 | the loop's tables divide the old and the new sockets, and kept instances keep theirs |
| `ConfigTransaction.Service.ApplyConfig` | internal/service/configuration.go:154-283 | failure at any point leaves configuration, file, registry, proxies, credentials and listeners untouched; each called gateway has one undo entry pushed before its call; the entries run once each in reverse; if all succeed every new gateway is down, each old one that was called is restored to what the registry says of it, and an old one is where it was exactly if it was never called, or ran what the registry says and its status had told where it was; success puts every gateway where the new configuration wants it; a permitted change in which nothing fails succeeds; names that reached the local certificate stay |
| `ConfigTransaction.Service.RollBack` | internal/service/configuration.go:178-188 | every undo entry is run once, the latest first, even when some fail |
| `ConfigTransaction.Service.ChangeOne` | internal/service/configuration.go:216-255 | a new instance is started, a changed one reconfigured, a removed one stopped, and nothing else is called |
| `ConfigTransaction.Service.Attempt` | internal/service/configuration.go:221-253 | the undo entry is pushed before the one call it undoes |
| `ConfigTransaction.Service.MakeManagers` | internal/service/configuration.go:192-215 | old instances keep their manager, new ones get one of their own that is down, and no gateway changes |
| `ConfigTransaction.Service.Publish` | internal/service/configuration.go:259-282 | registry, credentials and listeners follow the file together |
| `ConfigTransaction.Service.Withdraw` | internal/service/configuration.go:178-188 | the old sockets are open again and every called gateway was compensated |
| `ConfigTransaction.UndoRestores` | internal/service/configuration.go:287-301 | if every entry succeeds, every old gateway that was called is restored to the configuration the registry gives it and its old intent, detached or running as its status said, every other one is untouched and every new one is down |
| `ConfigTransaction.RestoredExactly` | gateway/reconfigure.go:28-40 | a restored gateway is what it was exactly if it gets its own configuration and it was detached or its status called it running just when it ran; a silent one is left down |
| `ConfigTransaction.BackExactly` | internal/service/configuration.go:178-188 | after a successful undo an old gateway is where it was exactly if it was never called, or ran what the registry says and its status had told |
| `ConfigTransaction.SingleDistinct` | internal/service/configuration.go:177-188 | no gateway has two undo entries |
| `BrowserGrants.DeadForever` | internal/service/auth.go:183-190 | once a manager login is revoked or expired no grant it owns is ever accepted, no ticket it owns redeemed and none issued, also when the ticket was inserted after the revocation |
| `BrowserGrants.LoginsDie` | internal/service/auth.go:329-341 | logging out, replacing the login and the passing of its time all kill it |
| `BrowserGrants.GrantsAreTraced` | internal/service/auth.go:52-64 | every accepted grant was redeemed exactly once, from a ticket issued after the latest logout, removal or token rotation of its instance |
| `BrowserGrants.RedeemedOnce` | internal/service/auth.go:136-153 | no ticket is redeemed twice and no grant drawn twice |
| `BrowserGrants.AlwaysTraced` | internal/service/configuration.go:264-280 | at every moment every ticket and grant has its issue and redemption in the log, with no reset of its instance since |
| `BrowserGrants.GrantSurvives` | internal/service/server.go:276-292 | a grant outlives everything but its own time, its login's end and a reset of its own instance |
| `BrowserGrants.LoginSurvives` | internal/service/configuration.go:263-272 | a manager login outlives everything but its own time and its own end |
| `BrowserGrants.Grants.BeginIssue` | internal/service/auth.go:82-100 | a ticket is begun only for a configured instance and an API credential or an honoured login, whose end it inherits |
| `BrowserGrants.Grants.FinishIssue` | internal/service/auth.go:101-105 | the second section inserts the ticket whatever happened to its login in between |
| `BrowserGrants.Grants.Consume` | internal/service/auth.go:136-153 | a grant is given exactly if ticket, login and instance are all good, and the ticket is gone in any case |
| `BrowserGrants.Grants.Authorized` | internal/service/auth.go:42-66 | a cookie is accepted exactly if it is a live grant for that instance whose login is honoured |
| `BrowserGrants.Grants.Login` | internal/service/auth.go:258-276 | a new login replaces the one of the same browser, with everything that one owned |
| `BrowserGrants.Grants.Revoke` | internal/service/auth.go:329-341 | the login, its grants and its tickets are gone, and nothing else |
| `BrowserGrants.Grants.LogoutGateway` | internal/service/server.go:276-292 | the instance's grants and tickets are gone, and nothing else |
| `BrowserGrants.Grants.Publish` | internal/service/configuration.go:260-281 | what belongs to a removed or rotated instance is gone, and nothing else |
| `BrowserGrants.Grants.ManagerSession` | internal/service/auth.go:192-205 | a cookie stands for a login exactly if it is one and has not expired |
| `LoginLimiter.Limiter.Allow` | internal/service/auth.go:350-379 | an attempt is allowed exactly while the peer's window has room or a new one fits the table, which never exceeds 4096 peers of at most twenty attempts |
| `LoginLimiter.NoMinuteHoldsMore` | internal/service/auth.go:343-379 | no half-open minute holds more than forty allowed attempts of one peer, over any run |
| `LoginLimiter.FortyPerMinute` | internal/service/auth.go:350-379 | of any forty-one allowed attempts in a row the last is a minute or more after the first |
| `LoginLimiter.AttemptRemembers` | internal/service/auth.go:367-377 | an allowed attempt extends the peer's window or opens one after the last is over |
| `ConfigAcceptance.Validate` | internal/appconfig/config.go:294-458 | the loop accepts exactly when the declarative predicate holds, in whatever order the map is ranged over, and what it accepts is each instance normalised on its own |
| `ConfigAcceptance.TurnIsExact` | internal/appconfig/config.go:338-441 | one turn finds a collision exactly when the instances so far and this one do not fit together |
| `ConfigAcceptance.ProgramsGrow` | internal/appconfig/config.go:341-349 | comparing with the latest user of a program only is enough to find every shared independent installation |
| `ConfigAcceptance.ClashIsExact` | internal/appconfig/config.go:442-458 | the checks after the loop decide exactly whether proxy, gateway, shared and manager ports are apart and TLS is configured |
| `ConfigAcceptance.ManagerPortIsExact` | internal/appconfig/config.go:442-458 | an accepted configuration is accepted with the manager on another port exactly if no proxy listens there |
| `ConfigAcceptance.GatewayPortIsNotCompared` | internal/appconfig/config.go:442-458 | so the manager may be put on the port of any of its gateways and the configuration is still accepted |
| `ConfigAcceptance.BothOnOnePort` | internal/appconfig/config.go:442-458 | an accepted configuration with a gateway and the manager on port 5680 |
| `ConfigAcceptance.Rejects` | internal/appconfig/config.go:294-441 | a collision among some of the instances is one among all of them |
| `ConfigAcceptance.ExaminedTwice` | internal/appconfig/config.go:634-635 | an accepted instance, saved and loaded again, is accepted and nothing of it moves |
| `ConfigAcceptance.NormalizedTwice` | internal/appconfig/config.go:520-598 | normalisation leaves alone what it has settled |
| `ConfigAcceptance.DefaultedStays` | internal/appconfig/config.go:520-571 | the global defaults choose the same directories again for an instance they were applied to |
| `ConfigAcceptance.HousedStays` | internal/appconfig/config.go:573-598 | the installation mode chooses the same program again |
| `LocalTls.Manager.GetCertificate` | internal/localtls/localtls.go:106-122 | whatever the clock did between calls, a certificate handed out has more than thirty days less an hour left at the earlier of the two readings of a call, is valid at the later one as far as its beginning goes, and is from the known authority; one is handed out whenever nothing fails and the authority can still issue |
| `LocalTls.Manager.Refresh` | internal/localtls/localtls.go:124-235 | success leaves identity, export and memory equal, every wanted name in the certificate and more than thirty days on it; failure changes nothing in memory; the authority never changes on disk |
| `LocalTls.Manager.EnsureHosts` | internal/localtls/localtls.go:90-102 | names are only ever added, and success puts them all in the certificate on disk |
| `LocalTls.Run` | internal/localtls/localtls.go:124-235 | any number of managers on one directory, with failed or interrupted writes and any clock: the authority is made at most once, never changes, leaves end before it, and names only grow |
| `LocalTls.Store.WriteIdentity` | internal/localtls/localtls.go:337-357 | the identity is replaced as a whole or not at all |
| `LocalTls.EvolvesOn` | internal/localtls/localtls.go:124-235 | keeping the authority and growing the names composes over runs |

## Left out

- HTTP, JSON, URL, path and regular expression text; cookies and headers; origins, addresses and directories are values with an abstract canonical form.
- Cryptography, X.509 encoding, archives and downloads: a download is a tree or nothing, a certificate its names, issuer and times.
- Case folding outside ASCII, where the text of a brokerage error is compared.
- `ps`, `lsof`, signals and the text of process records: which process turns up, whether it answers or survives is a choice of the outside, limited to processes that run and look like the instance's own; a killed process may take a moment to go.
- The audit log, log pruning and file permissions, except that a permission call may fail.
- Bare `UpdateConfig` with a lock held and `StartTickler` with a context of another owner, which the program's own callers never use.
- `StartProxyListeners` between prepare and commit, and concurrent operations on the server, which its operation mutex excludes.
- Managers without `RestoreConfiguration`, for which only best-effort compensation is promised.
- The flag that refuses a second concurrent restart; the operation mutex is what keeps restarts apart.
- Normalisation of the server-wide settings before the instance loop; the loop takes them as given.
- The order in which instances are changed (sorted by name in the program): the transaction is proved for every order.
- ConfigTransaction.Service.ApplyConfig: what a gateway's own supervisor changes while the transaction is under way is seen only as any answer to the latest probe after a call.
- SharedHost.EveryMoveIsLawful: the first installation into an empty place, where no live tree exists, is not counted as an exchange of trees.
- LocalTls.Manager.EnsureHosts: names outside the local domain are refused before this point and do not reach the model.
