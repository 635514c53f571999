# A verified model of agentseek-api

This project models the parts of agentseek-api whose correctness is hardest to see by reading one
function, and proves what its code and documentation rely on. `dafny verify dfyconfig.toml` checks it.

- **Worker** (`Worker*.dfy`). `run_worker` is a step system with one action per stretch of code between
  two awaits, one per Redis command taking effect, one per step of a job task, and one per thing that can
  go wrong: the lease expires, a signal arrives, a task is cancelled, a process crashes, another worker
  starts. Actions that are not enabled change nothing, so the theorems quantify over every sequence of
  actions. `WorkerLoop` is the coroutine with its local variables, proved equal to those steps.
  `WorkerProgress` has the runs a worker can always make, and why it returns or raises.
- **Foreground child** (`SignalGuard`, `Posix*`, `WindowsLauncher`). The signal guard is modelled with a
  signal between any two statements, those of the handler included. The POSIX child runs against a script
  of operating-system replies in which any call may fail or be interrupted; its world remembers when a
  signal was raised, whether a call failed and how often polling ran out of time, and `PosixDriver` says
  from that history what the driver answers. The Windows launcher runs against a kernel in which every
  native call may fail and which remembers the jobs set to kill on close and the threads resumed.
- **Per-user store** (`RuntimeStore`, `StoreBase`, `StoreIsolation`, `StoreWrapper`, `Ordering`). The shared
  store is a list of items; the wrapper prefixes namespaces. A user's view is the part below the user's
  prefix. `StoreBase` says what the private store a user seems to have answers.
- **Container manifest** (`JsonValues`, `Manifest*`, `ContainerPaths`, `RuntimePolicy`, `Policy*`,
  `GraphReferences`). Freezing of JSON values, the printer, the validating parser, the planner's translation
  of a host config, and the effective policy read from either.
- **Cron** (`Calendar`, `CronRule`, `CronNext`, `CronScheduler`, `CronRounds`, `CronClaims`, `CronService`). The
  proleptic Gregorian calendar, the five alignments of `cron_rrule.py` in a fixed-offset zone, and the
  claiming rounds of the scheduler, over runs that also patch, create and delete crons.
- **Environment** (`OrderedDict`, `Environment*`). Dotenv resolution with file-local interpolation and the
  in-place merge of six layers, on POSIX and with Windows names. `EnvironmentPlan` gives the value of every
  name from the plan's own fields.
- **Streams and the Compose file** (`RunStream`, `A2AStream`, `ComposeEnv`).

Where a promise holds only under a condition, the model keeps the code as it is and a lemma says exactly
when it holds:

- A signal that arrives while the handler of the first one has not yet left the state "waiting" is raised
  in its place; the first is then neither raised nor forwarded (`OvertakenSignalIsLost`).
- Of the signals that arrive before the guard delivers, one is raised and every other is dropped, neither
  raised nor forwarded (`FateOfEverySignal`, `SecondSignalIsDropped`).
- A signal delivered when the mask is restored after a reap makes the driver report a clean end although
  the group was last seen with members (`TornReapHidesSurvivors`).
- A suffix condition that matches into the user prefix, a negative depth, and the user id `*` break the
  private view (`SuffixAgreesExactly`, `DepthAgreesExactly`, `WildcardUserExactly`).
- MINUTELY rules align for every starting time exactly when INTERVAL divides 60 or 59, HOURLY rules when
  it divides 24 or 23. The 24 months searched suffice exactly when INTERVAL is at most 23 for a day every
  month has, at most 11 for the 29th or the 30th, and 1, 2, 3, 4, 6 or 11 for the 31st
  (`MonthSearchExactly`).
- Explicit nulls under `http.cors` or `auth.openapi`, and an `http.app` path that already begins with
  `/deps/agent/`, can change the effective policy (`PolicyPreservedExactly`; `PolicyChanges` has a config
  for each); a graph hook that reads like a reference rewritten before it is put in the wrong field
  (`RewrittenUnlessCollision`; `TwinsCollide` is a project where it happens).
- A patch that leaves a cron on with its next run computed anew, by a clock that is behind an occurrence
  already fired, can make that occurrence fire again; no other patch can (`PatchKeepsExactly`,
  `BehindRefires`).
- `_allowed_ambient` looks at the interpolation scope even when it serves the assignment scope
  (`environment.py:456-461`); the result is independent of ineligible launch variables exactly when
  neither scope admits all names.

Assumptions about code that is not modelled: `BRPOPLPUSH`, `RPOPLPUSH`, `LREM` and the acknowledgement
script are each atomic; the base store pages in insertion order and lists namespaces in Python's tuple
order; loading a run's records returns all those above the cursor in ascending order; a claim round is one
transaction; only this supervisor reaps its child.

## Model

| member | source | states |
|---|---|---|
| WorkerRuns.NoTokenIsLost | src/agentseek_api/worker.py:206-345 | in every reachable state of any number of workers, crashes and cancellations included, each enqueued token is exactly once pending, in processing or acknowledged, and only returned executions are acknowledged |
| WorkerRuns.PermitsAreConserved | src/agentseek_api/worker.py:263-323 | free permits, the loop's, those in flight and those of unfinished jobs always add up to the configured concurrency; at a loop head none is in flight; active jobs never outnumber it |
| WorkerRuns.NormalReturn | src/agentseek_api/worker.py:263-348 | a worker that returns was asked to stop or has scheduled exactly `stop_after_jobs`; it counted every job it scheduled, each acknowledged exactly once in its name, and none failed |
| WorkerRuns.AckOnlyByOwner | src/agentseek_api/services/redis_queue.py:61-70 | a step that acknowledges does so for the current lease owner, for a returned execution still in processing, and never twice for one job |
| WorkerRuns.RequeueRestores | src/agentseek_api/services/redis_queue.py:86-92 | a worker that finishes its requeue loop leaves every token not acknowledged pending |
| WorkerRuns.FailureSurfaces | src/agentseek_api/worker.py:103-113 | a worker draining because a job failed always finds a failed task, so the internal error at line 113 is unreachable |
| WorkerRuns.RunKeeps | src/agentseek_api/worker.py:206-345 | every run keeps the system invariant behind these theorems |
| WorkerProgress.WorkerMakesProgress | src/agentseek_api/worker.py:263-319 | from the loop head, with a free permit, no signal, the lease and a pending token, a worker can take the oldest token, execute and acknowledge it, touching nothing else and getting its permit back |
| WorkerProgress.IdleTurnRuns | src/agentseek_api/worker.py:304-305 | a poll that times out leads back to the loop head with every permit, ready to poll again |
| WorkerProgress.BusyTurnRuns | src/agentseek_api/worker.py:306-320 | a poll that is given the oldest pending token schedules exactly that token as the next job |
| WorkerProgress.StartsUp | src/agentseek_api/worker.py:256 | a worker that takes the lease puts everything in flight back in front of what is pending, in order, and then polls |
| WorkerProgress.WorkOffRuns | src/agentseek_api/worker.py:41-66 | a job whose worker owns the lease is executed and acknowledged and gives its permit back |
| WorkerProgress.SignalledSchedulesNothing | src/agentseek_api/worker.py:276-303 | no segment schedules a job after a stop, a lost lease, a failed job or a reached quota |
| WorkerProgress.LostLeaseStopsJobs | src/agentseek_api/worker.py:41-66 | once the lease is known to be lost, no job begins to execute or to acknowledge |
| WorkerProgress.RaisesForAReason | src/agentseek_api/worker.py:263-323 | a segment raises only for a lost lease, a failed job, a cancellation or a reservation that raised |
| WorkerProgress.LostLeaseRaises | src/agentseek_api/worker.py:267-331 | every segment that looks at the lease raises when it is lost |
| WorkerProgress.FailedJobRaises | src/agentseek_api/worker.py:103-113 | after a failed job every such segment raises or goes to wait for its error, which is then raised |
| WorkerSafety.LoopHeadKeeps | src/agentseek_api/worker.py:263-268 | the loop-head segment keeps the permit ledger and the bookkeeping of jobs |
| WorkerSafety.SlotFinishKeeps | src/agentseek_api/worker.py:143-152 | leaving the slot wait, granted or not, for whatever reason, keeps the ledger |
| WorkerSafety.ReserveFinishKeeps | src/agentseek_api/worker.py:155-185 | leaving the reserve wait keeps the ledger on every outcome, exceptions and cancellation included |
| WorkerSafety.CancelLoopKeeps | src/agentseek_api/worker.py:321-323 | a cancellation at any await of the loop keeps the ledger: inside the inner `try` the held permit goes back, in the `finally` of the slot wait it stays taken and a granted one is abandoned, elsewhere no permit moves |
| WorkerSafety.CancelJobsKeeps | src/agentseek_api/worker.py:336-339 | cancelling the active tasks keeps the ledger, tasks that never ran their `finally` included |
| WorkerLoop.WorkerProcess.ReapJobs | src/agentseek_api/worker.py:69-89 | the loop over completed tasks is the reap step: it removes every finished task and raises exactly if one failed |
| WorkerLoop.WorkerProcess.LoopHeadSegment | src/agentseek_api/worker.py:263-270 | the statements from the loop head to the slot wait are the loop-head step and keep the ledger |
| WorkerLoop.WorkerProcess.SettleSlot | src/agentseek_api/worker.py:143-152 | the `finally` of the slot wait and what follows are the slot step and keep the ledger |
| WorkerLoop.WorkerProcess.SlotSegment | src/agentseek_api/worker.py:276-299 | from the granted slot to the reserve wait, with every early exit |
| WorkerLoop.WorkerProcess.SettleReserve | src/agentseek_api/worker.py:169-185 | the end of the reserve wait is the reserve step and keeps the ledger |
| WorkerLoop.WorkerProcess.ReserveSegment | src/agentseek_api/worker.py:300-323 | from the reserve wait to the next loop head, the permit transferred to the task or released |
| WorkerLoop.WorkerProcess.DrainSegment | src/agentseek_api/worker.py:325-331 | one turn of the final drain is the drain step and keeps the ledger |
| WorkerLoop.WorkerProcess.FailTask | src/agentseek_api/worker.py:62-66 | a failing task sets the failure event and releases its permit once, which keeps the ledger |
| WorkerLoop.WorkerProcess.AckReply | src/agentseek_api/worker.py:57-66 | the answer to an acknowledgement ends the task, a refusal as a lost lease; either keeps the ledger |
| SignalGuard.RaisesAtMostOnceAndFirst | src/agentseek_api/process_supervisor.py:109-146 | with a signal between any two statements at most one is raised, and it is the first received exactly when no handler overtook the first one |
| SignalGuard.FateOfEverySignal | src/agentseek_api/process_supervisor.py:109-146 | once no handler runs, exactly the signals that arrived while the guard was delivering or cleaning up with a child have been forwarded; of those that arrived before one is raised and each other is lost; none is raised or forwarded without a child, and a driver waiting for its child has received none |
| SignalGuard.SecondSignalIsDropped | src/agentseek_api/process_supervisor.py:130-133 | a concrete run in which the second of two signals that came before the child is neither raised nor forwarded |
| SignalGuard.LaterSignalsAreForwarded | src/agentseek_api/process_supervisor.py:125-146 | after the raise every arriving signal is owed to the child and nothing raises again |
| SignalGuard.OvertakenSignalIsLost | src/agentseek_api/process_supervisor.py:134-139 | a concrete run in which the second signal is raised and the first is lost |
| SignalGuard.HandlerRuns | src/agentseek_api/process_supervisor.py:125-146 | what an uninterrupted handler does in every state of the guard |
| SignalGuard.AttachRuns | src/agentseek_api/process_supervisor.py:109-119 | what an uninterrupted `attach` does, with and without a pending signal |
| SignalGuard.ForwardingSignalGuard.Attach | src/agentseek_api/process_supervisor.py:109-119 | the method reaches the state the steps reach, raises exactly the pending signal, and refuses a second child |
| SignalGuard.ForwardingSignalGuard.BeginCleanup | src/agentseek_api/process_supervisor.py:121-123 | the method takes the guard where the driver's cleanup steps take it, after a failed start, a wait or a raise; a second call and one on a closed guard change nothing |
| SignalGuard.ForwardingSignalGuard.HandleSignal | src/agentseek_api/process_supervisor.py:125-146 | the method reaches the state the steps reach, raising and forwarding what they do |
| PosixCleanup.CleanAndReapKeeps | src/agentseek_api/process_supervisor.py:593-670 | a cleanup that returns left the child reaped exactly once, with the status first observed and the group seen empty exactly unless an incomplete polling was followed by a reap that a signal cut short; it sleeps at most two timeouts and signals nothing after a reap attempt |
| PosixCleanup.EnsureClosedKeeps | src/agentseek_api/process_supervisor.py:484-501 | the two closing calls give the same guarantee, the bound on the sleep included |
| PosixCleanup.WaitForTreeKeeps | src/agentseek_api/process_supervisor.py:548-563 | polling ends within the time left, gives up only at its deadline, and says "complete" exactly when the exit was observed and the group seen empty |
| PosixCleanup.WaitAndMarkKeeps | src/agentseek_api/process_supervisor.py:565-591 | a reap is counted once, with the status observed before, and forbids group signals from its start |
| PosixCleanup.DriverEndsReapedOrInError | src/agentseek_api/cli.py:785-812 | every path of the driver ends in an error or with the child reaped exactly once, cleanly exactly unless a signal cut short the reap after an incomplete polling; nothing is signalled after a reap attempt |
| PosixCleanup.TornReapHidesSurvivors | src/agentseek_api/cli.py:800-803 | a concrete script in which the driver returns 130 though the group was last seen with members |
| PosixDriver.DriverAnswers | src/agentseek_api/cli.py:785-812 | the exit code is the status the child was reaped with if no signal was raised, and 128 plus the signal if one was; a signal escapes only if it was raised; an error is reported only after a failed call or a polling out of time |
| PosixDriver.RaisedSignalIsForwarded | src/agentseek_api/cli.py:796-803 | unless a call failed or a reap had been attempted, the raised signal is the next thing sent to the group |
| PosixDriver.SignalAndWaitTells | src/agentseek_api/process_supervisor.py:628-648 | without a failing call the group is sent the signal and then, if and only if the first polling ran out of time, SIGKILL |
| PosixDriver.CleanAndReapTells | src/agentseek_api/process_supervisor.py:593-670 | a cleanup sends those signals and then makes one reap attempt, and reports an error only after a failed call or a polling out of time |
| PosixChildProcess.PosixProcess.SignalTheGroup | src/agentseek_api/process_supervisor.py:506-531 | a group signal is sent only while allowed and before the reap |
| PosixChildProcess.PosixProcess.Observe | src/agentseek_api/process_supervisor.py:533-540 | the exit is observed without reaping, and the first observation stands |
| PosixChildProcess.PosixProcess.WaitForOwnedTreeExit | src/agentseek_api/process_supervisor.py:548-563 | the polling loop is the recursive polling the theorems are about |
| PosixChildProcess.PosixProcess.WaitAndMarkReaped | src/agentseek_api/process_supervisor.py:580-591 | the reap, with signals masked and a failure that may hide it |
| PosixChildProcess.PosixProcess.CleanUp | src/agentseek_api/process_supervisor.py:593-670 | the whole cleanup, its shortcut for an empty group included, with the guarantee of every cleanup |
| PosixChildProcess.PosixProcess.EnsureTreeClosed | src/agentseek_api/process_supervisor.py:493-501 | the second call reports the error the first one recorded, and gives the same guarantee |
| WindowsLauncher.Launcher.Create | src/agentseek_api/process_supervisor.py:828-892 | fails exactly when a native call failed. On success only the process and thread handles stay open, and the process was created suspended in its job with exactly the prepared streams inheritable; otherwise each handle obtained was attempted exactly once, the attribute list was deleted once, and a created process was aborted |
| WindowsLauncher.Launcher.CloseAll | src/agentseek_api/process_supervisor.py:869-880 | the loop attempts every handle whatever failed before, and fails exactly when something failed before or a handle was refused |
| WindowsLauncher.Kernel.AbortSuspendedProcess | src/agentseek_api/process_supervisor.py:1064-1083 | termination, wait and both closes are attempted whatever fails |
| WindowsLauncher.WindowsChild.Start | src/agentseek_api/process_supervisor.py:1309-1346 | fails exactly when a native call failed. A started child runs: its thread was resumed, its process was created in a job already set to kill on close, and nothing but the job and the process is open; a failed start leaves no handle unattempted and no process alive unattended |
| WindowsLauncher.WindowsChild.RollbackStart | src/agentseek_api/process_supervisor.py:1349-1372 | each handle still held is attempted exactly once even when an earlier step fails |
| WindowsLauncher.WindowsChild.Close | src/agentseek_api/process_supervisor.py:1461-1475 | both handles are forgotten and attempted once; it fails exactly when one was refused |
| StoreIsolation.EveryUserHasAPrivateStore | src/agentseek_api/core/runtime_store.py:71-252 | over any interleaving of all users' calls the answers one user gets are those of a store that received only that user's calls, pages included |
| StoreIsolation.CallIsPrivate | src/agentseek_api/core/runtime_store.py:186-252 | one call answers as the private store, never raises on stripping, moves the view as the private call would, and leaves every other view alone |
| StoreIsolation.AnswerIsPrivate | src/agentseek_api/core/runtime_store.py:133-165 | each scoped operation finds in the shared store what the plain one finds in the view |
| StoreIsolation.AfterIsPrivate | src/agentseek_api/core/runtime_store.py:134-141 | a scoped write changes the view as the plain write changes a store of its own |
| StoreIsolation.AfterIsUnseen | src/agentseek_api/core/runtime_store.py:84-85 | a write below one prefix is invisible below another |
| StoreIsolation.SortedPrepended | src/agentseek_api/core/runtime_store.py:229-247 | sorting before or after stripping the common prefix gives the same order |
| StoreIsolation.ListingIsSorted | src/agentseek_api/core/runtime_store.py:240-246 | the listing paged through is strictly ascending and has each matching namespace once |
| StoreIsolation.SuffixAgreesExactly | src/agentseek_api/core/runtime_store.py:113-116 | a suffix passed on unscoped means the same below the prefix exactly when it cannot match into the prefix |
| StoreIsolation.DepthAgreesExactly | src/agentseek_api/core/runtime_store.py:157-164 | the shifted depth truncates as the private one exactly for non-negative depths |
| StoreIsolation.WildcardUserExactly | src/agentseek_api/core/runtime_store.py:67-68 | a user's prefix condition keeps to that user exactly when the user id is not `*` |
| StoreIsolation.DirectListingIsBatched | src/agentseek_api/core/runtime_store.py:229-247 | a direct listing asks the base store exactly what the batched listing asks |
| StoreIsolation.StripWidened | src/agentseek_api/core/runtime_store.py:87-111 | stripping undoes prefixing on every kind of answer |
| StoreBase.PutIsRead | src/agentseek_api/core/runtime_store.py:186-204 | a put is read back under its key, with its first creation time, and changes nothing else |
| StoreBase.DeleteIsRead | src/agentseek_api/core/runtime_store.py:197-207 | after a delete its key has nothing and every other key what it had |
| StoreBase.SelectedExactly | src/agentseek_api/core/runtime_store.py:209-227 | a search selects exactly the items below its prefix that have the fields of its filter, in the order of their first puts |
| StoreBase.NamesExactly | src/agentseek_api/core/runtime_store.py:229-247 | a listing has exactly the namespaces of items that meet every condition, cut to the depth |
| StoreBase.PageExactly | src/agentseek_api/core/runtime_store.py:216-227 | a page is the part of the list that offset and limit name, as far as the list goes |
| StoreWrapper.UserScopedStore.ScopeNamespaceConditions | src/agentseek_api/core/runtime_store.py:118-131 | the loop scopes prefix conditions and inserts the user prefix first exactly when none was there |
| StoreWrapper.UserScopedStore.StripBatchResult | src/agentseek_api/core/runtime_store.py:167-184 | the loop strips every element, or raises if any lies outside the prefix |
| StoreWrapper.UserScopedStore.Batch | src/agentseek_api/core/runtime_store.py:249-252 | the store and the answer are those the isolation theorem is about |
| StoreWrapper.UserScopedStore.Put | src/agentseek_api/core/runtime_store.py:186-207 | put and delete act as a batch of one |
| StoreWrapper.UserScopedStore.Get | src/agentseek_api/core/runtime_store.py:197-204 | get acts as a batch of one |
| StoreWrapper.UserScopedStore.Search | src/agentseek_api/core/runtime_store.py:209-227 | search acts as a batch of one |
| StoreWrapper.UserScopedStore.ListNamespaces | src/agentseek_api/core/runtime_store.py:229-247 | list_namespaces acts as a batch of one |
| StoreWrapper.ServeOne | src/agentseek_api/core/runtime_store.py:249-252 | a batch of one is its operation scoped, answered and stripped |
| JsonValues.FreezeThaw | src/agentseek_api/container_build.py:50-72 | thawing a frozen value and freezing it again gives the same value |
| JsonValues.ThawFreeze | src/agentseek_api/container_build.py:50-72 | freezing and thawing gives the value back exactly when it holds no tuple |
| JsonValues.GetOmitted | src/agentseek_api/container_build.py:468-469 | an object built without its nones gives back under each name what went in |
| ManifestRoundTrip.PrintParseExactly | src/agentseek_api/container_build.py:1335-1425 | parsing a printed manifest gives it back exactly when it is acceptable and an error otherwise, never another manifest |
| ManifestRoundTrip.ParsedIsAcceptable | src/agentseek_api/container_build.py:1335-1425 | whatever the parser returns is acceptable, so printing and parsing is the identity on it |
| ManifestReading.ParsedSaysAll | src/agentseek_api/container_build.py:1335-1425 | the manifest of an accepted document says under every name of every section what the document says, with nothing dropped and nothing added, nulls apart |
| ContainerPaths.ContainerPathExactly | src/agentseek_api/container_build.py:1374-1386 | a directory is accepted exactly when it is the container root or below it, without an empty, `.` or `..` part |
| ContainerPaths.PathReferenceExactly | src/agentseek_api/container_build.py:864-889 | a reference with a slash is accepted exactly when it has a symbol and its normalized path is strictly below the container root |
| ContainerPaths.DottedReferenceExactly | src/agentseek_api/container_build.py:873-879 | any other reference is accepted exactly when its symbol and every part of its module are identifiers |
| ManifestRoundTrip.GraphsBack | src/agentseek_api/container_build.py:892-1013 | graphs come back exactly when they are named and their references preloaded |
| ManifestRoundTrip.StoreBack | src/agentseek_api/container_build.py:490-504 | a printed store section comes back exactly when its embed reference is preloaded |
| ManifestRoundTrip.CorsBack | src/agentseek_api/container_build.py:507-531 | a printed cors section always comes back |
| ManifestRoundTrip.OpenApiBack | src/agentseek_api/container_build.py:534-549 | printed security metadata comes back exactly when its schemes are valid and its requirements name them |
| ManifestRoundTrip.ValidSchemeIsPlain | src/agentseek_api/container_build.py:1172-1214 | a valid security scheme holds nothing that freezing would change |
| ManifestAcceptance.AcceptableExactly | src/agentseek_api/container_build.py:1335-1425 | the manifests the parser returns, field by field: graphs are named and every reference, embedding path and app names something copied, dependencies are copied directories, schemes are valid and requirements name them |
| ManifestAcceptance.ReferenceExactly | src/agentseek_api/container_build.py:864-889 | a reference is accepted exactly when it is a module, a colon and a symbol, the module a normalized path below the container root or dotted identifiers |
| ManifestAcceptance.SchemeExactly | src/agentseek_api/container_build.py:1172-1272 | a security scheme is accepted exactly when it has the entries its type needs and no others, all texts, its URLs clean and its flows complete |
| PolicyPreserved.PlanKeepsManifest | src/agentseek_api/container_build.py:2048-2059 | the planner's own parse changes nothing: the manifest is the one built, or the plan is refused because that is not acceptable |
| PolicyPreserved.PolicyPreservedExactly | src/agentseek_api/container_build.py:1727-1813 | whenever planning succeeds both policies can be read, and they are equal exactly when no null is dropped to another meaning and no app path is read twice differently |
| PolicyMeaning.ManifestPolicyMeans | src/agentseek_api/container_build.py:1753-1813 | the policy of a manifest by its fields: each switch is off exactly where the manifest says so, each cors setting is its entry or the default, credentials default to "not every origin", the app is the path below the root, the metadata are the schemes and requirements |
| PolicyMeaning.HostPolicyIs | src/agentseek_api/container_build.py:1753-1805 | the policy of a host config by its entries, the app named by where its file lies in the project |
| PolicyMeaning.PlanTakesSettings | src/agentseek_api/container_build.py:1128-1169 | the manifest a plan makes has the switches and cors entries of the config, each in its own field, and its app, rewritten into the container if it is a path |
| PolicyPreserved.CorsKept | src/agentseek_api/container_build.py:1762-1781 | the cors settings, defaults and derived credentials agree exactly when the explicit nulls are harmless |
| PolicyPreserved.AppKept | src/agentseek_api/container_build.py:1150-1163 | the logical app reference survives the rewriting exactly when it does not already begin with the container root for another file |
| PolicyPreserved.OpenApiKept | src/agentseek_api/container_build.py:1782-1789 | the frozen metadata agree as mappings exactly when neither part is an explicit null |
| PolicyChanges.ConfigPlans | src/agentseek_api/container_build.py:2048-2059 | a config of one importable graph plans, into the expected manifest, whenever its two policy sections do |
| PolicyChanges.NullAgeChangesPolicy | src/agentseek_api/container_build.py:1776-1781 | a concrete config with a null `max_age` that plans and has another policy in the container |
| PolicyChanges.NullSecurityChangesPolicy | src/agentseek_api/container_build.py:1782-1789 | a concrete config with null security requirements that plans and has another policy in the container |
| PolicyChanges.AppPathChangesPolicy | src/agentseek_api/container_build.py:1737-1749 | a concrete config with an app path below `/deps/agent/` that plans and has another policy in the container |
| GraphReferences.RewrittenUnlessCollision | src/agentseek_api/container_build.py:965-1012 | replacing the references one after the other rewrites each in its own field exactly when no hook reads like a reference rewritten before it |
| GraphReferences.CollisionMisplaces | src/agentseek_api/container_build.py:1004-1011 | what the loop does to a graph whose hook reads like its rewritten reference; it is a collision exactly when the hook would be rewritten to something else |
| GraphReferences.CollisionsHappen | src/agentseek_api/container_build.py:666-667 | whenever the container path of one project file is the path of another, a graph and hook naming the two collide and the loop does not rewrite each in its own field |
| GraphReferences.TwinsCollide | src/agentseek_api/container_build.py:965-1011 | a concrete project and graph for which the loop misplaces the hook's reference |
| GraphReferences.RewriteReferences | src/agentseek_api/container_build.py:965-1011 | the loop over one graph's references |
| GraphReferences.BuildGraphs | src/agentseek_api/container_build.py:903-1013 | the loop over the graphs, preloaded and planned |
| GraphReferences.BuildSecurity | src/agentseek_api/container_build.py:1303-1324 | the loops over the security requirements |
| Calendar.MonthsAdjoin | src/agentseek_api/services/cron_rrule.py:157-176 | each month of the calendar begins the day after the one before it ends, leap years included |
| Calendar.OrdinalIsInjective | src/agentseek_api/services/cron_rrule.py:166-173 | the ordinal names year, month and day once |
| Calendar.MonthLengths | src/agentseek_api/services/cron_rrule.py:164-165 | the lengths of the months, by the leap rule of the 400-year cycle |
| Calendar.Epochs | src/agentseek_api/services/cron_rrule.py:147 | the first day of year 1 has ordinal 1, and 1 January 1970 has ordinal 719163 and is a Thursday |
| Calendar.Repeats | src/agentseek_api/services/cron_rrule.py:157-173 | the calendar and its weekdays repeat every 400 years |
| CronRule.LaterIsNextMinute | src/agentseek_api/services/cron_rrule.py:145-146 | a whole minute is after now exactly when it is a later minute |
| CronRule.AlignedWeek | src/agentseek_api/services/cron_rrule.py:137-150 | the weekly loop returns what the recursive search returns |
| CronRule.AlignedMonth | src/agentseek_api/services/cron_rrule.py:153-176 | the monthly loop, counting years and months as it does, returns what the recursive search returns |
| CronNext.NextRunIsLeastSlot | src/agentseek_api/services/cron_rrule.py:179-205 | the next run is the least slot after now, where the slots are written out by day, weekday, week distance, month and clamped day with the defaults of every clause; it is refused exactly when past UNTIL, and the only other failure is a monthly rule without a slot in 24 months |
| CronNext.NextRunIsAfterNow | src/agentseek_api/services/cron_rrule.py:179-205 | under every acceptable rule the next run is after now and not past UNTIL |
| CronNext.RefusedExactly | src/agentseek_api/services/cron_rrule.py:45-62 | a rule is refused before anything is computed exactly when an interval, hour, minute, month day or weekday list is out of range |
| CronNext.MinuteAlignmentExactly | src/agentseek_api/services/cron_rrule.py:108-113 | the minute alignment finds the least slot for every now exactly when the interval divides 60 or 59 |
| CronNext.HourAlignmentExactly | src/agentseek_api/services/cron_rrule.py:116-123 | the hour alignment finds the least slot for every now exactly when the interval divides 24 or 23 |
| CronNext.DayFound | src/agentseek_api/services/cron_rrule.py:126-134 | the day alignment finds the least slot for every interval |
| CronNext.SomeWeekHit | src/agentseek_api/services/cron_rrule.py:141-149 | the days searched always contain a hit, for every interval and every set of weekdays |
| CronNext.WeekFound | src/agentseek_api/services/cron_rrule.py:137-150 | the weekly search never fails and returns the least time after now on a weekday asked for in a week that is a multiple of the interval away |
| CronNext.MonthFound | src/agentseek_api/services/cron_rrule.py:153-176 | the monthly search returns the least slot of all months, each on the day of the month asked for where there is one, or on today's clamped to the month if none is asked for, and fails exactly when the 24 searched have none |
| CronNext.MonthReached | src/agentseek_api/services/cron_rrule.py:157-175 | the months searched contain a run for intervals up to 23 with a day every month has, up to 11 with the 29th or 30th, and six intervals with the 31st |
| CronNext.MonthSearchExactly | src/agentseek_api/services/cron_rrule.py:157-176 | they do for every now exactly for those intervals, whatever the day |
| CronNext.ThirtyFirstOfApril | src/agentseek_api/services/cron_rrule.py:164-165 | the 31st of every twelfth month is never found from an April |
| CronClaims.NoOccurrenceFiresTwice | src/agentseek_api/services/cron_scheduler.py:190-324 | over any sequence of rounds with any clocks, and of tick updates, patches, creations and deletions, the ticks of one cron are for strictly later times and old ticks keep their occurrence, provided that a patch which recomputes the next run of a cron it leaves on is not made by a clock behind a fired occurrence |
| CronClaims.RoundIsRight | src/agentseek_api/services/cron_scheduler.py:202-324 | a round claims at most `limit`, no tick twice, and fires only enabled due crons not past their end, for the time they were due, none of which had a tick taken over in the round |
| CronRounds.FiresExactly | src/agentseek_api/services/cron_scheduler.py:302-304 | a round fires, once each, exactly the due crons of which it has taken over no tick |
| CronRounds.CronsAfterRound | src/agentseek_api/services/cron_scheduler.py:302-322 | a cron the round fires runs next when its recurrence says and stays on exactly when that is a time not past its end; every other cron is as before |
| CronRounds.TicksAfterRound | src/agentseek_api/services/cron_scheduler.py:219-314 | each picked tick is taken over, skipped or left as its cron and run say, every other is as before, and each cron that fires gets one new tick for the time it was due |
| CronRounds.ClaimsAfterRound | src/agentseek_api/services/cron_scheduler.py:219-315 | the claims are exactly the ticks taken over, as they were, and the new ones |
| CronRounds.PicksAreStale | src/agentseek_api/services/cron_scheduler.py:205-299 | what the three selects return: stale started ticks, then stale queued ones with a run, then crons on, due and not past their end |
| CronClaims.ReclaimedAreStarted | src/agentseek_api/services/cron_scheduler.py:219-242 | what the first loop claims no later select returns again |
| CronClaims.FreshKeeps | src/agentseek_api/services/cron_scheduler.py:302-322 | firing the due crons keeps every cron ahead of what it has fired |
| CronClaims.PatchKeepsExactly | src/agentseek_api/services/cron_service.py:176-266 | a patch keeps every cron ahead of what it has fired, for every recurrence, exactly under that proviso |
| CronClaims.BehindRefires | src/agentseek_api/services/cron_service.py:193-202 | from any state, one patch against the proviso makes an occurrence that has fired fire again under some recurrence, although nothing that follows is out of date |
| CronClaims.PatchedNext | src/agentseek_api/services/cron_service.py:176-266 | the next run after an accepted patch is after its clock if it recomputes and unchanged otherwise, and only a recomputing patch switches a cron on |
| CronClaims.ClockBehindRefires | src/agentseek_api/services/cron_service.py:193-202 | a patch by a clock that is behind fires an occurrence twice |
| CronService.RecurrenceAdvances | src/agentseek_api/services/cron_scheduler.py:316-322 | the recurrence is a computation these theorems apply to |
| CronService.Scheduler.Reclaim | src/agentseek_api/services/cron_scheduler.py:219-242 | the loop over stale started ticks, those past their end skipped |
| CronService.Scheduler.Requeue | src/agentseek_api/services/cron_scheduler.py:259-279 | the loop over stale queued ticks |
| CronService.Scheduler.Fire | src/agentseek_api/services/cron_scheduler.py:302-322 | the loop over due crons, each advanced or disabled |
| CronService.Scheduler.ClaimDueCrons | src/agentseek_api/services/cron_scheduler.py:190-324 | the whole round on the tables, with its early return, keeps the invariant and the limit |
| EnvironmentLayers.HighestLayerWins | src/agentseek_api/environment.py:254-285 | a successful resolution says of every name what the highest layer assigning that variable says, under that layer's spelling only; values and origins have the same keys and no two keys stand for one variable |
| EnvironmentLayers.OriginNamesTheHighestLayer | src/agentseek_api/environment.py:362-491 | a result key's origin names a layer that no layer assigning the variable outranks |
| EnvironmentLayers.LayersAreRanked | src/agentseek_api/environment.py:368-491 | the layers are merged in the documented order |
| EnvironmentPlan.ResolvedAsPlanned | src/agentseek_api/environment.py:309-509 | on POSIX a plan is refused exactly when it is for the Compose control plane or a deciding source lacks a reference where that is an error, and otherwise every name reads as the plan's own fields decide |
| EnvironmentPlan.PlanDecides | src/agentseek_api/environment.py:362-491 | the layers decide of every name what the plan's fields decide: which source, and the text of its last binding with each reference replaced by an earlier binding, the launch environment or the default |
| EnvironmentLayers.WinnerOutranks | README.md:269-275 | the winning assignment's origin is its layer's, and no higher layer assigns the variable |
| EnvironmentLayers.AssignedReads | src/agentseek_api/environment.py:264-285 | one assignment replaces exactly the readings of the same variable |
| EnvironmentLayers.DocumentsAgree | src/agentseek_api/dotenv_adapter.py:114-133 | on POSIX a document's values are those of the plain resolver |
| EnvironmentLayers.LastBindingDecides | src/agentseek_api/environment.py:187-211 | the last binding of a key decides; a bare one leaves it without an assignment |
| EnvironmentScope.IneligibleNamesChangeNothing | src/agentseek_api/environment.py:288-306 | on POSIX, unless a scope admits all names, launch variables outside the eligible ones change neither result nor error |
| EnvironmentScope.AllScopesLeak | src/agentseek_api/environment.py:453-463 | when a scope admits all names some plan does tell two such launch environments apart |
| EnvironmentScope.DocumentSees | src/agentseek_api/environment.py:165-211 | on POSIX a document depends on its context only through lookups |
| EnvironmentResolver.NoClashExactly | src/agentseek_api/environment.py:222-251 | the Windows check passes a list exactly when no two of its names differ only by case |
| EnvironmentResolver.CheckWindowsNames | src/agentseek_api/environment.py:238-251 | the loop reports the first clash, with both spellings |
| EnvironmentResolver.ResolveDocument | src/agentseek_api/environment.py:165-219 | the loop over bindings fills context, values, origins and unresolved as specified |
| EnvironmentResolver.Resolution.MergeValues | src/agentseek_api/environment.py:254-285 | the in-place update of three dictionaries is the merge of one layer |
| EnvironmentResolver.Resolution.AddCommands | src/agentseek_api/environment.py:474-491 | the applicable command assignments are merged in order, a name clash stopping the resolution |
| EnvironmentResolver.ResolveEnvironment | src/agentseek_api/environment.py:309-509 | the whole resolution, errors in the order they are raised |
| RunStream.StreamRecords | src/agentseek_api/api/runs.py:408-432 | the loop yields exactly the records above the cursor, in order and once each, up to its last load, and stops at the first two consecutive idle reads of a terminal run |
| RunStream.ResumeContinues | src/agentseek_api/api/runs.py:745-746 | resuming from the last delivered id continues where delivery stopped, also when the log has grown |
| RunStream.DisconnectsLoseNothing | src/agentseek_api/api/runs.py:772-787 | any number of disconnects gives a prefix of the uninterrupted stream, and all of it once the last connection caught up |
| RunStream.NextLoad | src/agentseek_api/api/runs.py:417-422 | a load returns what was written since the one before |
| A2AStream.TaskRecord.Stream | src/agentseek_api/a2a_server.py:662-798 | however the stream ends, and whatever other requests write to the record meanwhile, it emits one final status, last; before it all chunks with the last flagged on completion (or the final text without chunks) and cancellation, all but the pending one unflagged on failure; the first turn that leaves the loop decides the outcome |
| A2AStream.OneFinalStatus | src/agentseek_api/a2a_server.py:691-798 | an ended stream has exactly one final status, at the end; a running one has none |
| A2AStream.DeliversEveryChunk | src/agentseek_api/a2a_server.py:726-797 | each chunk is delivered once and in order: all on completion and cancellation, all but the pending one on failure; without chunks completion delivers the final text unless it is empty |
| A2AStream.OnlyTheLastIsFlagged | src/agentseek_api/a2a_server.py:757-797 | an artifact is flagged exactly when it is the last one of a completed or cancelled stream |
| A2AStream.CancelIsHeard | src/agentseek_api/a2a_server.py:693-756 | when other requests only cancel, the stream ends as cancelled exactly when one came before the turn that ends it, or before the graph's end has settled |
| A2AStream.CancelledStreamSaysSo | src/agentseek_api/a2a_server.py:693-714 | when other requests only cancel, a cancelled stream reports the cancelled state |
| A2AStream.TaskRecord.Push | src/agentseek_api/a2a_server.py:726-739 | the pending text stays one chunk behind what is emitted |
| A2AStream.TaskRecord.FinishCancelled | src/agentseek_api/a2a_server.py:756-777 | cancellation flushes the pending text flagged as last |
| A2AStream.TaskRecord.FinishCompleted | src/agentseek_api/a2a_server.py:778-797 | completion flags the last chunk, or emits the final text if there was none and it is not empty |
| A2AStream.TaskRecord.Cancel | src/agentseek_api/a2a_server.py:490-495 | a terminal task is left alone, any other is cancelled |
| ComposeEnv.ReplacementsEscapeEachCharacter | src/agentseek_api/docker_runtime.py:371-378 | the six replacements in sequence are one escape per character |
| ComposeEnv.DecodeUndoesEncode | src/agentseek_api/docker_runtime.py:359-380 | a reader written from the grammar recovers every item of every accepted map |
| ComposeEnv.EncodedFile | src/agentseek_api/docker_runtime.py:363-370 | a map is accepted exactly when all its names and values are acceptable, and each item is written on its own line in name order |
| ComposeEnv.RefusedExactly | src/agentseek_api/docker_runtime.py:363-370 | the error is that of the first wrong item in name order: a name outside the grammar, else a control character that is not a line break or a tab |
| ComposeEnv.OrderDoesNotMatter | src/agentseek_api/docker_runtime.py:363 | the file, or the error, depends on the set of items alone |
| ComposeEnv.EncodingIsInjective | src/agentseek_api/docker_runtime.py:359-380 | two maps with the same file are the same map |
| ComposeEnv.OneLinePerEntry | src/agentseek_api/docker_runtime.py:379-380 | the file has one physical line per entry |
| ComposeEnv.EncodeComposeEnvironment | src/agentseek_api/docker_runtime.py:359-380 | the loop builds that file and reports the first error in name order |
| Ordering.AscendingIsUnique | src/agentseek_api/docker_runtime.py:363 | a strictly ascending sequence is determined by its elements |
| Ordering.LexLessTrichotomy | src/agentseek_api/core/runtime_store.py:240-247 | Python's order on strings and tuples is total |

## Left out

- Worker: a second cancellation inside the final cleanup block of `run_worker`, the recovery service and the heartbeat's own loop; heartbeat failure is the action in which the lease is found lost.
- Redis, SQL, LangGraph, Docker, ctypes bodies, `/proc` parsing and HTTP: each call is an atomic contract or a nondeterministic result.
- asyncio: a stretch of code between awaits is atomic, and a cancelled acquisition was either granted or not.
- SignalGuard.ForwardingSignalGuard.HandleSignal: signals other than the handled one are not delivered inside the method; that interleaving is in the step system.
- Signal masks and handler installation in `__enter__` and `__exit__`, and the error they may report.
- PosixChild: kernel process tables are the script's replies; only this supervisor reaps, so the status cannot be taken by another wait.
- WindowsLauncher.Launcher.Create: an interrupt between a native call that succeeded and the statement that records its handle is not modelled; a call fails without effect or succeeds.
- WindowsLauncher: waiting on a started child and forwarding signals to it (`process_supervisor.py:1374-1459`), Windows handle values being issued again after a close.
- StoreIsolation.EveryUserHasAPrivateStore: requires a user id other than `*` and, of the user's own listings, non-negative depths and suffixes that stay inside; the lemmas beside it say that each is needed.
- Store TTL, embedding search and its scores, operation kinds the wrapper passes through unscoped, negative limits and offsets.
- Manifest: errors are one error; the URL check of security metadata is a predicate parameter; JSON text, file selection, Dockerfile text and dependency classification are not modelled.
- PolicyPreserved.PolicyPreservedExactly: the planner's project root is the discovered one, as when no invocation directory is given.
- CronRule: clause text is taken as parsed and checked values (`cron_rrule.py:26-62`); the zone has a fixed offset, so daylight-saving transitions do not occur; years past 9999 are not refused.
- CronScheduler: which rows a limited select prefers, dispatching, reconciliation, webhooks and the scheduler lock; the patch fields that the scheduler does not look at.
- Environment: dotenv and config text, diagnostics, declared keys and the export scope; files are parsed documents.
- EnvironmentPlan.ResolvedAsPlanned: POSIX only; on Windows a name is looked up by case folding and a clash of names is an error.
- EnvironmentPlan.PlanDecides: POSIX only, for the same reason.
- EnvironmentScope.IneligibleNamesChangeNothing: POSIX only; on Windows eligibility is by case folding.
- EnvironmentScope.DocumentSees: POSIX only; on Windows a document also sees which of two spellings of a name comes first.
- RunStream: event formatting, keepalives and stream modes; the loop ends with its observations, because a run that never ends is polled for ever.
- A2AStream: how a chunk's text is extracted from messages, registry pruning, and the claim that cancelled is absorbing, which the code does not make.
- ManifestReading.ParsedSaysAll: for documents without tuples, as every one read from JSON text is; freezing a schema turns a tuple into an array.
- ComposeEnv: a map's items are given with distinct names.
