# AOP verification model

A Dafny 4.11 model of AOP, a controller/agent platform that runs Ansible playbooks, with proofs of
what it keeps and of exactly when it does not. `dafny verify dfyconfig.toml` checks everything.

AOP stores jobs in one Postgres table. Any number of controllers poll it, claim pending jobs with a
compare-and-set and post them to agents; an API cancels jobs and takes log batches and results from
agents; controllers time out jobs that never came back. Inventories are parsed from INI files into
a table and printed again on the agent. Agents stream log lines from two readers through a batcher.
Schedules are reconciled with a cron library.

## How the model is built

| modules | what they hold |
|---|---|
| `Runs` | runs of a step system, whatever the system: used by `Protocol`, `LogPipeline` and `AgentServer` |
| `JobTypes`, `Jobs`, `Selector` | statuses and the documented transition table; rows and what each SQL statement does to them; the least-busy choice |
| `Protocol`, `ProtocolInvariant`, `ProtocolTheorems` | the job lifecycle as a step system over the shared tables, per-controller program counters and requests between read and write; the invariant; safety over whole runs |
| `ProtocolRows` | what each write leaves in a row, column by column, what a row tells of the writes there have been, and what a claim tells of its agent |
| `ProtocolDrain`, `ProtocolEnds`, `ProtocolCapacity`, `ProtocolOrdered`, `ProtocolOvercommit` | how fast pending jobs drain and when every job has ended; how far an agent can be over-committed, and the runs that show both bounds exact |
| `Database`, `Reconcilers`, `Handlers` | the store, the reconciler and the API handlers as classes and loops; between any two statements everybody else may run, and every statement is shown to be a step of `Protocol` |
| `Text`, `TextLaws`, `Inventory`, `InventoryParser`, `InventoryPrinter` | Go's string functions and their laws, the meaning of inventory text and of a printed host list, the imperative scanner and printer |
| `InventoryMeaning`, `InventoryBlanks`, `InventoryRoundTrip`, `InventoryStability`, `GitSync` | what any text parses to, print-then-parse, and the way from a project's file through the table to an agent's file |
| `JobLogs`, `LogPipeline`, `LogTheorems`, `LogBatching` | the log table, the two readers with their shared counter and variable, the batcher, the flusher; what is conserved and what is lost |
| `AgentServer`, `AgentHandlers`, `AgentDispatch` | the agent's admission counter and running map, and what the controllers' Dispatch calls mean for them |
| `Scheduling` | the schedule registry against the cron entries |

The classes `Reconciler`, `Api`, `Execution` and `Server` carry a ghost `run`, the steps that the
system they belong to has taken since it was empty, and every statement of theirs extends it by the
step it is. Their method `Interfere` stands for whatever other processes do in the meantime: callers
see only its contract, which allows any steps of the others, so each caller is proved for every
interleaving. `x := *` stands for an outcome the code cannot determine: a store error, a lost
reply, an agent's answer. Whatever can fail counts its failures in a ghost field of its own (the
errors a store reported and the rows its queries skipped, the payloads that could not be built, the
calls that were refused, the requests that were lost), so that a contract can say what is done when
nothing fails: "if the store reports no error" below means that the counter has not moved.

## What turned out to be false, and exactly when it holds

- The table `ValidTransitions` is said to be enforced on every status change. Nothing enforces it.
  A job's history follows it if and only if no cancel hit a pending row, no write hit a terminal
  row and the job did not succeed (`ProtocolTheorems.HistoryFollowsTable`); controllers alone always
  follow it (`ControllerHistory`), and every success leaves it (`SuccessLeavesTable`), because
  nothing ever writes `running` (`RunningNeverReached`). `ProtocolOvercommit.CancelRun` and
  `SuccessRun` are runs that leave it.
- An agent's capacity does not bound its jobs in flight. The best bound there is is capacity - 1 + 50
  per controller (`ProtocolOvercommit.OverCommitExact`): one snapshot of the agents serves a whole
  batch, and SKIP LOCKED hands queries that are executed at the same time different batches. When no
  query skips a row and no two jobs are created at the same time, it is capacity - 1 + 50 for any number
  of controllers (`OrderedExact`). On the agent, the best bound is capacity - 1 + active handlers
  (`AgentServer.AdmissionBoundExact`).
- The two log readers each have a number of their own but pass it through one shared variable. With
  no failed post, the log reads back complete and in order if and only if no reader found the
  other's number there (`LogTheorems.LosslessIff`); every schedule of the goroutines keeps every
  line if and only if one of the streams is silent (`LogTheorems.SafeOutputs`).
- Printing an inventory and parsing it again gives it back if and only if no printed host line
  begins with `[` and ends with `]` (`InventoryRoundTrip.RoundTrip`); for all map orders at once the
  condition is on names and values only (`InventoryStability.EveryOrderRoundTrips`). The host `[a]`
  never comes back (`UnfaithfulHost`), although the line `[a] x` is one that parses to it
  (`UnfaithfulText`).
- Edits to a schedule are documented to be picked up live. A sync brings the registry up to date if
  and only if no active schedule was edited since it was registered (`Scheduling.UpToDateIff`);
  `EditMissed` is a series of syncs that misses an edit. This is about the code with a library that
  accepts something. `Run` builds the library with a six-field parser (scheduler.go:45) while
  `register` first demands five fields (scheduler.go:104), and with these two nothing is ever
  registered (`NothingRegistered`); the tests build it with the five-field one.
- The agent's running map is meant to list what its counter counts. It does, once those between two
  updates have made the second, if and only if no handler ever puts a job into the map while the job
  is still in it (`AgentServer.AgreeExactly`). A job dispatched twice breaks it and makes the first
  task uncancellable (`TwiceDisagrees`). What controllers dispatch never does, since no job is sent
  to an agent twice (`AgentDispatch.ControllersAgree`).

## Model

| member | source | states |
|---|---|---|
| JobTypes.TableRows | pkg/types/job.go:56-74 | the moves the documented table allows, row by row |
| JobTypes.TableClimbs | pkg/types/job.go:43-64 | every allowed move goes strictly up in pending < dispatched < running < terminal, and exactly the terminal statuses have none |
| JobTypes.ValidPathShort | pkg/types/job.go:56-64 | any history that follows the table has at most three transitions |
| Selector.Select | controller/selector/leastbusy.go:21-40 | an error exactly on the empty list; otherwise the first agent than which no other has fewer jobs, or as many and a later heartbeat, nil heartbeats last |
| Selector.OrderedChoice | controller/internal/reconciler/reconciler.go:101-121 | on a list in the order the store returns it, the choice is element 0, so a whole batch is offered to one agent |
| Database.Store.TransitionJob | controller/internal/store/store.go:86-101 | compare-and-set on the status: every column of the new row, and no other row, when the status matched; nothing when it did not; on an error it may or may not have been applied |
| Database.Store.UpdateJobStatus | api/internal/store/jobs.go:84-96 | the unguarded status write: every column of the new row, and no other row |
| Database.Store.SetJobFacts | api/internal/store/jobs.go:98-104 | the facts and the trigger's refresh of updated_at, and nothing else |
| Database.Store.GetPendingJobs | controller/internal/store/store.go:30-47 | at most 50 distinct pending rows, oldest first, none of them locked by another statement; anything else pending that was not locked is no older than any of them, and then the batch is full |
| Database.Store.GetStuckJobs | controller/internal/store/store.go:49-81 | exactly the rows in the status whose updated_at is older than the timeout and which no other statement had locked |
| Database.Store.GetAvailableAgents | controller/internal/store/store.go:131-167 | exactly the online agents with a recent heartbeat and fewer jobs in flight than capacity, each once with its true count, in the query's order |
| Database.ListedAgents | controller/internal/store/store.go:131-167 | the list is exactly the online agents heard of within the TTL and with fewer dispatched or running jobs than capacity, each once with its true count, by jobs and then by latest heartbeat |
| Database.Store.CreateJob | api/internal/store/jobs.go:11-23 | inserts a pending row with the column defaults under an id no row has |
| ProtocolInvariant.StepKeeps | controller/internal/reconciler/reconciler.go:85-241 | every step of any controller, request, agent or clock keeps the whole invariant and moves every row forward only |
| ProtocolInvariant.RunKeeps | controller/internal/reconciler/reconciler.go:85-241 | the same for every finite sequence of steps |
| ProtocolRows.FailedRow | controller/internal/store/store.go:86-101 | a job failed by a controller gets exactly the reason of that failure, ends at the clock of the write and keeps everything else |
| ProtocolRows.MissedRow | controller/internal/store/store.go:86-101 | and is left alone if its status has changed by then |
| ProtocolRows.ClaimedRow | controller/internal/store/store.go:86-101 | in any reachable state a claim of a pending job leaves it dispatched to the chosen agent, neither started nor ended |
| ProtocolRows.SetRow | api/internal/store/jobs.go:84-96 | a cancel or a result ends the job at the clock of the write; a cancel gives its reason, a result leaves the one there is, and both leave owner and facts |
| ProtocolRows.FactsRow | api/internal/store/jobs.go:98-104 | the facts of a result change the facts of one row only |
| ProtocolRows.EndedAtLastWrite | controller/internal/store/store.go:86-101 | in every run, a job that has ended has as ended_at the clock of the last status write to it |
| ProtocolRows.ReasonIsLast | api/internal/store/jobs.go:84-96 | in every run, the reason in a row is the last one that any status write to it gave |
| ProtocolRows.ClaimedFresh | controller/internal/store/store.go:131-167 | in every run, the agent a job is claimed for had been heard of within the TTL, was below capacity and had no more jobs than any other such agent in the state in which the controller asked |
| ProtocolRows.AgentRows | api/internal/store/agents.go:69-86 | a heartbeat sets an agent online and its time, and leaves its capacity |
| ProtocolTheorems.AtMostOnce | controller/internal/reconciler/reconciler.go:131-142 | in every run, with crashes, lost replies, cancels and late results, a job is claimed at most once and at most one Dispatch call is made for it |
| ProtocolTheorems.SendOwner | controller/internal/reconciler/reconciler.go:131-142 | at a Dispatch call the row already names that very agent and nothing was sent before |
| ProtocolTheorems.CancelledNeverSent | api/internal/handler/jobs.go:86-96 | a job whose cancel commits while its row is pending is never sent to any agent, before or after, whatever batches had been read, and stays terminal |
| ProtocolTheorems.TimeoutSound | controller/internal/reconciler/reconciler.go:218-241 | when a timeout of a dispatched job lands, the row has been dispatched at every moment of the last dispatchTimeout, although query and update are separate |
| ProtocolTheorems.Lifecycle | api/internal/store/jobs.go:84-96 | status rank never decreases, terminal is never left, ended_at is set exactly on terminal rows, owner and creation time never change once set |
| ProtocolTheorems.OwnerIsClaimer | controller/internal/store/store.go:86-101 | agent_id is null until the one claim that took effect, and names its agent from then on; every dispatched row has an owner |
| ProtocolTheorems.AcceptedFromOwner | api/internal/handler/jobs.go:131-139 | every log batch or result ever accepted came from the agent of the claim, then and for the rest of the run, and no Dispatch call of the run, earlier or later, sends the job to another agent |
| ProtocolTheorems.RunningNeverReached | api/internal/handler/jobs.go:154-198 | no run ever contains a running row or a started_at, and the running-timeout sweep never finds anything |
| ProtocolTheorems.HistoryStep | pkg/types/job.go:53-64 | one step extends a job's history by an allowed transition, or leaves it, unless it is one of three named writes |
| ProtocolTheorems.HistoryFollowsTable | pkg/types/job.go:53-64 | a job's history is a path in ValidTransitions if and only if none of the run's steps was one of those writes |
| ProtocolTheorems.ControllerHistory | controller/internal/reconciler/reconciler.go:107-153 | under controller steps alone every history is a path in ValidTransitions with at most two transitions |
| ProtocolTheorems.SuccessLeavesTable | api/internal/handler/jobs.go:185-190 | every job that succeeds has left the table on the way |
| ProtocolTheorems.OldestClaimedFirst | controller/internal/reconciler/reconciler.go:91-117 | no claim is tried while a strictly older job is pending, unless this controller has already been through it in the batch or it was locked by another statement when the batch was read |
| ProtocolTheorems.BatchDrained | controller/internal/reconciler/reconciler.go:107-117 | in a batch without store errors every job already passed is no longer pending |
| ProtocolTheorems.SweepDone | controller/internal/reconciler/reconciler.go:231-240 | after a timeout sweep without store errors every job that it had listed has left the status, and never comes back to it |
| ProtocolDrain.ReadDrains | controller/internal/store/store.go:30-47 | reading a batch takes 50 jobs off the pending ones, or leaves only rows that were locked |
| ProtocolDrain.DrainBound | controller/internal/reconciler/reconciler.go:85-117 | for any stretch of any run in which a controller, idle at its beginning, finishes n ticks without a store error in dispatchPending and without crashing: at most max(0, P - 50 n) jobs, plus those created meanwhile, plus the rows its queries skipped, are pending |
| ProtocolEnds.EverythingEnds | controller/internal/reconciler/reconciler.go:85-88 | once no more jobs are created, a controller that has ticked often enough for the pending ones, and then once more after the dispatch timeout has passed, without errors, locked rows or a crash, leaves every job terminal, whatever agents, other controllers and requests do |
| ProtocolCapacity.ActionBalance | controller/internal/reconciler/reconciler.go:101-137 | no controller action except a new snapshot adds more to an agent's jobs in flight than it takes from the controller's outstanding claims |
| ProtocolCapacity.CapacityKept | controller/internal/reconciler/reconciler.go:101-108 | in flight plus outstanding stays within capacity - 1 + 50 per controller in every run |
| ProtocolCapacity.OverCommitBound | controller/internal/store/store.go:131-167 | at every moment of every run of C controllers an agent of capacity K has at most K - 1 + 50 C jobs dispatched or running |
| ProtocolOrdered.Nested | controller/internal/store/store.go:36-41 | of two batches read without a skip, with distinct creation times, one contains the jobs of the other that are still pending |
| ProtocolOrdered.OrderedBound | controller/internal/reconciler/reconciler.go:101-117 | in a run without skipped rows and with distinct creation times an agent of capacity K has at most K - 1 + 50 jobs in flight, however many controllers there are |
| ProtocolOvercommit.OverCommitReached | controller/internal/reconciler/reconciler.go:101-117 | some run brings an agent of capacity K to K - 1 + 50 jobs in flight per controller that reads a batch of its own, with distinct creation times; the only rows skipped are those that queries executed at the same time have locked, and with one such controller there are none |
| ProtocolOvercommit.OverCommitExact | controller/internal/reconciler/reconciler.go:101-117 | every run of C controllers keeps an agent of capacity K within N jobs in flight if and only if N is at least K - 1 + 50 C, whether queries may skip any rows or only those that others executed at the same time have locked |
| ProtocolOvercommit.OrderedExact | controller/internal/reconciler/reconciler.go:101-117 | the runs without skipped rows and with distinct creation times do so if and only if N is at least K - 1 + 50 |
| ProtocolOvercommit.SuccessRun | api/internal/handler/jobs.go:185-190 | a run in which a job succeeds, so that its history is off the table |
| ProtocolOvercommit.CancelRun | api/internal/handler/jobs.go:86-96 | a run in which a pending job is cancelled, and its history off the table |
| Reconcilers.Reconciler.Claim | controller/internal/reconciler/reconciler.go:131-140 | one claim under arbitrary interference, with its three outcomes |
| Reconcilers.Reconciler.DispatchOne | controller/internal/reconciler/reconciler.go:119-161 | select, payload, claim, send, revert in that order, as steps of the protocol; it fails only without an agent, on a payload that could not be built or on a store error, and if it does not fail it has tried to claim this job for the chosen agent |
| Reconcilers.Reconciler.DispatchBatch | controller/internal/reconciler/reconciler.go:107-117 | the loop over a batch; if the store reports no error, no job of the batch is pending afterwards; if also there are agents and every payload could be built, every job of it was tried for the chosen agent |
| Reconcilers.Reconciler.DispatchPending | controller/internal/reconciler/reconciler.go:90-117 | one batch from read to end, with early returns; if the store reports no error, batch and agents are what the queries yield on states since the call, none of the batch is pending afterwards and, if there are agents and every payload could be built, all of it was tried for the best of them |
| Reconcilers.TriedMeans | controller/internal/reconciler/reconciler.go:131-142 | in every run, a job that was tried was claimed by that very attempt and belongs to its agent from then on, or had already left pending by another's write |
| Reconcilers.Reconciler.FailStuckJobs | controller/internal/reconciler/reconciler.go:218-241 | one sweep, continuing past errors; if the store reports no error, every row that was stuck when the list was read, and not locked then, has left the status for good |
| Reconcilers.Reconciler.FailStuckAll | controller/internal/reconciler/reconciler.go:213-216 | both sweeps with their own timeouts; if the store reports no error, all that was stuck at either read, and not locked, has left its status for good |
| Reconcilers.Reconciler.Tick | controller/internal/reconciler/reconciler.go:85-88 | extends the run by exactly one tick of this controller, in which every trouble is an error that the store reported; if it reported none, what is pending afterwards is at most what was, less 50, plus the jobs created meanwhile and the rows skipped |
| Reconcilers.Reconciler.Run | controller/internal/reconciler/reconciler.go:71-83 | extends the run by exactly n ticks; if the store reports no error, at most max(0, P - 50 n) jobs, plus those created meanwhile and the rows skipped, are pending, whatever other controllers and requests do |
| Reconcilers.AdvancedDrains | controller/internal/reconciler/reconciler.go:85-117 | the drain bound between any two moments of a controller between which the store reported it no error |
| Handlers.Api.CreateJob | api/internal/handler/jobs.go:39-64 | which code answers what, 500 exactly on a store error; 201 means one pending job more, with the defaults, under a new id and nothing else changed by the write |
| Handlers.Api.CancelJob | api/internal/handler/jobs.go:80-101 | which code answers which state at the read, 500 exactly on a store error; 204 means the row was ended as cancelled, with its reason and the time, whatever it had become, and a cancel that met a pending row is recorded as such |
| Handlers.Api.AgentPostResult | api/internal/handler/jobs.go:153-198 | only the row's owner with a terminal status gets 204, and then the row was ended with exactly that status, without looking at the current one; if facts were posted and the store reported no error, a later write has put exactly them into the row and changed nothing else; 500 on a store error, except of the facts write, which is ignored |
| Handlers.Api.AgentPostLogs | api/internal/handler/jobs.go:118-151 | lines land only for the owner of the job at the check, a prefix of the batch in order, into a table that others write to between any two of them; 204 means all of it, 500 a store error |
| TextLaws.SpaceCharacters | controller/inventory/gitfile.go:199 | white space is the 25 characters of Unicode's White_Space |
| TextLaws.TrimSpaceIs | controller/inventory/gitfile.go:199 | trimming takes all the white space off both ends and nothing else |
| TextLaws.FieldsSplit | controller/inventory/gitfile.go:223 | white space anywhere divides the words before it from the words after it |
| TextLaws.FieldsOfWord | controller/inventory/gitfile.go:223 | and a word is one field |
| TextLaws.LinesFirst | controller/inventory/gitfile.go:197-199 | a line ends at its newline, without one carriage return before it |
| TextLaws.TooLongIff | controller/inventory/gitfile.go:197-263 | the scanner stops with an error if and only if 65536 characters in a row hold no newline |
| InventoryParser.HostRecord.AssignVars | controller/inventory/gitfile.go:240-244 | assignments left to right on the record's own map |
| InventoryParser.EnterHost | controller/inventory/gitfile.go:222-258 | one host line changes its own record and no other |
| InventoryParser.ParseINIInventory | controller/inventory/gitfile.go:186-270 | an error exactly when the file cannot be opened or has a line that does not fit the scanner's buffer; otherwise every host of the text's meaning once, in some order |
| InventoryMeaning.ParsedMeaning | controller/inventory/gitfile.go:193-259 | for every text, a host exists exactly if some non-skipped line starts with it |
| InventoryMeaning.GroupsMeaning | controller/inventory/gitfile.go:246-258 | its groups are exactly the non-empty, non-all, colon-free sections it appears under, without repeats, by first appearance |
| InventoryMeaning.VarsMeaning | controller/inventory/gitfile.go:239-244 | its variables are exactly those some word sets, with the value of the last one to do so |
| InventoryBlanks.EndsDoNotMatter | controller/inventory/gitfile.go:199 | white space at the ends of a line does not change what it does to any scan |
| InventoryBlanks.GapsDoNotMatter | controller/inventory/gitfile.go:223 | nor does the white space between two words, how much and of whatever kind, unless the line is a header |
| InventoryBlanks.CommentsDoNotMatter | controller/inventory/gitfile.go:200-202 | blank lines and those that begin with # or ; do nothing |
| InventoryBlanks.BlanksDoNotMatter | controller/inventory/gitfile.go:193-259 | for every text, making a blank between two words or at an end of a line longer does not change the parse |
| InventoryPrinter.WriteInventory | agent/internal/runner/inventory.go:22-54 | the text is that of the host list under some valid order of every map it ranges over |
| InventoryPrinter.CollectGroups | agent/internal/runner/inventory.go:37-43 | the group map holds every group with its hosts in list order |
| InventoryPrinter.PrintedExactly | agent/internal/runner/inventory.go:22-54 | what a print of two hosts, a variable and a group is, to the character, for any names |
| InventoryRoundTrip.MembersMeaning | agent/internal/runner/inventory.go:37-51 | a host is printed under a group exactly if it has that group |
| InventoryRoundTrip.RoundTrip | agent/internal/runner/inventory.go:22-54 | under every map order, parsing the print gives the same hosts and group sets, with variables overriding a filled-in ansible_host, if and only if no printed host line looks like a header |
| InventoryStability.EveryOrderRoundTrips | agent/internal/runner/inventory.go:25-34 | it does so for all orders at once if and only if no host whose name starts with a bracket has a line that can end with one |
| InventoryStability.UnfaithfulHost | agent/internal/runner/inventory.go:25-34 | a printable host list that printing and parsing does not give back |
| InventoryStability.UnfaithfulText | controller/inventory/gitfile.go:193-259 | a text of one host line whose parse, printed and parsed again, is lost |
| InventoryStability.ReprintParsed | controller/inventory/gitfile.go:193-259 | the same for anything that any text parsed to, with no condition on the text |
| InventoryStability.SecondRoundStable | agent/internal/runner/inventory.go:25-51 | for names without a leading bracket a second round of printing and parsing changes nothing |
| InventoryStability.QualifiedSectionInert | controller/inventory/gitfile.go:204-220 | a whole qualified section before another header or at the end of the file can be inserted or deleted without changing the parse, for every surrounding text |
| GitSync.HostStore.UpsertInventoryHosts | controller/internal/store/store.go:292-317 | all or nothing: the project's rows are replaced, or nothing changed, and that only if a statement reported an error |
| GitSync.HostStore.GetInventoryHosts | controller/internal/store/store.go:265-290 | an error, or the project's rows in any order |
| GitSync.HostStore.SyncProject | controller/inventory/gitfile.go:78-135 | a readable file is synced unless the store reports an error; a sync that commits leaves exactly the hosts its file means, one that does not leaves the previous rows; other projects are untouched; the status says which it was unless its own write failed |
| GitSync.AgentSeesProject | controller/internal/reconciler/reconciler.go:175-205 | end to end, for any row order and map orders, the agent's file means what the project's file meant with ansible_host filled in, if and only if none of its host lines looks like a header |
| GitSync.AgentFileFaithful | agent/internal/runner/inventory.go:22-54 | with no host name that starts with a bracket, any file the agent can write from the rows, in any order, means what the project's file meant |
| JobLogs.FirstWriteWins | api/internal/store/jobs.go:106-119 | a row already present stays, otherwise the first line posted under a number wins, and other jobs are untouched |
| JobLogs.RetrySafe | api/internal/store/jobs.go:106-119 | posting a batch again after part of it landed is the same as posting it once |
| JobLogs.InterleavedLands | api/internal/store/jobs.go:106-119 | however others write meanwhile, every line that landed is in the table at the end, as posted unless its number was taken when it arrived, and no row is ever changed |
| JobLogs.Logs.AppendJobLogs | api/internal/store/jobs.go:106-119 | a prefix of the batch lands, all of it if no error is returned |
| JobLogs.Logs.GetJobLogs | api/internal/store/jobs.go:121-140 | an error, or exactly the job's rows, strictly ordered by number |
| JobLogs.ReadBackUnique | api/internal/store/jobs.go:121-140 | there is only one such list |
| LogPipeline.StepKeeps | agent/internal/runner/runner.go:170-190 | every step of a reader, the flusher or the executor keeps the pipeline's invariant |
| LogTheorems.Conservation | agent/internal/runner/runner.go:233-269 | in every interleaving each number taken is in exactly one place: with its reader, buffered, in the post under way, delivered or dropped; and numbers are taken in each stream's order |
| LogTheorems.CleanRow | agent/internal/server/server.go:154-158 | at any moment of a run without races, the job's rows are exactly the delivered lines under their own numbers |
| LogTheorems.Collision | agent/internal/server/server.go:154-158 | at the end of a run, if some line got another's number, some two lines share a number |
| LogTheorems.LosslessIff | agent/internal/server/server.go:154-158 | with no failed post, the read-back is an interleaving of both streams with nothing lost if and only if no reader found the other's number in seq, and any race loses a line |
| LogTheorems.SafeOutputs | agent/internal/runner/runner.go:170-190 | no timing can lose a line if and only if one of the two streams is silent |
| LogTheorems.Ends | agent/internal/runner/runner.go:241-257 | every run can be continued to the final flush without dropping anything more |
| LogBatching.LogBatcher.Add | agent/internal/runner/runner.go:233-239 | appends the line and nothing else |
| LogBatching.LogBatcher.Swap | agent/internal/runner/runner.go:259-267 | takes the whole buffer and leaves it empty |
| LogBatching.Execution.OnLog | agent/internal/server/server.go:154-158 | store, read back, add, with the other goroutines in between |
| LogBatching.Execution.ReadStream | agent/internal/runner/runner.go:175-188 | a reader goroutine from start to end of its stream |
| LogBatching.Execution.DoFlush | agent/internal/runner/runner.go:259-269 | takes the whole buffer, releases the lock, posts; what it took is delivered in order up to where the post failed, and all of it if none did; the outcome is ignored |
| LogBatching.Execution.RunFlusher | agent/internal/runner/runner.go:241-252 | takes the buffer exactly once per tick and once more after done, and then stops; if no post fails, nothing is dropped and everything that was buffered is delivered |
| LogBatching.Execution.FlushBatcher | agent/internal/server/server.go:160-166 | once both readers are done the channel is closed, and the last flush is left to the flusher |
| LogBatching.Execution.ReadLogs | api/internal/store/jobs.go:121-140 | after the final flush and with no failed post the read-back is faithful if and only if the run had no race, if and only if no line is missing |
| AgentServer.AdmissionBound | agent/internal/server/server.go:96-107 | with at most C dispatch handlers active the counter stays between 0 and capacity + C - 1 in every run |
| AgentServer.AdmissionBoundReached | agent/internal/server/server.go:96-107 | and some run reaches capacity + C - 1 |
| AgentServer.AdmissionBoundExact | agent/internal/server/server.go:96-107 | every run stays within n if and only if n is at least capacity + C - 1 |
| AgentServer.QuietSizes | agent/internal/server/server.go:101-139 | whenever nobody is between its two updates the map has at most count entries, and exactly count if and only if every executing task has its own entry |
| AgentServer.StepOwn | agent/internal/server/server.go:101-105 | the one write that makes a task lose its entry is an insert that finds the job in the map |
| AgentServer.AgreeExactly | agent/internal/server/server.go:101-139 | all through a run the map's size is the counter, once those between two updates have made the second, if and only if no insert of the run finds its job in the map; then every task in the map can be cancelled, and in any run a job without one is not found |
| AgentServer.DistinctAgree | agent/internal/server/server.go:112-130 | for distinct job ids the map's size is the counter at every such moment, and a cancel reaches the job's own task exactly while it is in the map |
| AgentServer.TwiceDisagrees | agent/internal/server/server.go:101-139 | a run in which a job dispatched twice leaves one entry and a count of two, and the end of the first task leaves the second, still executing, without one |
| AgentDispatch.ControllersAgree | controller/internal/reconciler/reconciler.go:142-153 | for any run of the controllers, whatever an agent admits of their Dispatch calls comes once, so its map and its counter agree and every cancel finds the job's own task |
| AgentHandlers.Server.HandleDispatch | agent/internal/server/server.go:83-110 | 400, 503 or 202 by payload and counter, and 202 means a counted task of that job has been started |
| AgentHandlers.Server.HandleCancel | agent/internal/server/server.go:112-130 | cancels exactly the task the map names and leaves the map, 404 if there is none |
| AgentHandlers.Server.ExecuteJob | agent/internal/server/server.go:132-139 | the deferred cleanup ends the task, entry first and counter second |
| Scheduling.Scheduler.Sync | controller/internal/scheduler/scheduler.go:63-96 | the registry becomes Synced of the old one and the list; nothing changes when the list cannot be read; entries that stay keep their number; the registry and the cron entries agree |
| Scheduling.Scheduler.Register | controller/internal/scheduler/scheduler.go:98-157 | registers a schedule exactly if the time zone loads, the five-field parser accepts it and the library adds it, under a new entry |
| Scheduling.AgreeExactly | controller/internal/scheduler/scheduler.go:24-32 | whenever the two agree, the cron entries are exactly the values of entryIDs and no two schedules share one |
| Scheduling.SyncedKeys | controller/internal/scheduler/scheduler.go:72-95 | after a sync exactly the active schedules are registered that were so before or are accepted now, and what was registered keeps its version |
| Scheduling.SyncIdempotent | controller/internal/scheduler/scheduler.go:63-96 | syncing twice with the same list is syncing once |
| Scheduling.UpToDateIff | controller/internal/scheduler/scheduler.go:24-26 | a sync brings the registry up to date with the list if and only if no active schedule was edited since it was registered |
| Scheduling.EditMissed | controller/internal/scheduler/scheduler.go:87-95 | two syncs between which a registered schedule is edited, after which the old version is still registered |
| Scheduling.NothingRegistered | controller/internal/scheduler/scheduler.go:98-118 | with a library that counts fields as the two parsers do, no schedule is accepted and no series of syncs registers anything |
| Scheduling.DisableThenEnable | controller/internal/scheduler/scheduler.go:78-95 | one sync while the schedule is disabled makes the next one register the current version |
| Scheduling.VersionRead | controller/internal/scheduler/scheduler.go:87-95 | after any series of syncs an entry holds the version read when the schedule was last registered, and it has been active in every sync since |

## Left out

- Locks: a query on its own holds its locks only while it is executed, and which rows other statements hold at that instant is arbitrary in the model, not tied to what they are doing.
- Time: one clock, monotone, for all statements; each statement is atomic.
- Error texts: the reasons stored with a failed job are their fixed prefixes.
- Rows: deletion of jobs and agents, template, workflow and extra-variable columns, and the workflow engine; agents are never set offline, since MarkStaleAgentsOffline has no caller; the age of the heartbeat decides.
- Job history events: nothing writes them.
- Reads of templates, projects and credentials in buildPayload: only that they may fail.
- Inventory values: strings only; hosts whose variables came from elsewhere are printed by other formatting verbs.
- InventoryRoundTrip.RoundTrip: it is about what text means; the parser refuses text with a line of 65536 bytes or more, and characters are abstract, with a fixed set of white space that includes newline.
- Files: encodings and write errors.
- Playbook output: lines that fit the scanner; at a longer one the reader would stop.
- Nil group lists: whether the driver sends a nil slice as NULL, which the NOT NULL column would refuse, is covered only by the insert being allowed to fail.
- The `seq` variable of onLog: reads and writes are taken to be atomic words; the language promises less for a data race.
- LogBatching.Execution.PostBatch: nobody but the job's own flusher writes its rows while a batch is posted.
- Log posts: the agent's documentation speaks of retries and of a flush at ten lines; the code has neither and the model follows the code.
- Process exit of an agent before the final flush: a run that stops early.
- Cron: expression parsing, time zones and firing; acceptance is three uninterpreted decisions. The field counts in Scheduling.NothingRegistered are those of robfig/cron v3, which is not part of this model.
- HTTP routing, authentication, JSON, configuration, git, subprocesses, credentials and cryptography.
- The controller's own CreateJob: the same insert as the API's, called by a firing schedule.
- The CRUD stores and handlers: single statements.
- Reconcilers.Reconciler.Run: a bound on how long a tick takes is not stated.
- LogBatching.Execution.RunFlusher: the endless loop is cut after an arbitrary number of ticks.
