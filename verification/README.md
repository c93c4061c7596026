# ateam, modelled in Dafny

This project models the parts of ateam where several functions, several runs or several goroutines have to agree, and
proves what they agree on. One group of modules belongs to one part of the repository.

- **Layout migration** (`internal/migrate/v1_layout.go`). A root directory is a map from paths to files and
  directories. A pass is a list of jobs read off the migration tables and the directory listings, every filesystem
  operation may be the last one, and a rename may turn out to cross a filesystem. `MigrationRun` is the migrator as a
  class that works on the tree step by step; `MigrationJobs` is what its jobs mean; `MigrationRows` and
  `MigrationCleared` spell out, path by path, what lies where after a pass and what is gone, `MigrationSucceeds` when
  it cannot fail; the other `Migration*` modules prove conservation, convergence after a crash, and idempotence.
- **Flow engine** (`internal/flow/flow.go`, the budget gate of `cmd/table.go`). `FlowMeaning` says what a tree of
  bundles, pipelines and parallels means when it runs one step at a time; `FlowMachine` is the engine as small steps
  of a dispatcher, workers and a scheduler; `FlowRefinement`, `FlowSettling`, `FlowLaws`, `FlowBrackets` and
  `FlowProtocol` relate the two on every schedule; `FlowVerdict` and `FlowSpelled` say what results and counts mean by
  the reported events alone; `FlowWidth` counts the steps in flight; `FlowBudget` and `FlowCap` bound what a batch
  spends; `FlowEngine` is the sequential engine as a class with loops.
- **Reporters** (`cmd/table_reporter.go`, `cmd/pool_status.go`, `internal/flow/reporters_bundle_log.go`). `PoolTable`
  and `BundleLog` hold the stateful reporters, `PoolTotals` and the end of `BundleLog` connect them to the engine's runs.
- **Codex** (`internal/codex/adapter.go`, `internal/codex/sessionlog_tail.go`, `internal/codex/sessionlog.go`). Idle
  detection over a history of polls, and the incremental log reader against the one-shot one.
- **Containers** (`internal/container`). `PrepareGuard` is a protocol of concurrent callers; `GoHeap`,
  `DockerContainer` and `DockerExecContainer` have Go slices and maps as shared memory; `ContainerEnv` is the staged
  environment and the flags that forward it.
- **Codecs and lists** (`internal/config/projectid.go`, `cmd/runner_overrides.go`, `cmd/code.go`,
  `internal/agent/agent.go`). Project ids, shell quoting read back by a POSIX reader, and environment editing.

What the environment decides is a parameter: the number of operations before a pass is stopped and which renames cross
a filesystem, the scheduler's picks, what hooks, prompts and the executor of a bundle do, the bytes that arrive between
two polls, clock readings, captured panes and how their lines look, JSON decoding, SHA-256, and the host environment.

## Findings

Where the code and its own comments part, the model follows the code and the exact condition is proved.

| comment or expectation | what holds | proved by |
|---|---|---|
| A migration pass is idempotent and re-running picks up where it left off (internal/migrate/v1_layout.go:6-7, 85-86) | For a pass without errors, exactly when no name clashes: a directory `shared/report/<x>.md/` that the pass empties and removes while a report of x is waiting for that place. The condition is about the tree before the pass. An empty `shared/<action>/` may be left by an interrupted pass. | `MigrationRepeat.IdempotentIff`, `MigrationRepeat.ConvergesIff`, `MigrationExample.SecondPassMoves` |
| A batch overshoots its cap by at most `workers` runs (cmd/table.go:942-944) | `workers + 1`, because the gate is asked before the slot is waited for (internal/flow/flow.go:897-907). With n runs of cost c it is `workers` exactly when the pool runs one step at a time or all n together stay below the cap plus `workers` runs. | `FlowBudget.OvershootBound`, `FlowCap.WorkersBoundIff` |
| A cap is enforced | An infinite or not-a-number cap is accepted and never refuses anything (cmd/table.go:925-963). | `FlowBudget.CapIsEnforced` |
| Quiescence means the pane stood still (internal/codex/adapter.go:538-616) | Exactly when no poll takes a whole window between its two readings of the clock. | `CodexIdle.QuiescenceIff` |
| Tailer and one-shot reader report the same session (internal/codex/sessionlog_tail.go:151-153, internal/codex/sessionlog.go:231-233) | Tokens and session agree; the model name exactly when the log names none or ends with the one it began with. | `SessionLog.SameTotals`, `SessionLog.ModelsAgreeIff` |
| `ProjectIDToPath` undoes `PathToProjectID` for ids that are not truncated (internal/config/projectid.go:42-44) | Exactly for paths without a NUL byte and without a slash before a slash or an underscore; `a/_b` and `a_/b` share an id. | `ProjectId.PathComesBackIff`, `ProjectId.BlurredPathsCollide` |
| `stagedEnv` replaces every host entry whose key is set (internal/container/container.go:118-122) | All but one for the empty key; it then differs from the agent's own environment exactly when that key is set to nothing and the host has such an entry. | `ContainerEnv.StagedEnv` |

## Model

| member | source | states |
|---|---|---|
| MigrationRun.Migrator.RunV1Layout | internal/migrate/v1_layout.go:96-116 | The migrator either does to the tree and the report what one whole pass does, or leaves a tree at which such a pass can stop; on one filesystem a hard error is the pass's own error. |
| MigrationRun.Migrator.CheckNeedsMigration | internal/migrate/v1_layout.go:61-83 | True exactly when one of the nine indicators is found. |
| MigrationRun.Migrator.MoveEntry | internal/migrate/v1_layout.go:207-262 | Skips a missing source, hands an existing target to the conflict rule, else creates the parents and renames, falling back to copy and delete across filesystems; what it leaves when it stops midway is a partial move. |
| MigrationRun.Migrator.CopyFile | internal/migrate/v1_layout.go:264-283 | A copy that is stopped leaves a prefix of the bytes at the target and the source as it was. |
| MigrationRun.Migrator.ResolveExistingTarget | internal/migrate/v1_layout.go:551-578 | An equal source is removed, a different one parked as .legacy unless one is there, and nothing else changes. |
| MigrationRun.Migrator.MoveTree | internal/migrate/v1_layout.go:384-417 | A directory moves with all it holds, or stays with a warning when the target exists. |
| MigrationRun.Migrator.MoveStatic | internal/migrate/v1_layout.go:360-374 | The static rows run in table order, up to the first that fails. |
| MigrationRun.Migrator.MoveRoles | internal/migrate/v1_layout.go:419-442 | Every listed role's rows run, roles in listing order. |
| MigrationRun.Migrator.Cleanup | internal/migrate/v1_layout.go:460-526 | Histories and junk files go, then emptied role directories, then the two roots, in that order. |
| MigrationRun.Migrator.FlattenReports | internal/migrate/v1_layout.go:154-184 | For each listed directory the spec name moves before the older one, then the directory is removed if it is empty. |
| MigrationRun.Migrator.FlattenShared | internal/migrate/v1_layout.go:131-147 | Reports first, then the three actions; an action's directory is removed only after its own move in the same pass. |
| MigrationSucceeds.PassSucceeds | internal/migrate/v1_layout.go:85-116 | A pass succeeds whatever is in the tree, as long as no file sits where either layout has a directory and no directory where cleanup expects a file. |
| MigrationRows.RolePromptsArrive | internal/migrate/v1_layout.go:349-358 | After a pass without errors each v1 prompt of a role holds what it held before, or else the bytes of that role's own old file: report_prompt.md, code_prompt.md and their extras, each in its own place; if there was neither, nothing. |
| MigrationRows.SupervisorPromptsArrive | internal/migrate/v1_layout.go:304-315 | Likewise supervisor/X_prompt.md arrives at prompts/X.prompt.md and supervisor/X_extra_prompt.md at prompts/X.post.extra.md, for the six names. |
| MigrationRows.AutoRolesArrives | internal/migrate/v1_layout.go:316 | Likewise the report_auto_roles prompt. |
| MigrationRows.BasePromptsArrive | internal/migrate/v1_layout.go:286-302 | Likewise the base prompts; code's two have an older and a newer source, and the older one wins. |
| MigrationRows.ArtifactsArrive | internal/migrate/v1_layout.go:318-324 | Likewise review, verify and auto_setup below shared/: first the pre-v1 file, then the nested one. |
| MigrationRows.ReportArrives | internal/migrate/v1_layout.go:154-184 | Likewise a role's report: roles/R/report.md, then shared/report/R/R.md, then shared/report/R/report.md. |
| MigrationCleared.CodeDirArrives | internal/migrate/v1_layout.go:336-338 | Everything below supervisor/code is at the same place below shared/code afterwards, if nothing was there. |
| MigrationCleared.RoleJunkGone | internal/migrate/v1_layout.go:453-490 | A role's history and its last_run files are gone. |
| MigrationCleared.SupervisorJunkGone | internal/migrate/v1_layout.go:453-503 | So are the supervisor's history and its two report files. |
| MigrationCleared.EmptiedDirsGone | internal/migrate/v1_layout.go:504-526 | roles/, supervisor/ and the directories of roles and reports are left only if they still hold something. |
| MigrationCleared.ActionDirGone | internal/migrate/v1_layout.go:135-145 | When the pass moved shared/<action>/<action>.md up, that directory is left only if it still holds something. |
| MigrationTables.SourceAboveTarget | internal/migrate/v1_layout.go:286-358 | No row's source is or lies above any row's target. |
| MigrationTables.ParkedAndSources | internal/migrate/v1_layout.go:551-578 | No parked .legacy path is a source, or lies above or below one. |
| MigrationLaws.PassConserves | internal/migrate/v1_layout.go:207-283 | Wherever a pass is stopped or fails, with or without the copy fallback: every content outside what cleanup drops still has a file, and every file at a v1 path is unaltered. |
| MigrationLaws.DriftingPassConserves | internal/migrate/v1_layout.go:186-199 | The same when jobs are left part-done and the pass goes on, as it does with a warning when an rmdir is refused. |
| MigrationLaws.SkippedPhasesAreNoOps | internal/migrate/v1_layout.go:96-116 | When the gate says no, the four gated phases would change and report nothing; they would also succeed exactly when neither prompts nor prompts/code is a regular file. |
| MigrationLaws.CrashConverges | internal/migrate/v1_layout.go:85-95 | Stopped after any prefix of its operations and started afresh, a pass that never unblocks a finished move ends with the same error, the same files and the same directories, empty shared/action directories aside. |
| MigrationClash.ClashIff | internal/migrate/v1_layout.go:154-184 | Whether a pass will unblock a finished move is decided by the tree it starts from: exactly when some name clashes. |
| MigrationRepeat.IdempotentIff | internal/migrate/v1_layout.go:6-7 | After a pass without errors a second one changes and reports nothing if and only if no name clashed. |
| MigrationRepeat.ConvergesIff | internal/migrate/v1_layout.go:85-95 | A fresh pass recovers from every point at which a successful one can be stopped if and only if no name clashes. |
| MigrationRepeat.StoppingKeepsClashFree | internal/migrate/v1_layout.go:85-95 | Stopping a clash-free pass anywhere leaves a clash-free tree from which a pass succeeds. |
| MigrationRepeat.RepeatedCrashesConverge | internal/migrate/v1_layout.go:85-95 | However often a clash-free pass is stopped and restarted, the one that completes ends where a single pass would have. |
| MigrationExample.SecondPassMoves | internal/migrate/v1_layout.go:154-184 | A smallest clashing tree: its first pass succeeds and its second is not a no-op. |
| FlowBundle.BundleBrackets | internal/flow/flow.go:611-735 | A bundle reports BundleStart first and BundleEnd last, each once, with its one result, whatever panics. |
| FlowBundle.PostAfterAgent | internal/flow/flow.go:713-735 | A PostExec hook runs only after the agent ended without an error. |
| FlowBundle.RowsClosed | internal/flow/flow.go:680-713 | At most one call row is allocated; without a panic and with a call table it is executed once or marked failed once. |
| FlowVerdict.Verdict | internal/flow/flow.go:632-735 | By the reported events alone: the result goes on exactly when no hook stopped the bundle, every hook came back, and the agent ended without an error or a dry run's prompt resolved; it is a skip exactly when a PreExec hook skipped; all else fails, an errored agent with its own cause. |
| FlowVerdict.WholeRun | internal/flow/flow.go:632-735 | The whole trace of a bundle whose agent succeeds: each PreExec hook, one row, the agent's events, its cost, every PostExec hook; the first that fails is the result. |
| FlowVerdict.FirstStopEnds | internal/flow/flow.go:637-645 | The first PreExec hook that does not continue is the last thing that happens, and the result is its own. |
| FlowVerdict.SettingsReach | internal/flow/flow.go:611-664 | The bundle's own environment replaces the one passed down, its role and action win over that, the options over both; all events carry that environment and the row is prepared with those options. |
| FlowEngine.VerifyTells | internal/flow/flow.go:256-292 | Verification names exactly the bundles of the tree whose prompt fails or panics in the preview. |
| FlowEngine.Engine.ExecuteBundle | internal/flow/flow.go:611-735 | Reports exactly the bundle's events in order and returns its one result. |
| FlowEngine.Engine.RunDetailed | internal/flow/flow.go:771-820 | Results and outcomes up to the first errored step, the rest skipped; reports what the pipeline's meaning reports. |
| FlowEngine.Engine.RunSequential | internal/flow/flow.go:863-881 | The gate is asked before each step; a refusal turns the remaining steps into one skip each. |
| FlowEngine.Engine.Run | internal/flow/flow.go:317-340 | When verification finds a failing bundle, one failed result each and nothing reported or allocated; else the tree runs, and an error index is reported exactly when some result is an error. |
| FlowRefinement.InterleavingsAgree | internal/flow/flow.go:883-921 | With gates that answer by position, every finished schedule reports the same events in the same order at every address, costs the same and returns the same results in some order as running one step at a time. |
| FlowSettling.EveryRunSettles | internal/flow/flow.go:897-911 | Whatever budget gates ask, at any depth, every finished schedule agrees with the sequential run of the tree whose budget gates were answered beforehand; a pool answered with a refusal had reached its cap by the end. |
| FlowLaws.RunIsPrefix | internal/flow/flow.go:883-937 | On every schedule and with any gate: the steps that ran are a prefix, each other step returns one skip and reports nothing, the stage reports its start and the tally of exactly those results, and a budget gate refuses only at or above its cap. |
| FlowLaws.PipelineLaw | internal/flow/flow.go:771-813 | A pipeline returns what the steps up to and including the first errored one return, reports that index, lets only those report, and skips each later one. |
| FlowLaws.ParallelLaw | internal/flow/flow.go:838-881 | The admitted steps are a prefix, each other step is one skip, and an error stops nothing. |
| FlowSpelled.PipelineStops | internal/flow/flow.go:771-813 | A step of a pipeline runs exactly if no earlier step returned a failed result - a skip stops nothing - in the stage's own environment if it has one. |
| FlowSpelled.ParallelGoesOn | internal/flow/flow.go:838-859 | A step of a parallel the gate lets through runs whatever the others return. |
| FlowSpelled.TallyCounts | internal/flow/flow.go:979-1008 | The reported counts are the numbers of results that continued, failed and skipped, plus the steps a pipeline never ran. |
| FlowLaws.RunLegal | internal/flow/flow.go:611-735 | On every schedule and with any gates, each address reports nothing, one whole bundle run, or one whole stage. |
| FlowLaws.RunRowsClosed | internal/flow/flow.go:680-713 | The row closure of one bundle, at every address of every finished run. |
| FlowLaws.RunAddsUp | internal/flow/flow.go:979-1008 | For a parallel of bundles, one result per step and succeeded, failed and skipped add up to the number of steps, on every schedule. |
| FlowBrackets.StagesBracket | internal/flow/flow.go:838-859 | Whatever is reported at an address comes after the start and before the end of every stage above it, on every run, finished or not. |
| FlowWidth.EveryPoolFits | internal/flow/flow.go:838-895 | In every pool of every run, counted on its slots: at most `workers` steps in flight when that is positive, else at most five and at most one per step, and at most one in a dry run or for a single step. |
| FlowWidth.WorkersFill | internal/flow/flow.go:883-919 | Some schedule of a concurrent pool does have that many in flight, as far as the gate lets steps through. |
| FlowWidth.OneAtATime | internal/flow/flow.go:863-881 | A dry run or a single step does run. |
| FlowProtocol.NeverStuck | internal/flow/flow.go:883-921 | Until everything has finished some step is possible. |
| FlowProtocol.RunsEnd | internal/flow/flow.go:883-921 | The length of any schedule is bounded by the work at its start. |
| FlowProtocol.CanFinish | internal/flow/flow.go:883-921 | Any run can be scheduled on until it has finished. |
| FlowBudget.CapIsEnforced | cmd/table.go:925-963 | A flag is refused exactly when it does not parse, is negative or minus infinity; an accepted one can refuse a step exactly when it is finite and the batch has a name. |
| FlowBudget.OvershootBound | cmd/table.go:942-963 | At every point of every schedule a gated batch that spent anything is below the cap plus workers + 1 runs - six, or one more than there are steps, when no workers are given - and below the cap plus one run when the pool is sequential. |
| FlowCap.RunCostsAtMost | internal/flow/flow.go:883-921 | No schedule commits more than all the steps come to. |
| FlowCap.WorkersBoundHolds | cmd/table.go:942-944 | The cap plus `workers` runs is a bound whenever what was spent before and all the steps together are below it. |
| FlowCap.SequentialKeepsBound | internal/flow/flow.go:863-881 | A sequential pool that starts below its cap always keeps the bound of `workers` runs. |
| FlowCap.WorkersBoundIff | cmd/table.go:942-944 | For n steps of one positive cost and a batch below its cap, `workers` runs are a bound on every schedule if and only if the pool is sequential or all n together stay below it. |
| PoolTable.TableReporter.constructor | cmd/pool_status.go:38-49 | One queued row per label, and an index in which the last row of a label wins. |
| PoolTable.TableReporter.BundleEvent | cmd/table_reporter.go:117-180 | An event changes its bundle's row and the counts as stated, and no other row; an unknown bundle changes nothing. |
| PoolTable.TableReporter.StageEnd | cmd/table_reporter.go:187-201 | Exactly the rows still queued become skipped and are counted once. |
| PoolTable.RowFollows | cmd/pool_status.go:92-139 | While its bundle runs a row says so, with the most tokens and turns reported. |
| PoolTable.FirstEndDecides | cmd/pool_status.go:88-139 | The first report of an end decides the row, whatever is reported after it. |
| PoolTable.ResultDecides | cmd/pool_status.go:141-182 | The bundle's result sets the status and can only add to the counts. |
| PoolTotals.TotalsAgree | cmd/table_reporter.go:143-201 | On every schedule of a parallel of bundles, with any gate, the table ends with the counts of the engine's StageEnd, which is the last event, and they add up to the rows. |
| PoolTotals.CountersGrow | cmd/pool_status.go:92-139 | Over any events in any order no row's token or turn count goes down. |
| PoolTotals.FinishedRowStays | cmd/pool_status.go:88-154 | A done or errored row stays as it is until its bundle ends or, without a live region, starts its agent. |
| PoolTotals.Follow | cmd/table_reporter.go:117-201 | Fed a run's events under unique labels, the reporter object holds the table those laws are about. |
| BundleLog.BundleLogReporter.AgentExecStart | internal/flow/reporters_bundle_log.go:133-168 | The file is opened, the buffer flushed to it in order, and the event written after it. |
| BundleLog.BundleLogReporter.BundleEnd | internal/flow/reporters_bundle_log.go:174-199 | The last line goes to the file if there is one, and the bundle's state is dropped. |
| BundleLog.LogIsOwnEvents | internal/flow/reporters_bundle_log.go:92-199 | Under any interleaving with other bundles, a bundle that reached its agent has a file with exactly its own lines in emission order, and one that did not has written nothing. |
| BundleLog.LogOnEverySchedule | internal/flow/reporters_bundle_log.go:92-199 | The same on every schedule of the engine, with any gates, for uniquely named bundles. |
| BundleLog.LinesTell | internal/flow/reporters_bundle_log.go:115-199 | A log holds the starts and ends of the bundle, of its hooks and of the agent, and nothing else. |
| CodexPane.NonEmptyTail | internal/codex/adapter.go:917-929 | The last n lines that are not blank, in order. |
| CodexPane.ScrollbackIsIgnored | internal/codex/adapter.go:647-670 | Once the bottom holds ten lines that are not blank, nothing above them makes a pane look busy or not. |
| CodexPane.PaneShows | internal/codex/adapter.go:647-682 | Busy: a line that is not blank, with fewer than ten such lines below it, shows work. Ready: the banner, and such a line is an input prompt. |
| CodexIdle.WaitIdle | internal/codex/adapter.go:538-616 | The loop ends at the first poll that ends the wait by the declarative rule over the history, and with that rule's signal. |
| CodexIdle.PromptMatchIff | internal/codex/adapter.go:560-584 | The wait ends by the prompt exactly when this pane and the one before show the banner, an input prompt and no work in their last ten lines, and an earlier one did not. |
| CodexIdle.StillPaneEnds | internal/codex/adapter.go:585-605 | A pane other than the first that shows no work and has stood still for the window at two polls ends the wait. |
| CodexIdle.OtherEnds | internal/codex/adapter.go:548-614 | The wait times out only once the deadline has passed, aborts only when the context or the capture gives out, and goes on only while nothing of the kind has happened. |
| CodexIdle.QuiescenceMeans | internal/codex/adapter.go:585-605 | Quiescence: the last two captures are the same, not busy, not the first pane, and unchanged for the window, unless the last poll took a window itself. |
| CodexIdle.QuiescenceIff | internal/codex/adapter.go:585-605 | Quiescence always means two equal captures, for histories whose polls take at most d between their clock readings, if and only if d is below the window. |
| CodexIdle.FirstPromptIsIgnored | internal/codex/adapter.go:560-584 | A prompt that was there from the start never counts as the answer. |
| SessionLog.Tailer.Poll | internal/codex/sessionlog_tail.go:84-115 | After any tick, state, emitted events and the partial line are those of one pass over all bytes seen. |
| SessionLog.TailPolls | internal/codex/sessionlog_tail.go:83-197 | However the bytes are split over the polls, the emitted events are those of one pass over the complete lines, and the rest waits. |
| SessionLog.EmittedTells | internal/codex/sessionlog_tail.go:130-193 | Emitted are, in log order, every agent message that is not empty, every session with its id, every turn start, and for every task_complete one turn with the last model and the last token count that had a total or an input. |
| SessionLog.EmittedGrows | internal/codex/sessionlog_tail.go:83-117 | More bytes only add to what was emitted. |
| SessionLog.ReadSessionStats | internal/codex/sessionlog.go:176-240 | The scan's totals are the fold of the records of the complete lines. |
| SessionLog.StatsTell | internal/codex/sessionlog.go:185-228 | What the one-shot reader reports, told from the log: the last such token count, the number of token counts, the last session and duration, and whether a task completed. |
| SessionLog.SameTotals | internal/codex/sessionlog.go:185-228 | After the same lines both readers hold the same token totals and the same session. |
| SessionLog.TurnsCarryTotals | internal/codex/sessionlog_tail.go:168-190 | Every turn.completed carries the tokens and the duration the one-shot reader finds in the log up to that line. |
| SessionLog.ModelsAgreeIff | internal/codex/sessionlog_tail.go:151-153 | The two model names agree if and only if the log names none, or its first and last name are equal. |
| PrepareGuard.AtMostOncePerKey | internal/container/prepare_guard.go:17-44 | On every schedule of any callers, fn starts at most once per key. |
| PrepareGuard.ReturnsAfterFinish | internal/container/prepare_guard.go:17-44 | A caller that returned did so after its key's fn finished, with the error that run gave, the same for all callers of the key. |
| PrepareGuard.ErrorIsFns | internal/container/prepare_guard.go:17-44 | The error a caller gets is the one fn returned when it ran under that key's guard. |
| PrepareGuard.SomeoneCanStep | internal/container/prepare_guard.go:32-44 | While a caller has not returned, some caller can step. |
| PrepareGuard.StepGoesOn | internal/container/prepare_guard.go:32-44 | Every step leaves fewer steps to take. |
| DockerContainer.Docker.Clone | internal/container/docker.go:69-82 | The same contents on memory of its own, and the same guard. |
| DockerContainer.Docker.ResolveTemplates | internal/container/docker.go:92-106 | Arguments and volumes are rewritten in place, the environment in a new map, nothing else. |
| DockerContainer.Docker.ApplyContainerExtra | internal/container/docker.go:143-154 | Arguments and forwarded names are appended, possibly into spare capacity, and the settings merged. |
| DockerContainer.CloneKeepsApart | internal/container/docker.go:69-154 | Whatever is done to a clone and its original, in any order, each ends as if the other did not exist, and they share the guard. |
| GoHeap.EveryEntryRewritten | internal/container/docker.go:92-106 | Resolving templates touches every entry of a list and every value of a map, and nothing else. |
| GoHeap.MergedInWins | internal/container/docker.go:128-139 | Settings that are merged in win over those there were; nothing to merge leaves a nil map nil. |
| DockerExecContainer.CloneKeepsApart | internal/container/docker_exec.go:44-79 | The same for containers the user manages. |
| DockerExecContainer.PlaceholdersResolved | internal/container/docker_exec.go:69-79 | A name or directory with `{{` in it is resolved, any other stays as it is. |
| ContainerEnv.StagedEnv | internal/container/container.go:123-147 | The host's entries without those of the non-empty keys that are set, then the non-empty settings in any order; for names without '=', every lookup is that of the agent's environment but for an emptied empty key. |
| ContainerEnv.EnvArgs | internal/container/docker.go:381-398 | One -e flag per non-empty setting, in byte order, never a value. |
| ContainerEnv.EnvFlags | internal/container/docker.go:230-249 | The forwarded names that are not set here and, when it is to run, that the host has, then the settings. |
| ContainerEnv.SettingsReachTheContainer | internal/container/docker.go:128-139 | Flags and staged environment together: a setting arrives as given, an empty one hides the key even from forwarding, any other forwarded key is the host's. |
| ProjectId.PathToProjectID | internal/config/projectid.go:16-40 | The loop computes the encoding, cut to 231 bytes and a hash suffix when it is longer than 240. |
| ProjectId.IdIsOneName | internal/config/projectid.go:16-40 | Every id is free of slashes and at most 240 bytes long. |
| ProjectId.DecodeScans | internal/config/projectid.go:45-54 | The three replacements are one scan from the left: a pair of underscores is one, a lone one a slash. |
| ProjectId.PathComesBackIff | internal/config/projectid.go:42-54 | A path comes back from its id, whatever the hash, if and only if it has no NUL byte, no slash before a slash or underscore, and an encoding of at most 240 bytes. |
| ProjectId.IdComesBackIff | internal/config/projectid.go:42-54 | A name is the id of what it reads as if and only if it has no slash, no NUL byte and at most 240 bytes. |
| ProjectId.ClearPathsNeverCollide | internal/config/projectid.go:12-15 | Two paths that come back never share an id. |
| ProjectId.BlurredPathsCollide | internal/config/projectid.go:12-15 | Two short paths outside that domain share one. |
| ProjectId.HexReads | internal/config/projectid.go:34-38 | The suffix spells the first four bytes of the digest in lower-case hexadecimal. |
| ProjectId.CutIdsShareIff | internal/config/projectid.go:34-38 | Two paths that are both cut share an id exactly if the first 231 bytes of their encodings and the first four of their digests agree. |
| ShellWords.UnquotedIff | cmd/code.go:483-485 | Exactly which words the shell reader takes as they stand. |
| SubRunArgs.QuotedReadsBack | cmd/runner_overrides.go:11-18 | Wherever a shell stands outside quotes, a quoted text is read as that text, whatever it holds and whatever surrounds it. |
| SubRunArgs.QuotedIsOneWord | cmd/runner_overrides.go:11-18 | Alone it is exactly that one word, the empty one included. |
| SubRunArgs.FragmentReadsBack | cmd/code.go:483-522 | When the unquoted values are plain, a shell reads the fragment as the options given, in order, every path as one word. |
| SubRunArgs.OptionsSpelled | cmd/code.go:486-522 | What a shell hands to the sub-run: each option that is set, under its own flag, in this order; an agent instead of the profile. |
| SubRunArgs.BuildSubRunArgs | cmd/code.go:486-522 | The fragment is those words, one space apart, paths quoted; an agent makes the profile moot; and a shell reads it back as the words when the unquoted ones are plain. |
| AgentEnv.FilterEnv | internal/agent/agent.go:278-291 | The entries of the excluded keys go; all others, those without '=' included, stay in order. |
| AgentEnv.UpsertEnv | internal/agent/agent.go:254-276 | The written keys go from where they were and come once at the end, in byte order. |
| AgentEnv.BuildProcessEnv | internal/agent/agent.go:236-252 | Request over non-empty agent setting over removal by an empty one over host, for every key. |
| AgentEnv.OverlayIff | internal/agent/agent.go:236-252 | The list edits come to that overlay for every key, every key that is set there once, if and only if no key that is written holds an '='. |
| AgentEnv.OthersUntouched | internal/agent/agent.go:278-291 | All other entries stay as they are, in their order. |
| SortedNames.LessIsByteOrder | internal/agent/agent.go:254-276 | The order of keys and listings: a proper start first, else the first byte that differs decides. |

## Left out

- MigrationRun.Migrator.RunV1Layout: requires that migration sources are regular files; an rmdir that the system refuses while everything else works ends the pass here, where `recordRemoveIfEmpty` warns and goes on. `MigrationLaws.DriftingPassConserves` covers conservation for a pass that goes on; convergence after one is not stated.
- MigrationLaws.CrashConverges: for a pass that fails by itself, the re-run's error is claimed only while the gate still answers as before; with prompts or prompts/code a regular file it can differ.
- FlowEngine.Engine.Run: the sequential engine has positional gates; budget gates are covered on every schedule by `FlowSettling` and `FlowLaws`.
- FlowBudget.OvershootBound: the steps below a budget-gated pool have no budget gates of their own.
- FlowLaws.RunIsPrefix: a call table that cannot be read makes the budget gate refuse below its cap; here that is a gate that refuses at a place of its own.
- SessionLog.ReadSessionStats: complete lines only; a last line without a newline, which the scanner would still deliver, and its limit on the length of a line are not modelled.
- BundleLog.BundleLogReporter.BundleStart: its two critical sections are one step here; file names are distinct for distinct bundles, and opening and writing always work.
- ContainerEnv.StagedEnv: its agreement with the agent's environment says nothing when a written key holds an '='; the order of such entries depends on the map's iteration.
- ShellWords.UnquotedIff: is exact for this reader; a shell also takes '#' and '~' within a word as they are.
- ProjectId.PathToProjectID: strings are bytes; for text that is not valid UTF-8 the loop would write replacement characters.
- Symbolic links, permissions and other users of the migrated directory.
- The warnings about legacy tokens in moved prompts: text scanning without an effect on the tree.
- Real processes, docker, tmux, git, signals, SQLite and the call-table schema: only their contracts, such as atomic rename and the sum of committed rows, appear.
- The executor, prompt resolution and hooks: scripted by the environment. fn of a prepare guard is taken not to panic.
- JSON and regular expressions: decoding and line patterns are parameters.
- Wall-clock formatting, rendering, help, HTML and progress bars.
- Auth detection, sandbox probing, profile resolution, pricing: single readings with no state to relate.
- Collisions of SHA-256 and of the pane hash.
